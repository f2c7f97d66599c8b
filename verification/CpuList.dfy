// Kernel CPU lists: the printer, the parser, and what a round trip through both gives back.

module CpuList {
  import opened Wrappers

  const MAX_SPAN: nat := 4096
  const USIZE_MAX: nat := 0xFFFF_FFFF_FFFF_FFFF

  // ------------------------------------------------------------------ sorted id sets

  ghost predicate Increasing(v: seq<nat>) {
    forall i, k :: 0 <= i < k < |v| ==> v[i] < v[k]
  }

  function Insert(v: seq<nat>, x: nat): seq<nat> {
    if v == [] || x < v[0] then [x] + v
    else if x == v[0] then v
    else [v[0]] + Insert(v[1..], x)
  }

  /** Sorted and without duplicates. */
  function SortedIds(v: seq<nat>): seq<nat> {
    if v == [] then [] else Insert(SortedIds(v[..|v| - 1]), v[|v| - 1])
  }

  lemma {:induction false} InsertIs(v: seq<nat>, x: nat)
    requires Increasing(v)
    ensures Increasing(Insert(v, x)) && forall y :: y in Insert(v, x) <==> y == x || y in v
    ensures Insert(v, x) != [] && (v == [] || Insert(v, x)[0] == v[0] || Insert(v, x)[0] == x)
    decreases |v|
  {
    if v != [] && x > v[0] {
      InsertIs(v[1..], x);
      var r := Insert(v[1..], x);
      forall i, k | 0 <= i < k < |[v[0]] + r| ensures ([v[0]] + r)[i] < ([v[0]] + r)[k] {
        if i == 0 {
          assert r[k - 1] in r;
        }
      }
      assert v == [v[0]] + v[1..];
    }
  }

  lemma {:induction false} SortedIdsIs(v: seq<nat>)
    ensures Increasing(SortedIds(v)) && forall y :: y in SortedIds(v) <==> y in v
  {
    if v != [] {
      SortedIdsIs(v[..|v| - 1]);
      InsertIs(SortedIds(v[..|v| - 1]), v[|v| - 1]);
      assert v == v[..|v| - 1] + [v[|v| - 1]];
    }
  }

  lemma HasMember(v: seq<nat>)
    ensures v == [] || exists y :: y in v
  {
    if v != [] {
      assert v[0] in v;
    }
  }

  /** An increasing list is determined by its members. */
  lemma {:induction false} IncreasingUnique(a: seq<nat>, b: seq<nat>)
    requires Increasing(a) && Increasing(b) && forall y :: y in a <==> y in b
    ensures a == b
    decreases |a|
  {
    HasMember(a);
    HasMember(b);
    if a != [] {
      assert a[0] in a && a[0] in b;
      assert b[0] in b && b[0] in a;
      forall y ensures y in a[1..] <==> y in b[1..] {
        assert y in a <==> y == a[0] || y in a[1..];
        assert y in b <==> y == b[0] || y in b[1..];
        assert a[0] !in a[1..] && b[0] !in b[1..];
      }
      IncreasingUnique(a[1..], b[1..]);
    }
  }

  lemma SortedStays(v: seq<nat>)
    requires Increasing(v)
    ensures SortedIds(v) == v
  {
    SortedIdsIs(v);
    IncreasingUnique(SortedIds(v), v);
  }

  // ------------------------------------------------------------------ maximal runs

  datatype Run = Run(lo: nat, hi: nat)

  /** Length of the run of consecutive ids that starts at index i. */
  function RunEnd(v: seq<nat>, i: nat): (j: nat)
    requires i < |v|
    ensures i <= j < |v|
    ensures forall k :: i <= k < j ==> v[k + 1] == v[k] + 1
    ensures j + 1 < |v| ==> v[j + 1] != v[j] + 1
    decreases |v| - i
  {
    if i + 1 < |v| && v[i + 1] == v[i] + 1 then RunEnd(v, i + 1) else i
  }

  function RunsFrom(v: seq<nat>, i: nat): seq<Run>
    requires i <= |v|
    decreases |v| - i
  {
    if i == |v| then []
    else
      var j := RunEnd(v, i);
      [Run(v[i], v[j])] + RunsFrom(v, j + 1)
  }

  function Range(lo: nat, hi: nat): (r: seq<nat>)
    requires lo <= hi
    ensures |r| == hi - lo + 1 && forall k :: 0 <= k < |r| ==> r[k] == lo + k
  {
    seq(hi - lo + 1, k => lo + k)
  }

  function Expand(rs: seq<Run>): seq<nat>
    requires forall k :: 0 <= k < |rs| ==> rs[k].lo <= rs[k].hi
  {
    if rs == [] then [] else Range(rs[0].lo, rs[0].hi) + Expand(rs[1..])
  }

  lemma RunIsRange(v: seq<nat>, i: nat, k: nat)
    requires i < |v| && i <= k <= RunEnd(v, i)
    ensures v[k] == v[i] + (k - i)
    decreases k
  {
    if i < k {
      RunIsRange(v, i, k - 1);
    }
  }

  lemma RunIsSlice(v: seq<nat>, i: nat)
    requires i < |v|
    ensures v[i] <= v[RunEnd(v, i)] && Range(v[i], v[RunEnd(v, i)]) == v[i..RunEnd(v, i) + 1]
  {
    var j := RunEnd(v, i);
    forall k | i <= k <= j ensures v[k] == v[i] + (k - i) { RunIsRange(v, i, k); }
    hide RunEnd;
  }

  ghost predicate Ascending(rs: seq<Run>) {
    && (forall k :: 0 <= k < |rs| ==> rs[k].lo <= rs[k].hi)
    && (forall k :: 0 <= k < |rs| - 1 ==> rs[k].hi + 1 < rs[k + 1].lo)
  }

  lemma AscendingCons(r: Run, rest: seq<Run>)
    requires Ascending(rest) && r.lo <= r.hi && (rest != [] ==> r.hi + 1 < rest[0].lo)
    ensures Ascending([r] + rest)
  {
    var rs := [r] + rest;
    forall k | 0 <= k < |rs| - 1 ensures rs[k].hi + 1 < rs[k + 1].lo {
      if k > 0 {
        assert rs[k] == rest[k - 1] && rs[k + 1] == rest[k];
      }
    }
  }

  /** Runs that cover exactly the ids from index i, in order and maximal: a gap follows each. */
  ghost predicate Covers(v: seq<nat>, i: nat, rs: seq<Run>)
    requires i <= |v|
  {
    Ascending(rs) && Expand(rs) == v[i..] && (i < |v| ==> rs != [] && rs[0].lo == v[i])
  }

  /** The printed ranges are exactly the maximal runs. */
  lemma {:induction false} RunsCover(v: seq<nat>, i: nat)
    requires i <= |v| && Increasing(v)
    ensures Covers(v, i, RunsFrom(v, i))
    decreases |v| - i
  {
    hide RunEnd, Covers, Increasing;
    if i == |v| {
      NothingCovered(v);
    } else {
      var j := RunEnd(v, i);
      RunsCover(v, j + 1);
      CoverNext(v, i, RunsFrom(v, j + 1));
    }
  }

  lemma NothingCovered(v: seq<nat>)
    ensures Covers(v, |v|, [])
  {
  }

  lemma CoverNext(v: seq<nat>, i: nat, rest: seq<Run>)
    requires i < |v| && Increasing(v) && Covers(v, RunEnd(v, i) + 1, rest)
    ensures Covers(v, i, [Run(v[i], v[RunEnd(v, i)])] + rest)
  {
    var j := RunEnd(v, i);
    var r := Run(v[i], v[j]);
    RunIsSlice(v, i);
    GapAfter(v, i);
    hide Range, RunEnd, Increasing;
    AscendingCons(r, rest);
    ExpandCons(r, rest);
    hide Expand, Ascending;
    SliceJoins(v, i, j);
  }

  lemma GapAfter(v: seq<nat>, i: nat)
    requires i < |v| && Increasing(v)
    ensures var j := RunEnd(v, i); j + 1 < |v| ==> v[j] + 1 < v[j + 1]
  {
    hide RunEnd;
  }

  lemma SliceJoins(v: seq<nat>, i: nat, j: nat)
    requires i <= j < |v|
    ensures v[i..j + 1] + v[j + 1..] == v[i..]
  {
  }

  lemma ExpandCons(r: Run, rest: seq<Run>)
    requires r.lo <= r.hi && Ascending(rest)
    ensures forall k :: 0 <= k < |[r] + rest| ==> ([r] + rest)[k].lo <= ([r] + rest)[k].hi
    ensures Expand([r] + rest) == Range(r.lo, r.hi) + Expand(rest)
  {
    assert ([r] + rest)[1..] == rest;
    hide Range;
  }

  // ------------------------------------------------------------------ text

  predicate IsSpace(c: char) { c == ' ' || ('\t' <= c <= '\r') }

  predicate IsDigit(c: char) { '0' <= c <= '9' }

  function DigitOf(c: char): nat
    requires IsDigit(c)
  {
    c as nat - '0' as nat
  }

  function CharOf(d: nat): (c: char)
    requires d < 10
    ensures IsDigit(c) && DigitOf(c) == d
  {
    (d + '0' as nat) as char
  }

  function Decimal(n: nat): (s: string)
    ensures s != "" && forall k :: 0 <= k < |s| ==> IsDigit(s[k])
  {
    if n < 10 then [CharOf(n)] else Decimal(n / 10) + [CharOf(n % 10)]
  }

  function Digits(s: string): (n: nat)
    requires forall k :: 0 <= k < |s| ==> IsDigit(s[k])
  {
    if s == "" then 0 else 10 * Digits(s[..|s| - 1]) + DigitOf(s[|s| - 1])
  }

  /** `usize` parsing: an optional plus sign, digits, and no overflow. */
  function ParseId(s: string): Option<nat> {
    var t := Unsigned(s);
    if t != "" && AllDigits(t) && Digits(t) <= USIZE_MAX then Some(Digits(t)) else None
  }

  function Unsigned(s: string): string {
    if s != "" && s[0] == '+' then s[1..] else s
  }

  predicate AllDigits(s: string) {
    forall k :: 0 <= k < |s| ==> IsDigit(s[k])
  }

  function TrimLeft(s: string): string {
    if s != "" && IsSpace(s[0]) then TrimLeft(s[1..]) else s
  }

  function TrimRight(s: string): string {
    if s != "" && IsSpace(s[|s| - 1]) then TrimRight(s[..|s| - 1]) else s
  }

  function Trim(s: string): string { TrimRight(TrimLeft(s)) }

  /** Index of the first `c`, or the length. */
  function Find(s: string, c: char): (k: nat)
    ensures k <= |s| && (k < |s| ==> s[k] == c) && forall i :: 0 <= i < k ==> s[i] != c
  {
    if s == "" || s[0] == c then 0 else 1 + Find(s[1..], c)
  }

  function Split(s: string, c: char): (parts: seq<string>)
    ensures parts != []
    decreases |s|
  {
    var k := Find(s, c);
    if k == |s| then [s] else [s[..k]] + Split(s[k + 1..], c)
  }

  function Join(parts: seq<string>): string {
    if parts == [] then "" else if |parts| == 1 then parts[0] else parts[0] + "," + Join(parts[1..])
  }

  lemma FindIs(s: string, c: char, k: nat)
    requires k <= |s| && (k < |s| ==> s[k] == c) && forall i :: 0 <= i < k ==> s[i] != c
    ensures Find(s, c) == k
  {
  }

  lemma SplitAt(s: string, c: char, k: nat)
    requires k < |s| && s[k] == c && forall i :: 0 <= i < k ==> s[i] != c
    ensures Split(s, c) == [s[..k]] + Split(s[k + 1..], c)
  {
    FindIs(s, c, k);
    hide Find;
  }

  lemma SplitWhole(s: string, c: char)
    requires c !in s
    ensures Split(s, c) == [s]
  {
    FindIs(s, c, |s|);
    hide Find;
  }

  lemma HeadOf(head: string, rest: string)
    ensures var s := head + "," + rest; var k := |head|; s[k] == ',' && s[..k] == head && s[k + 1..] == rest
  {
  }

  lemma {:induction false} SplitJoin(parts: seq<string>)
    requires parts != [] && forall k :: 0 <= k < |parts| ==> ',' !in parts[k]
    ensures Split(Join(parts), ',') == parts
    decreases |parts|
  {
    hide Split;
    if |parts| == 1 {
      SplitWhole(parts[0], ',');
    } else {
      SplitJoin(parts[1..]);
      SplitCons(parts[0], Join(parts[1..]));
    }
  }

  lemma SplitCons(head: string, rest: string)
    requires ',' !in head
    ensures Split(head + "," + rest, ',') == [head] + Split(rest, ',')
  {
    hide Split;
    HeadOf(head, rest);
    var s := head + "," + rest;
    forall i | 0 <= i < |head| ensures s[i] != ',' { assert s[i] == head[i]; }
    SplitAt(s, ',', |head|);
  }

  lemma {:induction false} DecimalParses(n: nat)
    ensures Digits(Decimal(n)) == n
  {
    if n >= 10 {
      DecimalParses(n / 10);
      var s := Decimal(n / 10);
      assert (s + [CharOf(n % 10)])[..|s|] == s;
    } else {
      assert [CharOf(n)][..0] == "";
    }
  }

  lemma IdRoundTrip(n: nat)
    requires n <= USIZE_MAX
    ensures ParseId(Decimal(n)) == Some(n)
  {
    DecimalParses(n);
    assert IsDigit(Decimal(n)[0]);
  }

  // ------------------------------------------------------------------ print and parse

  function RunText(r: Run): string {
    if r.lo == r.hi then Decimal(r.lo) else Decimal(r.lo) + "-" + Decimal(r.hi)
  }

  function Texts(rs: seq<Run>): (ts: seq<string>)
    ensures |ts| == |rs|
  {
    seq(|rs|, k requires 0 <= k < |rs| => RunText(rs[k]))
  }

  function Format(cpus: seq<nat>): string {
    Join(Texts(RunsFrom(SortedIds(cpus), 0)))
  }

  /** One comma-separated part: an id, or an ascending range of at most 4097 ids. */
  function ParsePart(part: string): Option<seq<nat>> {
    var k := Find(part, '-');
    if k == |part| then
      (match ParseId(part) case None => None case Some(n) => Some([n]))
    else
      match (ParseId(Trim(part[..k])), ParseId(Trim(part[k + 1..])))
      case (Some(a), Some(b)) => if b < a || b - a > MAX_SPAN then None else Some(Range(a, b))
      case _ => None
  }

  function ParseParts(parts: seq<string>): Option<seq<nat>> {
    if parts == [] then Some([])
    else
      var part := Trim(parts[|parts| - 1]);
      match ParseParts(parts[..|parts| - 1])
      case None => None
      case Some(v) =>
        if part == "" then Some(v)
        else match ParsePart(part)
          case None => None
          case Some(ids) => Some(v + ids)
  }

  function Parse(s: string): Option<seq<nat>> {
    match ParseParts(Split(Trim(s), ','))
    case None => None
    case Some(v) => Some(SortedIds(v))
  }

  // ------------------------------------------------------------------ the round trip

  ghost predicate Dense(s: string) {
    forall k :: 0 <= k < |s| ==> !IsSpace(s[k])
  }

  lemma TrimDense(s: string)
    requires Dense(s)
    ensures Trim(s) == s
  {
  }

  lemma DecimalPlain(n: nat)
    ensures Dense(Decimal(n)) && '-' !in Decimal(n) && ',' !in Decimal(n)
  {
  }

  /** A printed run reads back as its ids unless it is longer than the parser allows. */
  lemma RunRoundTrip(r: Run)
    requires r.lo <= r.hi <= USIZE_MAX
    ensures RunText(r) != "" && Dense(RunText(r)) && ',' !in RunText(r)
    ensures ParsePart(RunText(r)) == if r.hi - r.lo <= MAX_SPAN then Some(Range(r.lo, r.hi)) else None
  {
    DecimalPlain(r.lo);
    DecimalPlain(r.hi);
    IdRoundTrip(r.lo);
    IdRoundTrip(r.hi);
    hide Decimal, ParseId, Trim;
    if r.lo == r.hi {
      FindIs(Decimal(r.lo), '-', |Decimal(r.lo)|);
      assert Range(r.lo, r.hi) == [r.lo];
    } else {
      PairParts(Decimal(r.lo), Decimal(r.hi));
    }
  }

  /** Two plain ids around a dash are found again. */
  lemma PairParts(a: string, b: string)
    requires a != "" && b != "" && Dense(a) && Dense(b) && '-' !in a
    ensures var s := a + "-" + b;
            Dense(s) && Find(s, '-') == |a| && s[..|a|] == a && s[|a| + 1..] == b && Trim(a) == a && Trim(b) == b
  {
    var s := a + "-" + b;
    FindIs(s, '-', |a|);
    assert s[..|a|] == a && s[|a| + 1..] == b;
    TrimDense(a);
    TrimDense(b);
  }

  lemma {:induction false} ExpandSnoc(rs: seq<Run>)
    requires rs != [] && forall k :: 0 <= k < |rs| ==> rs[k].lo <= rs[k].hi
    ensures Expand(rs) == Expand(rs[..|rs| - 1]) + Range(rs[|rs| - 1].lo, rs[|rs| - 1].hi)
    decreases |rs|
  {
    if |rs| == 1 {
      assert rs[1..] == [] && rs[..0] == [];
    } else {
      ExpandSnoc(rs[1..]);
      assert rs[1..][..|rs| - 2] == rs[..|rs| - 1][1..];
      hide Range;
    }
  }

  ghost predicate Readable(rs: seq<Run>) {
    forall k :: 0 <= k < |rs| ==> rs[k].hi - rs[k].lo <= MAX_SPAN
  }

  lemma PartsNext(parts: seq<string>, text: string, before: Option<seq<nat>>, ids: Option<seq<nat>>)
    requires ParseParts(parts) == before && text != "" && Trim(text) == text && ParsePart(text) == ids
    ensures ParseParts(parts + [text])
         == if before.Some? && ids.Some? then Some(before.value + ids.value) else None
  {
    assert (parts + [text])[..|parts|] == parts;
    hide ParsePart, Trim;
  }

  /** The last run is read after the others. */
  lemma RunJoins(rs: seq<Run>)
    requires rs != [] && forall k :: 0 <= k < |rs| ==> rs[k].lo <= rs[k].hi <= USIZE_MAX
    requires var init := rs[..|rs| - 1]; ParseParts(Texts(init)) == if Readable(init) then Some(Expand(init)) else None
    ensures ParseParts(Texts(rs)) == if Readable(rs) then Some(Expand(rs)) else None
  {
    hide *;
    var n := |rs| - 1;
    RunRoundTrip(rs[n]);
    TrimDense(RunText(rs[n]));
    ExpandSnoc(rs);
    RunsSnoc(rs);
    PartsNext(Texts(rs[..n]), RunText(rs[n]), ParseParts(Texts(rs[..n])), ParsePart(RunText(rs[n])));
  }

  lemma {:induction false} PartsRoundTrip(rs: seq<Run>)
    requires forall k :: 0 <= k < |rs| ==> rs[k].lo <= rs[k].hi <= USIZE_MAX
    ensures ParseParts(Texts(rs)) == if Readable(rs) then Some(Expand(rs)) else None
    decreases |rs|
  {
    if rs != [] {
      hide *;
      PartsRoundTrip(rs[..|rs| - 1]);
      RunJoins(rs);
    } else {
      assert Texts(rs) == [];
    }
  }

  lemma RunsSnoc(rs: seq<Run>)
    requires rs != [] && forall k :: 0 <= k < |rs| ==> rs[k].lo <= rs[k].hi
    ensures var n := |rs| - 1;
            && Texts(rs) == Texts(rs[..n]) + [RunText(rs[n])]
            && (Readable(rs) <==> Readable(rs[..n]) && rs[n].hi - rs[n].lo <= MAX_SPAN)
  {
  }

  lemma {:induction false} JoinDense(parts: seq<string>)
    requires forall k :: 0 <= k < |parts| ==> Dense(parts[k])
    ensures Dense(Join(parts))
    decreases |parts|
  {
    if |parts| > 1 {
      JoinDense(parts[1..]);
    }
  }

  lemma TextsPlain(rs: seq<Run>)
    requires forall k :: 0 <= k < |rs| ==> rs[k].lo <= rs[k].hi <= USIZE_MAX
    ensures forall k :: 0 <= k < |rs| ==> ',' !in Texts(rs)[k]
    ensures Trim(Join(Texts(rs))) == Join(Texts(rs))
  {
    forall k | 0 <= k < |rs| ensures Dense(Texts(rs)[k]) && ',' !in Texts(rs)[k] { RunRoundTrip(rs[k]); }
    hide Dense, RunText;
    JoinDense(Texts(rs));
    TrimDense(Join(Texts(rs)));
  }

  lemma PrintedRuns(cpus: seq<nat>)
    requires forall k :: 0 <= k < |cpus| ==> cpus[k] <= USIZE_MAX
    ensures Increasing(SortedIds(cpus))
    ensures var rs := RunsFrom(SortedIds(cpus), 0);
            && (forall k :: 0 <= k < |rs| ==> rs[k].lo <= rs[k].hi <= USIZE_MAX)
            && Expand(rs) == SortedIds(cpus)
  {
    var v := SortedIds(cpus);
    SortedIdsIs(cpus);
    RunsCover(v, 0);
    RunsInRange(v, 0);
    assert v[0..] == v && Ascending(RunsFrom(v, 0));
    forall y | y in v ensures y <= USIZE_MAX { assert y in cpus; }
    hide SortedIds, Increasing, RunsFrom, Expand;
  }

  /** Parsing a printed list gives back its sorted, duplicate-free ids exactly when no run of
      consecutive ids is longer than 4097; otherwise it is refused. */
  lemma RoundTrip(cpus: seq<nat>)
    requires forall k :: 0 <= k < |cpus| ==> cpus[k] <= USIZE_MAX
    ensures Parse(Format(cpus)) == if Readable(RunsFrom(SortedIds(cpus), 0)) then Some(SortedIds(cpus)) else None
  {
    PrintedRuns(cpus);
    SortedStays(SortedIds(cpus));
    var rs := RunsFrom(SortedIds(cpus), 0);
    hide SortedIds, Increasing, RunsFrom, Texts, Readable, Trim;
    TextsPlain(rs);
    PartsRoundTrip(rs);
    if rs == [] {
      NothingPrinted();
    } else {
      hide Expand, ParseParts, Split, Join;
      SplitJoin(Texts(rs));
    }
  }

  lemma NothingPrinted()
    ensures ParseParts(Split(Join(Texts([])), ',')) == Some([]) && Expand([]) == [] && Readable([])
  {
    assert Split("", ',') == [""];
    assert [""][..0] == [];
  }

  lemma {:induction false} RunsInRange(v: seq<nat>, i: nat)
    requires i <= |v|
    ensures forall k :: 0 <= k < |RunsFrom(v, i)| ==> RunsFrom(v, i)[k].hi in v
    decreases |v| - i
  {
    if i < |v| {
      var j := RunEnd(v, i);
      RunsInRange(v, j + 1);
      assert v[j] in v;
    }
  }

  // ------------------------------------------------------------------ the loops

  method FormatCpuList(cpus: seq<nat>) returns (s: string)
    ensures s == Format(cpus)
  {
    var v := SortedIds(cpus);
    SortedIdsIs(cpus);
    var out: seq<string> := [];
    var i := 0;
    hide SortedIds, Increasing, Texts, Decimal, RunsFrom, RunEnd;
    while i < |v|
      invariant 0 <= i <= |v|
      invariant Texts(RunsFrom(v, 0)) == out + Texts(RunsFrom(v, i))
    {
      var j := EndOfRun(v, i);
      NextRun(v, i, j);
      ghost var before, rest := out, Texts(RunsFrom(v, j + 1));
      out := out + [if j == i then Decimal(v[i]) else Decimal(v[i]) + "-" + Decimal(v[j])];
      assert out + rest == before + ([out[|before|]] + rest);
      i := j + 1;
    }
    NoRuns(v);
    assert out + [] == out;
    s := Join(out);
  }

  method EndOfRun(v: seq<nat>, i: nat) returns (j: nat)
    requires i < |v|
    ensures j == RunEnd(v, i)
  {
    j := i;
    while j + 1 < |v| && v[j + 1] == v[j] + 1
      invariant i <= j < |v| && RunEnd(v, i) == RunEnd(v, j)
    {
      j := j + 1;
    }
  }

  lemma NoRuns(v: seq<nat>)
    ensures Texts(RunsFrom(v, |v|)) == []
  {
  }

  lemma NextRun(v: seq<nat>, i: nat, j: nat)
    requires i <= j < |v| && j == RunEnd(v, i) && Increasing(v)
    ensures Texts(RunsFrom(v, i))
         == [if j == i then Decimal(v[i]) else Decimal(v[i]) + "-" + Decimal(v[j])] + Texts(RunsFrom(v, j + 1))
  {
    hide Increasing, Decimal, RunText, RunEnd, Texts;
    SameRunText(v, i, j);
    TextsCons(Run(v[i], v[j]), RunsFrom(v, j + 1));
  }

  lemma TextsCons(r: Run, rest: seq<Run>)
    ensures Texts([r] + rest) == [RunText(r)] + Texts(rest)
  {
  }

  lemma SameRunText(v: seq<nat>, i: nat, j: nat)
    requires i <= j < |v| && Increasing(v)
    ensures RunText(Run(v[i], v[j])) == if j == i then Decimal(v[i]) else Decimal(v[i]) + "-" + Decimal(v[j])
  {
  }

  // ------------------------------------------------------------------ what the parser accepts

  function Zeros(k: nat): (z: string)
    ensures |z| == k && forall i :: 0 <= i < k ==> z[i] == '0'
  {
    seq(k, i => '0')
  }

  /** The text is that number in decimal, with leading zeros and a plus sign allowed. */
  ghost predicate Spells(t: string, n: nat) {
    n <= USIZE_MAX && exists k: nat :: t == Zeros(k) + Decimal(n) || t == "+" + (Zeros(k) + Decimal(n))
  }

  lemma {:induction false} DigitsSpell(s: string) returns (k: nat)
    requires s != "" && forall i :: 0 <= i < |s| ==> IsDigit(s[i])
    ensures s == Zeros(k) + Decimal(Digits(s))
    decreases |s|
  {
    if |s| == 1 {
      k := 0;
      assert s[..0] == "" && Digits(s) == DigitOf(s[0]) && s == [s[0]] == Decimal(DigitOf(s[0]));
    } else {
      var init := s[..|s| - 1];
      var before := DigitsSpell(init);
      k := SpellNext(before, Digits(init), s[|s| - 1]);
      assert s == init + [s[|s| - 1]];
    }
  }

  lemma SpellNext(k: nat, m: nat, c: char) returns (k': nat)
    requires IsDigit(c)
    ensures Zeros(k) + Decimal(m) + [c] == Zeros(k') + Decimal(10 * m + DigitOf(c))
  {
    if m == 0 {
      k' := k + 1;
      assert Decimal(0) == "0" && Zeros(k') == Zeros(k) + "0";
      assert Decimal(DigitOf(c)) == [c];
    } else {
      k' := k;
      assert Decimal(10 * m + DigitOf(c)) == Decimal(m) + [c];
    }
  }

  lemma {:induction false} ZerosAdd(k: nat, s: string)
    requires forall i :: 0 <= i < |s| ==> IsDigit(s[i])
    ensures forall i :: 0 <= i < |Zeros(k) + s| ==> IsDigit((Zeros(k) + s)[i])
    ensures Digits(Zeros(k) + s) == Digits(s)
    decreases |s|
  {
    if s == "" {
      assert Zeros(k) + s == Zeros(k);
      NoValue(k);
    } else {
      var init := s[..|s| - 1];
      ZerosAdd(k, init);
      assert (Zeros(k) + s)[..k + |s| - 1] == Zeros(k) + init;
    }
  }

  lemma {:induction false} NoValue(k: nat)
    ensures Digits(Zeros(k)) == 0
  {
    if k > 0 {
      NoValue(k - 1);
      assert Zeros(k)[..k - 1] == Zeros(k - 1);
    }
  }

  /** A text is an id exactly if it spells it. */
  lemma ParseIdExactly(t: string, n: nat)
    ensures ParseId(t) == Some(n) <==> Spells(t, n)
  {
    hide Spells, ParseId;
    if ParseId(t) == Some(n) {
      ParsedSpells(t, n);
    }
    if Spells(t, n) {
      SpelledParses(t, n);
    }
  }

  lemma ParsedSpells(t: string, n: nat)
    requires ParseId(t) == Some(n)
    ensures Spells(t, n)
  {
    var u := Unsigned(t);
    assert u != "" && AllDigits(u) && Digits(u) == n <= USIZE_MAX;
    var k := DigitsSpell(u);
    hide Digits, Decimal, Zeros;
    assert t == u || t == "+" + u;
  }

  lemma SpelledParses(t: string, n: nat)
    requires Spells(t, n)
    ensures ParseId(t) == Some(n)
  {
    hide Zeros, Decimal, Digits, ParseId;
    var k: nat :| t == Zeros(k) + Decimal(n) || t == "+" + (Zeros(k) + Decimal(n));
    ZerosAdd(k, Decimal(n));
    DecimalParses(n);
    BodyParses(Zeros(k) + Decimal(n), n);
  }

  lemma BodyParses(body: string, n: nat)
    requires body != "" && (forall i :: 0 <= i < |body| ==> IsDigit(body[i])) && Digits(body) == n <= USIZE_MAX
    ensures ParseId(body) == Some(n) && ParseId("+" + body) == Some(n)
  {
    hide Digits;
    assert IsDigit(body[0]);
    assert ("+" + body)[1..] == body;
  }

  /** One part between commas: an id, or two ids around the first dash, at most 4096 apart. */
  ghost predicate PartMeans(part: string, ids: seq<nat>) {
    || (exists n: nat :: Spells(part, n) && ids == [n])
    || (exists left, right, a: nat, b: nat :: RangeMeans(part, left, right, a, b) && ids == Range(a, b))
  }

  ghost predicate RangeMeans(part: string, left: string, right: string, a: nat, b: nat) {
    && part == left + "-" + right && '-' !in left && Spells(Trim(left), a) && Spells(Trim(right), b) && a <= b <= a + 4096
  }

  lemma SpellsNoDash(t: string, n: nat)
    requires Spells(t, n)
    ensures '-' !in t
  {
    var k: nat :| t == Zeros(k) + Decimal(n) || t == "+" + (Zeros(k) + Decimal(n));
    ZerosAdd(k, Decimal(n));
  }

  /** A part is read exactly as it is meant. */
  lemma ParsePartExactly(part: string, ids: seq<nat>)
    ensures ParsePart(part) == Some(ids) <==> PartMeans(part, ids)
  {
    hide Spells, ParseId, Trim;
    var k := Find(part, '-');
    if k == |part| {
      PlainPart(part, ids);
    } else {
      DashedPart(part, ids, k);
    }
  }

  lemma PlainPart(part: string, ids: seq<nat>)
    requires Find(part, '-') == |part|
    ensures ParsePart(part) == Some(ids) <==> PartMeans(part, ids)
  {
    hide Spells, ParseId, Trim;
    forall n: nat ensures Spells(part, n) <==> ParseId(part) == Some(n) { ParseIdExactly(part, n); }
    forall left, right, a: nat, b: nat ensures !RangeMeans(part, left, right, a, b) {
      NoDashNoRange(part, left, right, a, b);
    }
    hide RangeMeans;
    assert ParsePart(part) == match ParseId(part) { case None => None case Some(n) => Some([n]) };
  }

  lemma NoDashNoRange(part: string, left: string, right: string, a: nat, b: nat)
    requires Find(part, '-') == |part|
    ensures !RangeMeans(part, left, right, a, b)
  {
    hide Spells, Trim, Find;
    DashIn(left, right);
  }

  lemma DashIn(left: string, right: string)
    ensures Find(left + "-" + right, '-') < |left + "-" + right|
  {
    assert (left + "-" + right)[|left|] == '-';
  }

  lemma DashedPart(part: string, ids: seq<nat>, k: nat)
    requires k == Find(part, '-') < |part|
    ensures ParsePart(part) == Some(ids) <==> PartMeans(part, ids)
  {
    hide Spells, RangeMeans, ParsePart;
    forall n: nat ensures !Spells(part, n) {
      if Spells(part, n) {
        SpellsNoDash(part, n);
        assert false;
      }
    }
    DashedRange(part, ids, k);
  }

  lemma DashedRange(part: string, ids: seq<nat>, k: nat)
    requires k == Find(part, '-') < |part|
    ensures ParsePart(part) == Some(ids)
       <==> exists left, right, a: nat, b: nat :: RangeMeans(part, left, right, a, b) && ids == Range(a, b)
  {
    hide ParsePart, RangeMeans, Find;
    RangeParses(part, k);
    var l, r := ParseId(Trim(part[..k])), ParseId(Trim(part[k + 1..]));
    forall left, right, a: nat, b: nat | RangeMeans(part, left, right, a, b) ensures l == Some(a) && r == Some(b) && a <= b <= a + 4096 {
      RangeSplits(part, k, left, right, a, b);
    }
    if l.Some? && r.Some? {
      RangeSplits(part, k, part[..k], part[k + 1..], l.value, r.value);
    }
    hide ParseId, Trim, Range;
  }

  lemma RangeParses(part: string, k: nat)
    requires k == Find(part, '-') < |part|
    ensures var l, r := ParseId(Trim(part[..k])), ParseId(Trim(part[k + 1..]));
            ParsePart(part) == if l.Some? && r.Some? && l.value <= r.value <= l.value + 4096 then Some(Range(l.value, r.value)) else None
  {
    hide ParseId, Trim, Range;
  }

  lemma RangeSplits(part: string, k: nat, left: string, right: string, a: nat, b: nat)
    requires k == Find(part, '-') < |part|
    ensures RangeMeans(part, left, right, a, b)
       <==> left == part[..k] && right == part[k + 1..] && ParseId(Trim(part[..k])) == Some(a) && ParseId(Trim(part[k + 1..])) == Some(b)
            && a <= b <= a + 4096
  {
    hide Spells, ParseId, Trim, Find;
    ParseIdExactly(Trim(part[..k]), a);
    ParseIdExactly(Trim(part[k + 1..]), b);
    DashAt(part, k, left, right);
  }

  lemma DashAt(part: string, k: nat, left: string, right: string)
    requires k == Find(part, '-') < |part|
    ensures part == left + "-" + right && '-' !in left <==> left == part[..k] && right == part[k + 1..]
  {
    hide Find;
    if part == left + "-" + right && '-' !in left {
      DashFound(left, right);
      Around(left, right);
    }
    CutAt(part, k);
  }

  lemma CutAt(part: string, k: nat)
    requires k == Find(part, '-') < |part|
    ensures part == part[..k] + "-" + part[k + 1..] && '-' !in part[..k]
  {
    hide Find;
    var left := part[..k];
    assert forall i :: 0 <= i < k ==> left[i] == part[i];
    CutsAt(part, k);
    assert [part[k]] == "-";
  }

  lemma CutsAt(s: string, k: nat)
    requires k < |s|
    ensures s == s[..k] + [s[k]] + s[k + 1..]
  {
  }

  lemma Around(left: string, right: string)
    ensures var s := left + "-" + right; |left| < |s| && s[..|left|] == left && s[|left| + 1..] == right
  {
  }

  lemma DashFound(left: string, right: string)
    requires '-' !in left
    ensures Find(left + "-" + right, '-') == |left|
  {
    FindIs(left + "-" + right, '-', |left|);
  }

  lemma PartExactly(part: string)
    ensures ParsePart(part).Some? <==> exists ids :: PartMeans(part, ids)
    ensures ParsePart(part).Some? ==> forall ids :: PartMeans(part, ids) <==> ids == ParsePart(part).value
  {
    hide ParsePart, PartMeans;
    forall ids ensures ParsePart(part) == Some(ids) <==> PartMeans(part, ids) { ParsePartExactly(part, ids); }
    if ParsePart(part).Some? {
      assert PartMeans(part, ParsePart(part).value);
    }
  }

  /** Trimming cuts the blanks off both ends and nothing else. */
  lemma TrimIs(s: string)
    ensures var t := Trim(s);
            && (exists a, b :: s == a + t + b && (forall i :: 0 <= i < |a| ==> IsSpace(a[i])) && forall i :: 0 <= i < |b| ==> IsSpace(b[i]))
            && (t != "" ==> !IsSpace(t[0]) && !IsSpace(t[|t| - 1]))
  {
    var a := TrimLeftIs(s);
    var b := TrimRightIs(TrimLeft(s));
    assert s == a + Trim(s) + b;
  }

  lemma {:induction false} TrimLeftIs(s: string) returns (a: string)
    ensures s == a + TrimLeft(s) && (forall i :: 0 <= i < |a| ==> IsSpace(a[i])) && (TrimLeft(s) != "" ==> !IsSpace(TrimLeft(s)[0]))
    decreases |s|
  {
    if s != "" && IsSpace(s[0]) {
      var rest := TrimLeftIs(s[1..]);
      a := [s[0]] + rest;
    } else {
      a := "";
    }
  }

  lemma {:induction false} TrimRightIs(s: string) returns (b: string)
    ensures s == TrimRight(s) + b && (forall i :: 0 <= i < |b| ==> IsSpace(b[i]))
    ensures TrimRight(s) != "" ==> !IsSpace(TrimRight(s)[|TrimRight(s)| - 1])
    decreases |s|
  {
    if s != "" && IsSpace(s[|s| - 1]) {
      var rest := TrimRightIs(s[..|s| - 1]);
      b := rest + [s[|s| - 1]];
    } else {
      b := "";
      assert s == s + "";
    }
  }

  /** The pieces hold no comma and joined with commas are the text. */
  lemma {:induction false} SplitIs(s: string)
    ensures Join(Split(s, ',')) == s && forall k :: 0 <= k < |Split(s, ',')| ==> ',' !in Split(s, ',')[k]
    decreases |s|
  {
    var k := Find(s, ',');
    hide Join;
    if k < |s| {
      SplitAt(s, ',', k);
      hide Find, Split;
      SplitIs(s[k + 1..]);
      JoinCons(s[..k], Split(s[k + 1..], ','));
      assert s == s[..k] + "," + s[k + 1..];
      assert ',' !in s[..k];
    } else {
      SplitWhole(s, ',');
      JoinOne(s);
      assert ',' !in s;
    }
  }

  lemma JoinCons(head: string, rest: seq<string>)
    requires rest != []
    ensures Join([head] + rest) == head + "," + Join(rest)
  {
  }

  lemma JoinOne(s: string)
    ensures Join([s]) == s
  {
  }

  /** A part between commas the parser takes, and an id that is in it. */
  ghost predicate Accepts(part: string) {
    Trim(part) == "" || exists ids :: PartMeans(Trim(part), ids)
  }

  ghost predicate Includes(part: string, x: nat) {
    Trim(part) != "" && exists ids :: PartMeans(Trim(part), ids) && x in ids
  }

  lemma PartTaken(part: string, x: nat)
    ensures Accepts(part) <==> Trim(part) == "" || ParsePart(Trim(part)).Some?
    ensures Accepts(part) ==> (Includes(part, x) <==> Trim(part) != "" && x in ParsePart(Trim(part)).value)
  {
    PartExactly(Trim(part));
    hide ParsePart, PartMeans, Trim;
  }

  lemma {:induction false} PartsExactly(parts: seq<string>, n: nat, x: nat)
    requires n <= |parts|
    ensures ParseParts(parts[..n]).Some? <==> forall k :: 0 <= k < n ==> Accepts(parts[k])
    ensures ParseParts(parts[..n]).Some? ==> (x in ParseParts(parts[..n]).value <==> exists k :: 0 <= k < n && Includes(parts[k], x))
    decreases n
  {
    hide ParsePart, Trim, Accepts, Includes;
    if n > 0 {
      PartsExactly(parts, n - 1, x);
      PartTaken(parts[n - 1], x);
      assert parts[..n][..n - 1] == parts[..n - 1] && parts[..n][n - 1] == parts[n - 1];
    }
  }

  /** A list of parts is accepted exactly if every part is, and means their union, sorted and without
      duplicates. */
  ghost predicate UnionOf(parts: seq<string>, r: Option<seq<nat>>, x: nat) {
    && (r.Some? <==> forall k :: 0 <= k < |parts| ==> Accepts(parts[k]))
    && (r.Some? ==> Increasing(r.value) && (x in r.value <==> exists k :: 0 <= k < |parts| && Includes(parts[k], x)))
  }

  lemma AllPartsExactly(parts: seq<string>, x: nat)
    ensures ParseParts(parts).None? ==> UnionOf(parts, None, x)
    ensures ParseParts(parts).Some? ==> UnionOf(parts, Some(SortedIds(ParseParts(parts).value)), x)
  {
    hide ParseParts, Accepts, Includes, SortedIds, Increasing;
    assert parts[..|parts|] == parts;
    PartsExactly(parts, |parts|, x);
    if ParseParts(parts).Some? {
      SortedIdsIs(ParseParts(parts).value);
    }
  }

  /** So is a text, cut at its commas. */
  lemma ParseIsUnion(s: string, x: nat)
    ensures UnionOf(Split(Trim(s), ','), Parse(s), x)
  {
    hide UnionOf, SortedIds;
    AllPartsExactly(Split(Trim(s), ','), x);
  }

  method ParseCpuList(s: string) returns (r: Option<seq<nat>>)
    ensures r == Parse(s)
  {
    hide Split, ParsePart, Trim;
    var parts := Split(Trim(s), ',');
    var v: seq<nat> := [];
    var k := 0;
    while k < |parts|
      invariant 0 <= k <= |parts|
      invariant ParseParts(parts[..k]) == Some(v)
    {
      var part := Trim(parts[k]);
      assert parts[..k + 1][..k] == parts[..k];
      if part != "" {
        match ParsePart(part) {
          case None =>
            RefusedStays(parts, k + 1, |parts|);
            assert parts[..|parts|] == parts;
            return None;
          case Some(ids) => v := v + ids;
        }
      }
      k := k + 1;
    }
    assert parts[..k] == parts;
    r := Some(SortedIds(v));
  }

  lemma {:induction false} RefusedStays(parts: seq<string>, k: nat, n: nat)
    requires k <= n <= |parts| && ParseParts(parts[..k]).None?
    ensures ParseParts(parts[..n]).None?
    decreases n
  {
    hide ParsePart, Trim;
    if k < n {
      RefusedStays(parts, k, n - 1);
      assert parts[..n][..n - 1] == parts[..n - 1];
    }
  }

  // ------------------------------------------------------------------ big cores

  function MaxMetric(ms: seq<(nat, nat)>): nat {
    if ms == [] then 0 else if ms[|ms| - 1].1 > MaxMetric(ms[..|ms| - 1]) then ms[|ms| - 1].1 else MaxMetric(ms[..|ms| - 1])
  }

  /** Ids whose metric reaches the cut, in order. */
  function AtLeast(ms: seq<(nat, nat)>, cut: nat): seq<nat> {
    if ms == [] then []
    else AtLeast(ms[..|ms| - 1], cut) + (if ms[|ms| - 1].1 >= cut then [ms[|ms| - 1].0] else [])
  }

  datatype Big = Big(cpus: seq<nat>, cut: nat, max: nat)

  function ClassifyBig(ms: seq<(nat, nat)>): Option<Big> {
    var max := MaxMetric(ms);
    if max == 0 then None
    else
      var cut := max - max / 10;
      var big := AtLeast(ms, cut);
      if big == [] || |big| == |ms| then None else Some(Big(big, cut, max))
  }

  /** The integer cut is exactly ninety percent of the maximum. */
  lemma CutIsNinetyPercent(m: nat, max: nat)
    ensures m >= max - max / 10 <==> 10 * m >= 9 * max
  {
  }

  lemma {:induction false} MaxIs(ms: seq<(nat, nat)>)
    ensures forall k :: 0 <= k < |ms| ==> ms[k].1 <= MaxMetric(ms)
    ensures ms != [] ==> exists k :: 0 <= k < |ms| && ms[k].1 == MaxMetric(ms)
  {
    if ms != [] {
      var n := |ms| - 1;
      MaxIs(ms[..n]);
      if ms[n].1 > MaxMetric(ms[..n]) || n == 0 {
        assert ms[n].1 == MaxMetric(ms);
      } else {
        var k :| 0 <= k < n && ms[..n][k].1 == MaxMetric(ms[..n]);
        assert ms[k].1 == MaxMetric(ms);
      }
    }
  }

  lemma AtLeastNext(ms: seq<(nat, nat)>, m: (nat, nat), cut: nat)
    ensures AtLeast(ms + [m], cut) == if m.1 >= cut then AtLeast(ms, cut) + [m.0] else AtLeast(ms, cut)
  {
    assert (ms + [m])[..|ms|] == ms;
  }

  ghost predicate AllReach(ms: seq<(nat, nat)>, cut: nat) {
    forall k :: 0 <= k < |ms| ==> ms[k].1 >= cut
  }

  ghost predicate NoneReach(ms: seq<(nat, nat)>, cut: nat) {
    forall k :: 0 <= k < |ms| ==> ms[k].1 < cut
  }

  lemma ReachNext(ms: seq<(nat, nat)>, m: (nat, nat), cut: nat)
    ensures AllReach(ms + [m], cut) <==> AllReach(ms, cut) && m.1 >= cut
    ensures NoneReach(ms + [m], cut) <==> NoneReach(ms, cut) && m.1 < cut
  {
    var all := ms + [m];
    assert all[|ms|] == m && forall k :: 0 <= k < |ms| ==> all[k] == ms[k];
  }

  lemma {:induction false} AtLeastCount(ms: seq<(nat, nat)>, cut: nat)
    ensures |AtLeast(ms, cut)| <= |ms|
    ensures |AtLeast(ms, cut)| == |ms| <==> AllReach(ms, cut)
    ensures AtLeast(ms, cut) == [] <==> NoneReach(ms, cut)
    decreases |ms|
  {
    if ms != [] {
      hide *;
      var init, last := ms[..|ms| - 1], ms[|ms| - 1];
      AtLeastCount(init, cut);
      AtLeastNext(init, last, cut);
      ReachNext(init, last, cut);
      assert ms == init + [last];
    }
  }

  /** Some cores are big exactly when the best is nonzero and another falls below ninety percent. */
  lemma BigExactly(ms: seq<(nat, nat)>)
    ensures ClassifyBig(ms).Some? <==> MaxMetric(ms) > 0 && exists k :: 0 <= k < |ms| && 10 * ms[k].1 < 9 * MaxMetric(ms)
    ensures ClassifyBig(ms).Some? ==> 0 < |ClassifyBig(ms).value.cpus| < |ms|
  {
    var max := MaxMetric(ms);
    var cut := max - max / 10;
    MaxIs(ms);
    AtLeastCount(ms, cut);
    forall k | 0 <= k < |ms| ensures ms[k].1 >= cut <==> 10 * ms[k].1 >= 9 * max { CutIsNinetyPercent(ms[k].1, max); }
    if max > 0 {
      var k :| 0 <= k < |ms| && ms[k].1 == max;
      assert ms[k].1 >= cut;
    }
  }
}
