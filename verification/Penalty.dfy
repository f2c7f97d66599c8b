// The penalty tables of the verify pass: one deduplicated (token, count) table per column,
// filled from the lane's history (column 0) and then extended draft by draft.

module Penalty {
  import opened Wrappers
  import opened Trunk

  const MAX_PEN_TOKENS: nat := 64
  const MAX_VERIFY: nat := 16

  datatype Entry = Entry(tok: Token, count: nat)

  /** Index of `t` in a table, or its length. */
  function Find(e: seq<Entry>, t: Token): (j: nat)
    ensures j <= |e|
    ensures j < |e| ==> e[j].tok == t
    ensures forall i :: 0 <= i < j ==> e[i].tok != t
  {
    if e == [] then 0 else if e[0].tok == t then 0 else 1 + Find(e[1..], t)
  }

  /** Count one more occurrence of `t`; a new token is dropped when the table is full. */
  function Push(e: seq<Entry>, t: Token): seq<Entry> {
    var j := Find(e, t);
    if j < |e| then e[j := Entry(t, e[j].count + 1)]
    else if |e| < MAX_PEN_TOKENS then e + [Entry(t, 1)]
    else e
  }

  function PushAll(e: seq<Entry>, ts: seq<Token>): seq<Entry> {
    if ts == [] then e else Push(PushAll(e, ts[..|ts| - 1]), ts[|ts| - 1])
  }

  /** Most recent first, at most MAX_PEN_TOKENS of them. */
  function Recent(history: seq<Token>): (r: seq<Token>)
    ensures |r| == Min(|history|, MAX_PEN_TOKENS)
    ensures forall i :: 0 <= i < |r| ==> r[i] == history[|history| - 1 - i]
  {
    seq(Min(|history|, MAX_PEN_TOKENS), i requires 0 <= i < |history| => history[|history| - 1 - i])
  }

  /** The table plain decode applies before choosing the token after `history`. */
  function DecodeTable(history: seq<Token>): seq<Entry> {
    PushAll([], Recent(history))
  }

  /** What the kernel sees: order does not matter, only how often each token is listed. */
  function Meaning(e: seq<Entry>): multiset<Token> {
    if e == [] then multiset{}
    else Meaning(e[..|e| - 1]) + multiset{}[e[|e| - 1].tok := e[|e| - 1].count]
  }

  ghost predicate Proper(e: seq<Entry>) {
    && (forall i :: 0 <= i < |e| ==> e[i].count > 0)
    && (forall i, j :: 0 <= i < j < |e| ==> e[i].tok != e[j].tok)
  }

  // ------------------------------------------------------------------ facts about tables

  lemma MeaningSnoc(e: seq<Entry>, x: Entry)
    ensures Meaning(e + [x]) == Meaning(e) + multiset{}[x.tok := x.count]
  {
    assert (e + [x])[..|e|] == e;
  }

  lemma {:induction false} MeaningBump(e: seq<Entry>, j: nat)
    requires j < |e|
    ensures Meaning(e[j := Entry(e[j].tok, e[j].count + 1)]) == Meaning(e) + multiset{e[j].tok}
  {
    hide Meaning;
    var init, x, b := e[..|e| - 1], e[|e| - 1], Entry(e[j].tok, e[j].count + 1);
    assert e == init + [x];
    MeaningSnoc(init, x);
    if j < |init| {
      assert e[j := b] == init[j := b] + [x];
      MeaningSnoc(init[j := b], x);
      MeaningBump(init, j);
    } else {
      assert e[j := b] == init + [b];
      MeaningSnoc(init, b);
      OneMore(x.tok, x.count);
    }
  }

  lemma OneMore(t: Token, n: nat)
    ensures multiset{}[t := n + 1] == multiset{}[t := n] + multiset{t}
  {
  }

  lemma {:induction false} MeaningMember(e: seq<Entry>, t: Token)
    requires Proper(e)
    ensures t in Meaning(e) <==> exists i :: 0 <= i < |e| && e[i].tok == t
  {
    if e != [] {
      MeaningMember(e[..|e| - 1], t);
      assert forall i :: 0 <= i < |e| - 1 ==> e[..|e| - 1][i] == e[i];
    }
  }

  lemma Listed(e: seq<Entry>, t: Token)
    requires Proper(e)
    ensures t in Meaning(e) <==> Find(e, t) < |e|
  {
    MeaningMember(e, t);
    hide Meaning, Proper;
  }

  lemma PushListed(e: seq<Entry>, t: Token)
    requires Find(e, t) < |e|
    ensures Meaning(Push(e, t)) == Meaning(e) + multiset{t}
  {
    hide Meaning;
    MeaningBump(e, Find(e, t));
  }

  lemma PushNew(e: seq<Entry>, t: Token)
    requires Find(e, t) == |e| < MAX_PEN_TOKENS
    ensures Meaning(Push(e, t)) == Meaning(e) + multiset{t}
  {
    hide Meaning;
    MeaningSnoc(e, Entry(t, 1));
    OneMore(t, 0);
  }

  lemma PushMeaning(e: seq<Entry>, t: Token)
    requires Proper(e)
    ensures Proper(Push(e, t)) && |e| <= |Push(e, t)|
    ensures t in Meaning(e) || |e| < MAX_PEN_TOKENS ==> Meaning(Push(e, t)) == Meaning(e) + multiset{t}
    ensures t !in Meaning(e) && |e| >= MAX_PEN_TOKENS ==> Push(e, t) == e
  {
    hide Meaning, Proper;
    Listed(e, t);
    PushProper(e, t);
    if Find(e, t) < |e| {
      hide Push;
      PushListed(e, t);
    } else if |e| < MAX_PEN_TOKENS {
      hide Push;
      PushNew(e, t);
    }
  }

  lemma PushProper(e: seq<Entry>, t: Token)
    requires Proper(e)
    ensures Proper(Push(e, t)) && |e| <= |Push(e, t)|
  {
  }

  lemma {:induction false} PushAllProper(e: seq<Entry>, ts: seq<Token>)
    requires Proper(e)
    ensures Proper(PushAll(e, ts))
    ensures |e| <= |PushAll(e, ts)| <= |e| + |ts|
  {
    if ts != [] {
      var init := ts[..|ts| - 1];
      PushAllProper(e, init);
      PushMeaning(PushAll(e, init), ts[|ts| - 1]);
    }
  }

  /** While there is room for every token, nothing is dropped. */
  lemma {:induction false} PushAllRoom(e: seq<Entry>, ts: seq<Token>)
    requires Proper(e) && |e| + |ts| <= MAX_PEN_TOKENS
    ensures Meaning(PushAll(e, ts)) == Meaning(e) + multiset(ts)
  {
    if ts == [] {
      assert multiset(ts) == multiset{};
    } else {
      var init, last := ts[..|ts| - 1], ts[|ts| - 1];
      hide *;
      assert ts == init + [last];
      PushAllRoom(e, init);
      RoomNext(e, init, last);
    }
  }

  lemma RoomNext(e: seq<Entry>, ts: seq<Token>, t: Token)
    requires Proper(e) && |e| + |ts| < MAX_PEN_TOKENS && Meaning(PushAll(e, ts)) == Meaning(e) + multiset(ts)
    ensures Meaning(PushAll(e, ts + [t])) == Meaning(e) + multiset(ts + [t])
  {
    hide *;
    PushAllProper(e, ts);
    PushMeaning(PushAll(e, ts), t);
    PushAllSnoc(e, ts, t);
    MultisetSnoc(Meaning(e), ts, t);
  }

  lemma MultisetSnoc(m: multiset<Token>, ts: seq<Token>, t: Token)
    ensures m + multiset(ts) + multiset{t} == m + multiset(ts + [t])
  {
    assert multiset(ts + [t]) == multiset(ts) + multiset{t};
  }

  lemma StaysMissing(m: multiset<Token>, t: Token, last: Token)
    requires t !in m && last in m
    ensures t !in m + multiset{last}
  {
  }

  lemma PushAllSnoc(e: seq<Entry>, ts: seq<Token>, t: Token)
    ensures PushAll(e, ts + [t]) == Push(PushAll(e, ts), t)
  {
    assert (ts + [t])[..|ts|] == ts;
  }

  lemma PushAllNone(e: seq<Entry>)
    ensures PushAll(e, []) == e
  {
  }

  /** Either nothing is dropped, or some pushed token is missing from the result for good. */
  lemma {:induction false} PushAllOrDropped(e: seq<Entry>, ts: seq<Token>)
    requires Proper(e)
    ensures Meaning(PushAll(e, ts)) == Meaning(e) + multiset(ts)
         || (|PushAll(e, ts)| >= MAX_PEN_TOKENS && exists t :: t in ts && t !in Meaning(PushAll(e, ts)))
  {
    if ts == [] {
      assert multiset(ts) == multiset{};
    } else {
      var init, last := ts[..|ts| - 1], ts[|ts| - 1];
      hide *;
      assert ts == init + [last];
      PushAllOrDropped(e, init);
      if Meaning(PushAll(e, init)) == Meaning(e) + multiset(init) {
        SumNext(e, init, last);
      } else {
        var t :| t in init && t !in Meaning(PushAll(e, init));
        DroppedNext(e, init, last, t);
        assert t in ts;
      }
    }
  }

  /** Where nothing was dropped so far, the next token is counted or finds the table full. */
  lemma SumNext(e: seq<Entry>, ts: seq<Token>, t: Token)
    requires Proper(e) && Meaning(PushAll(e, ts)) == Meaning(e) + multiset(ts)
    ensures var r := PushAll(e, ts + [t]);
            Meaning(r) == Meaning(e) + multiset(ts + [t]) || (|r| >= MAX_PEN_TOKENS && t in ts + [t] && t !in Meaning(r))
  {
    hide *;
    PushAllProper(e, ts);
    PushMeaning(PushAll(e, ts), t);
    PushAllSnoc(e, ts, t);
    MultisetSnoc(Meaning(e), ts, t);
    assert (ts + [t])[|ts|] == t;
  }

  /** A token missing from a full table stays missing. */
  lemma DroppedNext(e: seq<Entry>, ts: seq<Token>, last: Token, t: Token)
    requires Proper(e) && |PushAll(e, ts)| >= MAX_PEN_TOKENS && t !in Meaning(PushAll(e, ts))
    ensures |PushAll(e, ts + [last])| >= MAX_PEN_TOKENS && t !in Meaning(PushAll(e, ts + [last]))
  {
    hide *;
    PushAllProper(e, ts);
    PushMeaning(PushAll(e, ts), last);
    PushAllSnoc(e, ts, last);
    if last in Meaning(PushAll(e, ts)) {
      StaysMissing(Meaning(PushAll(e, ts)), t, last);
    }
  }

  lemma DecodeTableMeaning(history: seq<Token>)
    ensures Proper(DecodeTable(history)) && |DecodeTable(history)| <= MAX_PEN_TOKENS
    ensures Meaning(DecodeTable(history)) == multiset(Recent(history))
  {
    PushAllProper([], Recent(history));
    PushAllRoom([], Recent(history));
  }

  lemma RecentWhole(history: seq<Token>)
    requires |history| <= MAX_PEN_TOKENS
    ensures multiset(Recent(history)) == multiset(history)
    decreases |history|
  {
    if history != [] {
      var n := |history|;
      RecentWhole(history[..n - 1]);
      assert Recent(history) == [history[n - 1]] + Recent(history[..n - 1]);
      assert history == history[..n - 1] + [history[n - 1]];
    }
  }

  // ------------------------------------------------------------------ the main result

  lemma ColumnInsideWindow(history: seq<Token>, drafts: seq<Token>)
    requires |history| + |drafts| <= MAX_PEN_TOKENS
    ensures Meaning(PushAll(DecodeTable(history), drafts)) == Meaning(DecodeTable(history + drafts))
  {
    DecodeTableMeaning(history);
    DecodeTableMeaning(history + drafts);
    PushAllProper([], Recent(history));
    PushAllRoom(DecodeTable(history), drafts);
    RecentWhole(history);
    RecentWhole(history + drafts);
  }

  lemma RecentSeesDrafts(history: seq<Token>, drafts: seq<Token>, t: Token)
    requires t in drafts && |drafts| <= MAX_PEN_TOKENS
    ensures t in multiset(Recent(history + drafts))
  {
    var i :| 0 <= i < |drafts| && drafts[i] == t;
    assert Recent(history + drafts)[|drafts| - 1 - i] == t;
  }

  lemma ColumnOutsideWindow(history: seq<Token>, drafts: seq<Token>)
    requires drafts != [] && |drafts| <= MAX_PEN_TOKENS < |history| + |drafts|
    ensures Meaning(PushAll(DecodeTable(history), drafts)) != Meaning(DecodeTable(history + drafts))
  {
    var e := DecodeTable(history);
    var col := Meaning(PushAll(e, drafts));
    DecodeTableMeaning(history);
    DecodeTableMeaning(history + drafts);
    var plain := multiset(Recent(history + drafts));
    PushAllOrDropped(e, drafts);
    if col == Meaning(e) + multiset(drafts) {
      assert |col| > |plain|;
    } else {
      var t :| t in drafts && t !in col;
      RecentSeesDrafts(history, drafts, t);
    }
  }

  /** Verify column t (history plus the first t drafts) carries the table plain decode would
      use there exactly when no draft is involved or the history has not outgrown the window. */
  lemma ColumnMatchesDecode(history: seq<Token>, drafts: seq<Token>)
    requires |drafts| <= MAX_PEN_TOKENS
    ensures Meaning(PushAll(DecodeTable(history), drafts)) == Meaning(DecodeTable(history + drafts))
       <==> drafts == [] || |history| + |drafts| <= MAX_PEN_TOKENS
  {
    if drafts == [] {
      assert history + drafts == history;
    } else if |history| + |drafts| <= MAX_PEN_TOKENS {
      ColumnInsideWindow(history, drafts);
    } else {
      ColumnOutsideWindow(history, drafts);
    }
  }

  // ------------------------------------------------------------------ the code

  /** One 64-cell column of the host buffers holds table `e`, padded with the -1 sentinel. */
  ghost predicate Holds(tokens: seq<int>, counts: seq<int>, e: seq<Entry>) {
    && |e| <= |tokens| == |counts| == MAX_PEN_TOKENS
    && (forall i :: 0 <= i < MAX_PEN_TOKENS ==>
          && tokens[i] == (if i < |e| then e[i].tok else -1)
          && counts[i] == (if i < |e| then e[i].count else 0))
  }

  /** Column `c` of a flat buffer of MAX_VERIFY columns. */
  function Col(buf: seq<int>, c: nat): seq<int>
    requires c < MAX_VERIFY && |buf| == MAX_VERIFY * MAX_PEN_TOKENS
  {
    buf[c * MAX_PEN_TOKENS..(c + 1) * MAX_PEN_TOKENS]
  }

  lemma FindIs(e: seq<Entry>, t: Token, j: nat)
    requires j <= |e| && (j < |e| ==> e[j].tok == t) && forall i :: 0 <= i < j ==> e[i].tok != t
    ensures Find(e, t) == j
  {
  }

  lemma CellHolds(tokens: seq<int>, counts: seq<int>, c: nat, e: seq<Entry>, j: nat)
    requires |tokens| == |counts| == MAX_VERIFY * MAX_PEN_TOKENS && c < MAX_VERIFY && j < |e|
    requires Holds(Col(tokens, c), Col(counts, c), e)
    ensures c * MAX_PEN_TOKENS + j < |tokens|
    ensures tokens[c * MAX_PEN_TOKENS + j] == e[j].tok && counts[c * MAX_PEN_TOKENS + j] == e[j].count
  {
    assert Col(tokens, c)[j] == tokens[c * MAX_PEN_TOKENS + j];
    assert Col(counts, c)[j] == counts[c * MAX_PEN_TOKENS + j];
  }

  lemma HoldsSize(tokens: seq<int>, counts: seq<int>, e: seq<Entry>)
    requires Holds(tokens, counts, e)
    ensures |e| <= |tokens| == |counts| == MAX_PEN_TOKENS
  {
  }

  lemma ColUpdate(buf: seq<int>, c: nat, j: nat, v: int)
    requires |buf| == MAX_VERIFY * MAX_PEN_TOKENS && c < MAX_VERIFY && j < MAX_PEN_TOKENS
    ensures |Col(buf, c)| == MAX_PEN_TOKENS
    ensures Col(buf[c * MAX_PEN_TOKENS + j := v], c) == Col(buf, c)[j := v]
    ensures forall k :: 0 <= k < MAX_VERIFY && k != c ==> Col(buf[c * MAX_PEN_TOKENS + j := v], k) == Col(buf, k)
  {
  }

  lemma HoldsBump(tokens: seq<int>, counts: seq<int>, e: seq<Entry>, t: Token)
    requires Holds(tokens, counts, e) && Find(e, t) < |e|
    ensures Holds(tokens, counts[Find(e, t) := e[Find(e, t)].count + 1], Push(e, t)) && |Push(e, t)| == |e|
  {
  }

  lemma HoldsAppend(tokens: seq<int>, counts: seq<int>, e: seq<Entry>, t: Token)
    requires Holds(tokens, counts, e) && Find(e, t) == |e|
    ensures |e| < MAX_PEN_TOKENS ==> Holds(tokens[|e| := t], counts[|e| := 1], Push(e, t)) && |Push(e, t)| == |e| + 1
    ensures |e| >= MAX_PEN_TOKENS ==> Push(e, t) == e
  {
  }

  /** The cell of column `c` that lists `t`, or one past the last. */
  method FindCell(tokens: array<int>, counts: array<int>, c: nat, idx: nat, t: Token, ghost e: seq<Entry>) returns (j: nat)
    requires tokens.Length == counts.Length == MAX_VERIFY * MAX_PEN_TOKENS && c < MAX_VERIFY
    requires Holds(Col(tokens[..], c), Col(counts[..], c), e) && idx == |e|
    ensures j == Find(e, t)
  {
    ghost var ts, ks := tokens[..], counts[..];
    HoldsSize(Col(ts, c), Col(ks, c), e);
    hide Holds, Col;
    j := 0;
    while j < idx && tokens[c * MAX_PEN_TOKENS + j] != t
      invariant 0 <= j <= idx <= MAX_PEN_TOKENS
      invariant forall i :: 0 <= i < j ==> e[i].tok != t
    {
      CellHolds(ts, ks, c, e, j);
      j := j + 1;
    }
    FindIs(e, t, j) by { if j < idx { CellHolds(ts, ks, c, e, j); } }
  }

  method BumpCell(tokens: array<int>, counts: array<int>, c: nat, j: nat, t: Token, ghost e: seq<Entry>)
    requires tokens != counts && tokens.Length == counts.Length == MAX_VERIFY * MAX_PEN_TOKENS && c < MAX_VERIFY
    requires Holds(Col(tokens[..], c), Col(counts[..], c), e) && j == Find(e, t) < |e|
    modifies counts
    ensures Holds(Col(tokens[..], c), Col(counts[..], c), Push(e, t)) && |Push(e, t)| == |e|
    ensures forall k :: 0 <= k < MAX_VERIFY && k != c ==> Col(counts[..], k) == Col(old(counts[..]), k)
  {
    ghost var ts, ks := tokens[..], counts[..];
    var at := c * MAX_PEN_TOKENS + j;
    HoldsSize(Col(ts, c), Col(ks, c), e);
    CellHolds(ts, ks, c, e, j);
    HoldsBump(Col(ts, c), Col(ks, c), e, t);
    ColUpdate(ks, c, j, ks[at] + 1);
    hide Holds, Col, Push;
    counts[at] := counts[at] + 1;
    assert counts[..] == ks[at := ks[at] + 1];
  }

  method AppendCell(tokens: array<int>, counts: array<int>, c: nat, idx: nat, t: Token, ghost e: seq<Entry>)
    requires tokens != counts && tokens.Length == counts.Length == MAX_VERIFY * MAX_PEN_TOKENS && c < MAX_VERIFY
    requires Holds(Col(tokens[..], c), Col(counts[..], c), e) && idx == Find(e, t) == |e| < MAX_PEN_TOKENS
    modifies tokens, counts
    ensures Holds(Col(tokens[..], c), Col(counts[..], c), Push(e, t)) && |Push(e, t)| == |e| + 1
    ensures forall k :: 0 <= k < MAX_VERIFY && k != c ==>
              Col(tokens[..], k) == Col(old(tokens[..]), k) && Col(counts[..], k) == Col(old(counts[..]), k)
  {
    ghost var ts, ks := tokens[..], counts[..];
    var at := c * MAX_PEN_TOKENS + idx;
    HoldsAppend(Col(ts, c), Col(ks, c), e, t);
    ColUpdate(ts, c, idx, t);
    ColUpdate(ks, c, idx, 1);
    hide Holds, Col, Push;
    tokens[at], counts[at] := t, 1;
    assert tokens[..] == ts[at := t] && counts[..] == ks[at := 1];
  }

  /** Bump `t` in column `c`, or append it while there is room. */
  method Record(tokens: array<int>, counts: array<int>, c: nat, idx: nat, t: Token, ghost e: seq<Entry>)
    returns (idx': nat)
    requires tokens != counts && tokens.Length == counts.Length == MAX_VERIFY * MAX_PEN_TOKENS && c < MAX_VERIFY
    requires Holds(Col(tokens[..], c), Col(counts[..], c), e) && idx == |e|
    modifies tokens, counts
    ensures Holds(Col(tokens[..], c), Col(counts[..], c), Push(e, t)) && idx' == |Push(e, t)|
    ensures forall k :: 0 <= k < MAX_VERIFY && k != c ==>
              Col(tokens[..], k) == Col(old(tokens[..]), k) && Col(counts[..], k) == Col(old(counts[..]), k)
  {
    hide Holds, Col;
    var j := FindCell(tokens, counts, c, idx, t, e);
    idx' := idx;
    if j < idx {
      BumpCell(tokens, counts, c, j, t, e);
    } else if idx < MAX_PEN_TOKENS {
      AppendCell(tokens, counts, c, idx, t, e);
      idx' := idx + 1;
    }
  }

  /** Column fill shared by the batched decode and by verify column 0. */
  method FillColumn(tokens: array<int>, counts: array<int>, c: nat, history: seq<Token>) returns (idx: nat)
    requires tokens != counts && tokens.Length == counts.Length == MAX_VERIFY * MAX_PEN_TOKENS && c < MAX_VERIFY
    requires Holds(Col(tokens[..], c), Col(counts[..], c), [])
    modifies tokens, counts
    ensures Holds(Col(tokens[..], c), Col(counts[..], c), DecodeTable(history)) && idx == |DecodeTable(history)|
    ensures forall k :: 0 <= k < MAX_VERIFY && k != c ==>
              Col(tokens[..], k) == old(Col(tokens[..], k)) && Col(counts[..], k) == old(Col(counts[..], k))
  {
    hide Holds, Col, Push, PushAll;
    idx := 0;
    ghost var r := Recent(history);
    var i := 0;
    assert r[..0] == [];
    PushAllNone([]);
    while i < |history| && i < MAX_PEN_TOKENS
      invariant 0 <= i <= |r|
      invariant Holds(Col(tokens[..], c), Col(counts[..], c), PushAll([], r[..i])) && idx == |PushAll([], r[..i])|
      invariant forall k :: 0 <= k < MAX_VERIFY && k != c ==>
                  Col(tokens[..], k) == old(Col(tokens[..], k)) && Col(counts[..], k) == old(Col(counts[..], k))
    {
      assert r[..i + 1] == r[..i] + [r[i]];
      PushAllSnoc([], r[..i], r[i]);
      idx := Record(tokens, counts, c, idx, history[|history| - 1 - i], PushAll([], r[..i]));
      i := i + 1;
    }
    assert r[..i] == r;
  }

  /** The table each of the MAX_VERIFY columns must hold. */
  function Column(history: seq<Token>, drafts: seq<Token>, c: nat): seq<Entry> {
    PushAll(DecodeTable(history), drafts[..Min(c, Min(|drafts|, MAX_VERIFY - 1))])
  }

  method CopyColumn(tokens: array<int>, counts: array<int>, src: nat, dst: nat)
    requires tokens != counts && tokens.Length == counts.Length == MAX_VERIFY * MAX_PEN_TOKENS
    requires src < dst < MAX_VERIFY
    modifies tokens, counts
    ensures Col(tokens[..], dst) == old(Col(tokens[..], src)) && Col(counts[..], dst) == old(Col(counts[..], src))
    ensures forall k :: 0 <= k < MAX_VERIFY && k != dst ==>
              Col(tokens[..], k) == old(Col(tokens[..], k)) && Col(counts[..], k) == old(Col(counts[..], k))
  {
    hide Col;
    ghost var ts, ks := tokens[..], counts[..];
    var s, d := src * MAX_PEN_TOKENS, dst * MAX_PEN_TOKENS;
    forall i | 0 <= i < MAX_PEN_TOKENS { tokens[d + i] := tokens[s + i]; }
    forall i | 0 <= i < MAX_PEN_TOKENS { counts[d + i] := counts[s + i]; }
    ColCopied(ts, tokens[..], src, dst);
    ColCopied(ks, counts[..], src, dst);
  }

  lemma ColCopied(buf: seq<int>, buf': seq<int>, src: nat, dst: nat)
    requires |buf| == |buf'| == MAX_VERIFY * MAX_PEN_TOKENS && src < dst < MAX_VERIFY
    requires forall i :: dst * MAX_PEN_TOKENS <= i < (dst + 1) * MAX_PEN_TOKENS ==> buf'[i] == buf[i - (dst - src) * MAX_PEN_TOKENS]
    requires forall i :: 0 <= i < dst * MAX_PEN_TOKENS || (dst + 1) * MAX_PEN_TOKENS <= i < |buf| ==> buf'[i] == buf[i]
    ensures Col(buf', dst) == Col(buf, src)
    ensures forall k :: 0 <= k < MAX_VERIFY && k != dst ==> Col(buf', k) == Col(buf, k)
  {
    forall j: nat | j < MAX_PEN_TOKENS ensures Col(buf', dst)[j] == Col(buf, src)[j] {
      assert Col(buf', dst)[j] == buf'[dst * MAX_PEN_TOKENS + j];
    }
    forall k: nat | k < MAX_VERIFY && k != dst ensures Col(buf', k) == Col(buf, k) {
      assert k < dst || (dst + 1) * MAX_PEN_TOKENS <= k * MAX_PEN_TOKENS;
    }
  }

  lemma ColumnNext(history: seq<Token>, drafts: seq<Token>, c: nat)
    requires 0 < c < MAX_VERIFY && c <= |drafts|
    ensures Column(history, drafts, c) == Push(Column(history, drafts, c - 1), drafts[c - 1])
  {
    assert drafts[..c][..c - 1] == drafts[..c - 1];
  }

  lemma ColumnLast(history: seq<Token>, drafts: seq<Token>, n: nat, c: nat)
    requires n == Min(|drafts| + 1, MAX_VERIFY) && n <= c
    ensures Column(history, drafts, c) == Column(history, drafts, n - 1)
    ensures Column(history, drafts, 0) == DecodeTable(history)
  {
    assert drafts[..0] == [];
  }

  /** Column `c` is column `c - 1` with one more draft recorded. */
  method ExtendColumn(tokens: array<int>, counts: array<int>, c: nat, idx: nat, t: Token, ghost e: seq<Entry>)
    returns (idx': nat)
    requires tokens != counts && tokens.Length == counts.Length == MAX_VERIFY * MAX_PEN_TOKENS && 0 < c < MAX_VERIFY
    requires Holds(Col(tokens[..], c - 1), Col(counts[..], c - 1), e) && idx == |e|
    modifies tokens, counts
    ensures Holds(Col(tokens[..], c), Col(counts[..], c), Push(e, t)) && idx' == |Push(e, t)|
    ensures forall k :: 0 <= k < MAX_VERIFY && k != c ==>
              Col(tokens[..], k) == old(Col(tokens[..], k)) && Col(counts[..], k) == old(Col(counts[..], k))
  {
    hide Holds, Col, Push;
    CopyColumn(tokens, counts, c - 1, c);
    idx' := Record(tokens, counts, c, idx, t, e);
  }

  /** The first `n` columns hold their tables. */
  ghost predicate Filled(tokens: seq<int>, counts: seq<int>, history: seq<Token>, drafts: seq<Token>, n: nat)
    requires n <= MAX_VERIFY && |tokens| == |counts| == MAX_VERIFY * MAX_PEN_TOKENS
  {
    forall k :: 0 <= k < n ==> Holds(Col(tokens, k), Col(counts, k), Column(history, drafts, k))
  }

  lemma FilledNext(t: seq<int>, k: seq<int>, t': seq<int>, k': seq<int>, history: seq<Token>, drafts: seq<Token>, n: nat)
    requires n < MAX_VERIFY && |t| == |k| == |t'| == |k'| == MAX_VERIFY * MAX_PEN_TOKENS
    requires Filled(t, k, history, drafts, n)
    requires forall c :: 0 <= c < MAX_VERIFY && c != n ==> Col(t', c) == Col(t, c) && Col(k', c) == Col(k, c)
    requires Holds(Col(t', n), Col(k', n), Column(history, drafts, n))
    ensures Filled(t', k', history, drafts, n + 1)
  {
    hide Holds, Col, Column;
  }

  method MakePenaltyDrafts(history: seq<Token>, drafts: seq<Token>) returns (tokens: array<int>, counts: array<int>)
    ensures fresh(tokens) && fresh(counts)
    ensures tokens.Length == counts.Length == MAX_VERIFY * MAX_PEN_TOKENS
    ensures Filled(tokens[..], counts[..], history, drafts, MAX_VERIFY)
  {
    var size := MAX_VERIFY * MAX_PEN_TOKENS;
    tokens := new int[size](_ => -1);
    counts := new int[size](_ => 0);
    var n := if |drafts| + 1 <= MAX_VERIFY then |drafts| + 1 else MAX_VERIFY;
    var idx := FillColumn(tokens, counts, 0, history);
    ColumnLast(history, drafts, n, n);
    hide Holds, Col, Push, DecodeTable, Column;
    assert Filled(tokens[..], counts[..], history, drafts, 1);
    var c := 1;
    while c < n
      invariant 1 <= c <= n
      invariant idx == |Column(history, drafts, c - 1)|
      invariant Filled(tokens[..], counts[..], history, drafts, c)
    {
      ghost var t, k := tokens[..], counts[..];
      ColumnNext(history, drafts, c);
      idx := ExtendColumn(tokens, counts, c, idx, drafts[c - 1], Column(history, drafts, c - 1));
      FilledNext(t, k, tokens[..], counts[..], history, drafts, c);
      c := c + 1;
    }
    while c < MAX_VERIFY
      invariant n <= c <= MAX_VERIFY
      invariant Filled(tokens[..], counts[..], history, drafts, c)
    {
      ghost var t, k := tokens[..], counts[..];
      ColumnLast(history, drafts, n, c);
      CopyColumn(tokens, counts, n - 1, c);
      FilledNext(t, k, tokens[..], counts[..], history, drafts, c);
      c := c + 1;
    }
  }
}
