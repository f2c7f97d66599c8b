// The speculation-depth policy: a per-position hazard curve learned from accepted prefixes, the
// yield it predicts, and the windowed choice of depth.

module Policy {
  import opened Wrappers

  const MAX_AUTO_DEPTH: nat := 8
  const MIN_OBS: nat := 8
  const EVAL_WINDOW: nat := 128
  const EVAL_FIRST: nat := 32
  const RETRY_AFTER: nat := 4096
  const DEPTH_MARGIN: real := 1.05

  /** How often the draft at a position was accepted, and how often it was judged at all. */
  datatype Hazard = Hazard(accepted: nat, offered: nat)

  // ------------------------------------------------------------------ the yield curve

  function Ratio(a: nat, n: nat): real
    requires n > 0
  {
    a as real / n as real
  }

  /** The rate used for the k-th draft: the deepest sufficiently observed one up to it, else 1/2. */
  function Rate(h: seq<Hazard>, k: nat): real {
    if k == 0 then 0.5
    else if k <= |h| && h[k - 1].offered >= MIN_OBS then Ratio(h[k - 1].accepted, h[k - 1].offered)
    else Rate(h, k - 1)
  }

  function Mul(a: real, b: real): real { a * b }

  /** Chance that the first k drafts are all accepted. */
  function Chain(h: seq<Hazard>, k: nat): real {
    if k == 0 then 1.0 else Mul(Chain(h, k - 1), Rate(h, k))
  }

  /** Expected tokens of one depth-d step: the bonus and every surviving draft. */
  function Yield(h: seq<Hazard>, d: nat): real {
    if d <= 1 then 1.0 else Yield(h, d - 1) + Chain(h, d - 1)
  }

  /** A position is only judged after the one before it was accepted. */
  ghost predicate Nested(h: seq<Hazard>) {
    && (forall i :: 0 <= i < |h| ==> h[i].accepted <= h[i].offered)
    && (forall i :: 0 < i < |h| ==> h[i].offered <= h[i - 1].accepted)
  }

  lemma RatioBounds(a: nat, n: nat)
    requires a <= n && n > 0
    ensures 0.0 <= Ratio(a, n) <= 1.0
  {
  }

  lemma {:induction false} RateBounds(h: seq<Hazard>, k: nat)
    requires Nested(h)
    ensures 0.0 <= Rate(h, k) <= 1.0
  {
    if k > 0 {
      RateBounds(h, k - 1);
      if k <= |h| && h[k - 1].offered >= MIN_OBS {
        RatioBounds(h[k - 1].accepted, h[k - 1].offered);
      }
    }
  }

  lemma NonNeg(x: real, y: real)
    requires x >= 0.0 && y >= 0.0
    ensures x * y >= 0.0
  {
  }

  lemma MulBounds(a: real, b: real)
    requires 0.0 <= a <= 1.0 && 0.0 <= b <= 1.0
    ensures 0.0 <= Mul(a, b) <= a
  {
    NonNeg(a, b);
    NonNeg(a, 1.0 - b);
    assert a * (1.0 - b) == a - a * b;
  }

  lemma {:induction false} ChainBounds(h: seq<Hazard>, k: nat)
    requires Nested(h)
    ensures 0.0 <= Chain(h, k) <= 1.0
    ensures k > 0 ==> Chain(h, k) <= Chain(h, k - 1)
  {
    if k > 0 {
      ChainBounds(h, k - 1);
      RateBounds(h, k);
      MulBounds(Chain(h, k - 1), Rate(h, k));
    }
  }

  /** A deeper step never yields less, and never more than one token per column. */
  lemma {:induction false} YieldBounds(h: seq<Hazard>, d: nat)
    requires Nested(h)
    ensures 1.0 <= Yield(h, d) <= Yield(h, d + 1)
    ensures d >= 1 ==> Yield(h, d) <= d as real
  {
    ChainBounds(h, d);
    if d > 1 {
      YieldBounds(h, d - 1);
      ChainBounds(h, d - 1);
    }
  }

  // ------------------------------------------------------------------ what rates and yields are

  /** Position i, counted from 1, was judged often enough. */
  predicate Observed(h: seq<Hazard>, i: nat) {
    0 < i <= |h| && h[i - 1].offered >= MIN_OBS
  }

  /** The rate of a position is the accepted share of the deepest observed one up to it, and one half
      where none was. */
  lemma {:induction false} RateIsDeepest(h: seq<Hazard>, k: nat, i: nat)
    requires i <= k && (i > 0 ==> Observed(h, i)) && forall m: nat :: i < m <= k ==> !Observed(h, m)
    ensures Rate(h, k) == if i == 0 then 0.5 else h[i - 1].accepted as real / h[i - 1].offered as real
    decreases k
  {
    if i < k {
      assert !Observed(h, k);
      RateIsDeepest(h, k - 1, i);
    }
  }

  /** What is expected of the drafts from the k-th on, once all before it were accepted: the token
      that refuses or follows them, and, if the k-th is accepted too, the rest. */
  function Expected(h: seq<Hazard>, k: nat, d: nat): real
    decreases if k < d then d - k else 0
  {
    if k >= d then 1.0 else 1.0 + Mul(Rate(h, k), Expected(h, k + 1, d))
  }

  /** The yield is the expected number of tokens of a step, however it is summed. */
  lemma YieldIsExpected(h: seq<Hazard>, d: nat)
    requires d >= 1
    ensures Yield(h, d) == Expected(h, 1, d)
  {
    YieldSplits(h, d, 1);
    Distributes(1.0, 0.0, Expected(h, 1, d));
  }

  lemma {:induction false} YieldSplits(h: seq<Hazard>, d: nat, k: nat)
    requires 1 <= k <= d
    ensures Yield(h, d) == Yield(h, k) - Chain(h, k - 1) + Mul(Chain(h, k - 1), Expected(h, k, d))
    decreases d - k
  {
    hide Rate, Mul;
    if k < d {
      YieldSplits(h, d, k + 1);
      Distributes(Chain(h, k - 1), Rate(h, k), Expected(h, k + 1, d));
    } else {
      Distributes(Chain(h, k - 1), 0.0, 0.0);
    }
  }

  lemma Distributes(c: real, r: real, e: real)
    ensures Mul(c, 1.0 + Mul(r, e)) == c + Mul(Mul(c, r), e) && Mul(c, 1.0) == c && Mul(1.0, e) == e
  {
    assert c * (r * e) == (c * r) * e;
  }

  // ------------------------------------------------------------------ recording

  /** One completed step: drafts up to `accepted` held, the next one, if any, was refused. */
  function Recorded(h: seq<Hazard>, drafts: nat, accepted: nat): (r: seq<Hazard>)
    ensures |r| == |h|
  {
    seq(|h|, i requires 0 <= i < |h| =>
      if i < accepted then Hazard(h[i].accepted + 1, h[i].offered + 1)
      else if i == accepted && accepted < drafts then Hazard(h[i].accepted, h[i].offered + 1)
      else h[i])
  }

  /** Recording keeps the curve nested: every rate stays a probability. */
  lemma RecordedNested(h: seq<Hazard>, drafts: nat, accepted: nat)
    requires Nested(h) && accepted <= drafts
    ensures Nested(Recorded(h, drafts, accepted))
  {
  }

  /** One completed step as the policy hears of it. */
  datatype Outcome = Outcome(drafts: nat, accepted: nat)

  function Learned(n: nat, steps: seq<Outcome>): (h: seq<Hazard>)
    ensures |h| == n
  {
    if steps == [] then seq(n, i => Hazard(0, 0))
    else Recorded(Learned(n, steps[..|steps| - 1]), steps[|steps| - 1].drafts, steps[|steps| - 1].accepted)
  }

  /** How many steps accepted the draft after the first i, and how many got to judge it. */
  function AcceptedPast(steps: seq<Outcome>, i: nat): nat {
    if steps == [] then 0
    else AcceptedPast(steps[..|steps| - 1], i) + if steps[|steps| - 1].accepted > i then 1 else 0
  }

  function JudgedAt(steps: seq<Outcome>, i: nat): nat {
    if steps == [] then 0
    else JudgedAt(steps[..|steps| - 1], i) + if steps[|steps| - 1].drafts > i && steps[|steps| - 1].accepted >= i then 1 else 0
  }

  /** After any steps the curve counts, for every position, exactly the steps that judged its draft,
      as all drafts before it were accepted, and those that accepted it. */
  lemma {:induction false} CurveCounts(n: nat, steps: seq<Outcome>, i: nat)
    requires i < n && forall k :: 0 <= k < |steps| ==> steps[k].accepted <= steps[k].drafts
    ensures Learned(n, steps)[i] == Hazard(AcceptedPast(steps, i), JudgedAt(steps, i))
    decreases |steps|
  {
    if steps != [] {
      CurveCounts(n, steps[..|steps| - 1], i);
    }
  }

  // ------------------------------------------------------------------ choosing a depth

  /** Cost of a depth-d step in plain decode steps; no entry means infinitely dear. */
  function CostAt(table: seq<(nat, real)>, d: nat): Option<real> {
    if table == [] then None else if table[0].0 == d then Some(table[0].1) else CostAt(table[1..], d)
  }

  /** The first entry for a depth is its cost, and a depth without one has none. */
  lemma {:induction false} CostIsFirst(table: seq<(nat, real)>, d: nat, i: nat)
    requires i <= |table| && (forall k :: 0 <= k < i ==> table[k].0 != d) && (i < |table| ==> table[i].0 == d)
    ensures CostAt(table, d) == if i < |table| then Some(table[i].1) else None
    decreases |table|
  {
    if i > 0 {
      CostIsFirst(table[1..], d, i - 1);
    }
  }

  /** Tokens per plain decode step bought at a cost. */
  function Score(h: seq<Hazard>, d: nat, cost: Option<real>): real
    requires cost.Some? ==> cost.value > 0.0
  {
    if cost.None? then 0.0 else Yield(h, d) / cost.value
  }

  function Margin(d: nat, depth: nat): real {
    if d < depth then 1.0 else DEPTH_MARGIN
  }

  /** Entries that may be chosen over the current depth. */
  predicate Eligible(e: (nat, real), depth: nat) {
    e.1 > 0.0 && e.0 != depth
  }

  datatype Best = Best(depth: nat, score: real)

  /** The scan over the first n table entries, in table order. */
  function Scan(h: seq<Hazard>, table: seq<(nat, real)>, depth: nat, cur: real, n: nat): Best
    requires n <= |table|
  {
    if n == 0 then Best(depth, cur)
    else
      var b := Scan(h, table, depth, cur, n - 1);
      var e := table[n - 1];
      if Eligible(e, depth) && Yield(h, e.0) / e.1 > b.score * Margin(e.0, depth) then Best(e.0, Yield(h, e.0) / e.1) else b
  }

  lemma MarginGrows(a: real, b: real, m: real)
    requires a <= b && m >= 1.0 && b >= 0.0
    ensures a * m <= b * m && b <= b * m
  {
  }

  /** The choice is never worse than the current depth, names a real entry, and no eligible entry
      beats it by more than its margin: nothing at all for shallower depths, 5% for deeper ones. */
  lemma {:induction false} ScanIsBest(h: seq<Hazard>, table: seq<(nat, real)>, depth: nat, cur: real, n: nat, k: nat)
    requires n <= |table| && cur >= 0.0
    ensures var b := Scan(h, table, depth, cur, n);
            && b.score >= cur
            && (b == Best(depth, cur) || exists i :: 0 <= i < n && Eligible(table[i], depth) && b == Best(table[i].0, Yield(h, table[i].0) / table[i].1))
            && (k < n && Eligible(table[k], depth) ==> Yield(h, table[k].0) / table[k].1 <= b.score * Margin(table[k].0, depth))
    decreases n
  {
    if n > 0 {
      ScanIsBest(h, table, depth, cur, n - 1, k);
      var b0, b, e := Scan(h, table, depth, cur, n - 1), Scan(h, table, depth, cur, n), table[n - 1];
      hide Yield, Scan;
      MarginGrows(b0.score, b0.score, Margin(e.0, depth));
      if k < n {
        MarginGrows(b0.score, b.score, Margin(table[k].0, depth));
      }
    }
  }

  /** Depths the calibration offers. */
  predicate InRange(d: nat) {
    2 <= d <= MAX_AUTO_DEPTH
  }

  predicate Calibrated(table: seq<(nat, real)>) {
    forall i :: 0 <= i < |table| ==> InRange(table[i].0)
  }

  /** Whatever was learned and whatever the costs, a calibrated table never moves the depth out of
      its range: the packed step's clamp always has a positive upper end. */
  lemma {:induction false} ScanInRange(h: seq<Hazard>, table: seq<(nat, real)>, depth: nat, cur: real, n: nat)
    requires n <= |table| && Calibrated(table) && InRange(depth)
    ensures InRange(Scan(h, table, depth, cur, n).depth)
  {
    if n > 0 {
      ScanInRange(h, table, depth, cur, n - 1);
    }
  }

  class MtpPolicy {
    const headPresent: bool
    const force: Option<bool>
    const pinDepth: Option<nat>
    /** Cost tables by measurement context, ascending. */
    const costs: seq<(nat, seq<(nat, real)>)>
    const hz: array<Hazard>
    var depth: nat
    var active: bool
    var winSteps: nat
    var winEmitted: nat
    var winDrafts: nat
    var winAccepted: nat
    var decodeSteps: nat
    var retryAt: nat
    var firstShort: bool

    ghost predicate Valid()
      reads this, hz
    {
      hz.Length == MAX_AUTO_DEPTH && Nested(hz[..])
    }

    constructor (headPresent: bool, force: Option<bool>, pinDepth: Option<nat>, costs: seq<(nat, seq<(nat, real)>)>)
      ensures Valid() && fresh(hz)
      ensures active == (headPresent && (force.None? || force.value))
      ensures InRange(depth)
    {
      this.headPresent, this.force, this.pinDepth, this.costs := headPresent, force, pinDepth, costs;
      hz := new Hazard[MAX_AUTO_DEPTH](_ => Hazard(0, 0));
      var want := if pinDepth.Some? then pinDepth.value else 4;
      depth := if want < 2 then 2 else if want > MAX_AUTO_DEPTH then MAX_AUTO_DEPTH else want;
      active := headPresent && (force.None? || force.value);
      winSteps, winEmitted, winDrafts, winAccepted, decodeSteps, retryAt := 0, 0, 0, 0, 0, 0;
      firstShort := true;
    }

    /** Expected tokens per step at depth d. */
    method YieldAt(d: nat) returns (y: real)
      requires Valid()
      ensures y == Yield(hz[..], d)
    {
      var last, acc, chain := 0.5, 1.0, 1.0;
      var i := 1;
      while i < d
        invariant 1 <= i && (if d >= 1 then i <= d else i == 1)
        invariant last == Rate(hz[..], i - 1) && chain == Chain(hz[..], i - 1) && acc == Yield(hz[..], i)
        decreases d - i
      {
        if i - 1 < hz.Length && hz[i - 1].offered >= MIN_OBS {
          last := Ratio(hz[i - 1].accepted, hz[i - 1].offered);
        }
        chain := Mul(chain, last);
        acc := acc + chain;
        i := i + 1;
      }
      y := acc;
    }

    method RecordStep(drafts: nat, accepted: nat, emitted: nat)
      requires Valid() && accepted <= drafts
      modifies this`winSteps, this`winEmitted, this`winDrafts, this`winAccepted, hz
      ensures Valid() && hz[..] == Recorded(old(hz[..]), drafts, accepted)
      ensures winSteps == old(winSteps) + 1 && winDrafts == old(winDrafts) + drafts
      ensures winAccepted == old(winAccepted) + accepted && winEmitted == old(winEmitted) + emitted
    {
      ghost var h := hz[..];
      winSteps, winDrafts := winSteps + 1, winDrafts + drafts;
      winAccepted, winEmitted := winAccepted + accepted, winEmitted + emitted;
      var n := Min(accepted, MAX_AUTO_DEPTH);
      var i := 0;
      while i < n
        invariant 0 <= i <= n && hz.Length == MAX_AUTO_DEPTH
        invariant winSteps == old(winSteps) + 1 && winDrafts == old(winDrafts) + drafts
        invariant winAccepted == old(winAccepted) + accepted && winEmitted == old(winEmitted) + emitted
        invariant forall k :: 0 <= k < MAX_AUTO_DEPTH ==>
                    hz[k] == if k < i then Hazard(h[k].accepted + 1, h[k].offered + 1) else h[k]
      {
        hz[i] := Hazard(hz[i].accepted + 1, hz[i].offered + 1);
        i := i + 1;
      }
      if accepted < drafts && accepted < hz.Length {
        hz[accepted] := Hazard(hz[accepted].accepted, hz[accepted].offered + 1);
      }
      RecordedNested(h, drafts, accepted);
      assert hz[..] == Recorded(h, drafts, accepted);
    }

    /** The first bucket whose doubled point covers the context, else the last. */
    function BucketIndex(ctx: nat, i: nat): (k: nat)
      requires i < |costs|
      ensures i <= k < |costs| && (k + 1 < |costs| ==> ctx <= costs[k].0 * 2) && forall m :: i <= m < k ==> ctx > costs[m].0 * 2
      decreases |costs| - i
    {
      if ctx <= costs[i].0 * 2 || i + 1 == |costs| then i else BucketIndex(ctx, i + 1)
    }

    /** The table measured nearest to the context: the first bucket that covers it, or the last. */
    function Table(ctx: nat): (t: seq<(nat, real)>)
      ensures costs == [] ==> t == []
      ensures costs != [] ==> exists k :: 0 <= k < |costs| && t == costs[k].1 && (k + 1 < |costs| ==> ctx <= costs[k].0 * 2)
                                          && forall m :: 0 <= m < k ==> ctx > costs[m].0 * 2
    {
      if costs == [] then [] else costs[BucketIndex(ctx, 0)].1
    }

    /** What was measured for the current depth, if anything, took some time. */
    predicate Priced(ctx: nat)
      reads this
    {
      CostAt(Table(ctx), depth).Some? ==> CostAt(Table(ctx), depth).value > 0.0
    }

    function Current(ctx: nat): real
      requires Priced(ctx)
      reads this, hz
    {
      Score(hz[..], depth, CostAt(Table(ctx), depth))
    }

    /** A window is due when evaluation is on and enough steps were recorded. */
    predicate WindowDue()
      reads this
    {
      force.None? && headPresent && active && winSteps >= (if firstShort then EVAL_FIRST else EVAL_WINDOW)
    }

    /** Scan the bucket's table for a depth that beats the current one. */
    method PickDepth(ctx: nat) returns (best: Best)
      requires Valid() && Priced(ctx)
      ensures best == if pinDepth.None? then Scan(hz[..], Table(ctx), depth, Current(ctx), |Table(ctx)|) else Best(depth, Current(ctx))
      ensures InRange(depth) && Calibrated(Table(ctx)) ==> InRange(best.depth)
    {
      hide Score, CostAt, Yield, Table, BucketIndex;
      best := Best(depth, Current(ctx));
      if pinDepth.None? {
        var table := Table(ctx);
        var n := 0;
        while n < |table|
          invariant 0 <= n <= |table|
          invariant best == Scan(hz[..], table, depth, Current(ctx), n)
        {
          var e := table[n];
          if Eligible(e, depth) {
            var y := YieldAt(e.0);
            var s := y / e.1;
            if s > best.score * Margin(e.0, depth) {
              best := Best(e.0, s);
            }
          }
          n := n + 1;
        }
        if InRange(depth) && Calibrated(table) {
          ScanInRange(hz[..], table, depth, Current(ctx), |table|);
        }
      }
    }

    /** One decode step's worth of policy: re-probe after a cooldown, or evaluate a full window. */
    method Tick(ctx: nat)
      requires Valid() && Priced(ctx)
      modifies this
      ensures Valid() && decodeSteps == old(decodeSteps) + 1
      ensures old(WindowDue()) ==>
                var b := if pinDepth.None? then Scan(hz[..], Table(ctx), old(depth), old(Current(ctx)), |Table(ctx)|)
                         else Best(old(depth), old(Current(ctx)));
                && winSteps == winEmitted == winDrafts == winAccepted == 0 && !firstShort
                && active == (b.score >= 1.0)
                && depth == (if b.score >= 1.0 then b.depth else old(depth))
                && retryAt == (if active then old(retryAt) else decodeSteps + RETRY_AFTER)
      ensures !old(WindowDue()) ==> depth == old(depth) && retryAt == old(retryAt)
      ensures var probes := force.None? && headPresent && !old(active) && decodeSteps >= old(retryAt);
              && (probes ==> active && firstShort && winSteps == winEmitted == winDrafts == winAccepted == 0)
              && (!probes && !old(WindowDue()) ==>
                    && active == old(active) && firstShort == old(firstShort) && winSteps == old(winSteps)
                    && winEmitted == old(winEmitted) && winDrafts == old(winDrafts) && winAccepted == old(winAccepted))
      ensures InRange(old(depth)) && Calibrated(Table(ctx)) ==> InRange(depth)
    {
      hide Scan, Score, CostAt, Table, Nested, Calibrated, Yield;
      decodeSteps := decodeSteps + 1;
      if force.Some? || !headPresent {
        return;
      }
      if !active {
        if decodeSteps >= retryAt {
          active, firstShort := true, true;
          winSteps, winEmitted, winDrafts, winAccepted := 0, 0, 0, 0;
        }
        return;
      }
      if winSteps < (if firstShort then EVAL_FIRST else EVAL_WINDOW) {
        return;
      }
      firstShort := false;
      winSteps, winEmitted, winDrafts, winAccepted := 0, 0, 0, 0;
      var best := PickDepth(ctx);
      if best.score < 1.0 {
        active, retryAt := false, decodeSteps + RETRY_AFTER;
        return;
      }
      depth := best.depth;
    }
  }

  /** What a window's choice guarantees: it is worth what its own table entry says, or nothing if the
      current depth was never measured and stays; and no measured depth, the current one included,
      is worth more than the margin above it. */
  lemma WindowChoice(h: seq<Hazard>, table: seq<(nat, real)>, depth: nat)
    requires Nested(h) && (CostAt(table, depth).Some? ==> CostAt(table, depth).value > 0.0)
    ensures var b := Scan(h, table, depth, Score(h, depth, CostAt(table, depth)), |table|);
            && ((exists k :: 0 <= k < |table| && table[k].1 > 0.0 && b == Best(table[k].0, Yield(h, table[k].0) / table[k].1))
                || (b == Best(depth, 0.0) && forall k :: 0 <= k < |table| ==> table[k].0 != depth))
            && (forall k :: 0 <= k < |table| && table[k].1 > 0.0 && (table[k].0 == depth ==> FirstAt(table, k)) ==>
                  Yield(h, table[k].0) / table[k].1 <= b.score * Margin(table[k].0, depth))
  {
    var cur := Score(h, depth, CostAt(table, depth));
    var i := FindFirst(table, depth);
    CostIsFirst(table, depth, i);
    CurrentIsWorth(h, table, depth, i);
    ScanIsBest(h, table, depth, cur, |table|, 0);
    var b := Scan(h, table, depth, cur, |table|);
    forall k | 0 <= k < |table| && table[k].1 > 0.0 && (table[k].0 == depth ==> FirstAt(table, k))
      ensures Yield(h, table[k].0) / table[k].1 <= b.score * Margin(table[k].0, depth)
    {
      ScanIsBest(h, table, depth, cur, |table|, k);
      if table[k].0 == depth {
        assert k == i;
        MarginGrows(cur, b.score, DEPTH_MARGIN);
      }
    }
  }

  ghost predicate FirstAt(table: seq<(nat, real)>, k: nat)
    requires k < |table|
  {
    forall i :: 0 <= i < k ==> table[i].0 != table[k].0
  }

  lemma FindFirst(table: seq<(nat, real)>, d: nat) returns (i: nat)
    ensures i <= |table| && (forall k :: 0 <= k < i ==> table[k].0 != d) && (i < |table| ==> table[i].0 == d)
  {
    i := 0;
    while i < |table| && table[i].0 != d
      invariant i <= |table| && forall k :: 0 <= k < i ==> table[k].0 != d
    {
      i := i + 1;
    }
  }

  /** The current depth's score is in the table's own terms, and never negative. */
  lemma CurrentIsWorth(h: seq<Hazard>, table: seq<(nat, real)>, depth: nat, i: nat)
    requires Nested(h) && i <= |table| && CostAt(table, depth) == (if i < |table| then Some(table[i].1) else None)
    requires i < |table| ==> table[i].0 == depth && table[i].1 > 0.0
    ensures Score(h, depth, CostAt(table, depth)) == if i < |table| then Yield(h, depth) / table[i].1 else 0.0
    ensures Score(h, depth, CostAt(table, depth)) >= 0.0
  {
    YieldBounds(h, depth);
    hide Yield, Nested, CostAt;
  }
}
