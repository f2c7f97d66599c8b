// Retirement credit and the reuse gate: when the gate can block forever, and when the watchdog
// sees debt.

module Progress {
  import opened Doorbell
  import opened DoorbellSafety
  import opened Residues

  /** One rank's credit: epochs published, posted, completed by the NIC, and retired. */
  datatype Credit = Credit(k1: nat, posted: nat, completed: nat, retired: nat)

  /** Completions are signaled every `every` epochs; the drain withholds credit until `hold`
      posted epochs are unretired (0 withholds nothing). */
  datatype Tuning = Tuning(every: nat, hold: nat)

  predicate GateOpen(c: Credit) {
    c.k1 + 1 > R ==> c.retired >= c.k1 + 1 - R
  }

  predicate CanDrain(t: Tuning, c: Credit, m: nat) {
    && (t.hold == 0 || c.posted - c.retired >= t.hold)
    && c.retired < m <= c.completed && t.every > 0 && m % t.every == 0
  }

  datatype Step = Publish | PostNext | CompleteNext | Drain(m: nat)

  predicate Can(t: Tuning, c: Credit, s: Step) {
    match s
    case Publish => GateOpen(c)
    case PostNext => c.posted < c.k1
    case CompleteNext => c.completed < c.posted
    case Drain(m) => CanDrain(t, c, m)
  }

  function Next(c: Credit, s: Step): Credit {
    match s
    case Publish => c.(k1 := c.k1 + 1)
    case PostNext => c.(posted := c.posted + 1)
    case CompleteNext => c.(completed := c.completed + 1)
    case Drain(m) => c.(retired := m)
  }

  ghost predicate Run(t: Tuning, cs: seq<Credit>, ss: seq<Step>) {
    && |cs| == |ss| + 1 && cs[0] == Credit(0, 0, 0, 0)
    && forall k :: 0 <= k < |ss| ==> Steps(t, cs, ss, k)
  }

  ghost predicate Steps(t: Tuning, cs: seq<Credit>, ss: seq<Step>, k: nat)
    requires k < |ss| && |cs| == |ss| + 1
  {
    Can(t, cs[k], ss[k]) && cs[k + 1] == Next(cs[k], ss[k])
  }

  ghost predicate Reachable(t: Tuning, c: Credit) {
    exists cs, ss :: Run(t, cs, ss) && cs[|ss|] == c
  }

  ghost predicate InOrder(c: Credit) {
    c.retired <= c.completed <= c.posted <= c.k1 <= c.retired + R
  }

  lemma {:induction false} RunsInOrder(t: Tuning, cs: seq<Credit>, ss: seq<Step>, k: nat)
    requires Run(t, cs, ss) && k <= |ss|
    ensures InOrder(cs[k])
    decreases k
  {
    if k > 0 {
      RunsInOrder(t, cs, ss, k - 1);
      assert Steps(t, cs, ss, k - 1);
    }
  }

  /** Nothing can move: the gate is shut and neither the proxy nor the NIC has a step. */
  ghost predicate Stuck(t: Tuning, c: Credit) {
    forall s :: !Can(t, c, s)
  }

  /** Every run of `every` consecutive epochs has a signaled one. */
  lemma MultipleIn(every: nat, lo: nat) returns (m: nat)
    requires 0 < every
    ensures lo < m <= lo + every && m % every == 0
  {
    var q := lo / every;
    m := (q + 1) * every;
    assert lo == q * every + lo % every;
    MultipleMod(q + 1, every);
  }

  /** With cadence and hold within the ring, whenever the gate is shut something else can move. */
  lemma NeverStuck(t: Tuning, c: Credit)
    requires 0 < t.every <= R && t.hold <= R && InOrder(c)
    ensures !Stuck(t, c)
  {
    if GateOpen(c) {
      assert Can(t, c, Publish);
    } else if c.posted < c.k1 {
      assert Can(t, c, PostNext);
    } else if c.completed < c.posted {
      assert Can(t, c, CompleteNext);
    } else {
      var m := MultipleIn(t.every, c.retired);
      assert Can(t, c, Drain(m));
    }
  }

  /** A shut gate opens within the steps the posts, completions and one drain still owe. */
  function Owed(c: Credit): int {
    (c.k1 - c.posted) + (c.k1 - c.completed)
  }

  lemma MovesTowardOpen(t: Tuning, c: Credit, s: Step)
    requires InOrder(c) && !GateOpen(c) && Can(t, c, s)
    ensures s.Drain? ==> GateOpen(Next(c, s))
    ensures !s.Drain? ==> !s.Publish? && 0 <= Owed(Next(c, s)) < Owed(c) && InOrder(Next(c, s)) && !GateOpen(Next(c, s))
  {
  }

  // ------------------------------------------------------------------ the deadlocks

  /** Publish, post and complete R epochs without ever draining. */
  function FillTo(n: nat): (seq<Credit>, seq<Step>)
    ensures |FillTo(n).0| == |FillTo(n).1| + 1 == 3 * n + 1
  {
    if n == 0 then ([Credit(0, 0, 0, 0)], [])
    else
      var (cs, ss) := FillTo(n - 1);
      (cs + [Credit(n, n - 1, n - 1, 0), Credit(n, n, n - 1, 0), Credit(n, n, n, 0)],
       ss + [Publish, PostNext, CompleteNext])
  }

  lemma {:induction false} FillRuns(t: Tuning, n: nat)
    requires n <= R
    ensures Run(t, FillTo(n).0, FillTo(n).1) && FillTo(n).0[3 * n] == Credit(n, n, n, 0)
    decreases n
  {
    if n > 0 {
      FillRuns(t, n - 1);
      var (cs, ss) := FillTo(n - 1);
      var (cs', ss') := FillTo(n);
      forall k | 0 <= k < |ss'| ensures Steps(t, cs', ss', k) {
        if k < |ss| {
          assert Steps(t, cs, ss, k);
        }
      }
    }
  }

  /** The gate can block forever exactly when the cadence or the hold exceeds the ring. */
  lemma StuckExactly(t: Tuning)
    requires t.every > 0
    ensures (exists c :: Reachable(t, c) && Stuck(t, c)) <==> t.every > R || t.hold > R
  {
    if t.every > R || t.hold > R {
      FillRuns(t, R);
      var c := Credit(R, R, R, 0);
      assert FillTo(R).0[|FillTo(R).1|] == c;
      assert Reachable(t, c);
      forall s ensures !Can(t, c, s) {
        if s.Drain? && t.every > R && 0 < s.m <= R {
          assert s.m % t.every == s.m;
        }
      }
    } else {
      forall c | Reachable(t, c) ensures !Stuck(t, c) {
        var cs, ss :| Run(t, cs, ss) && cs[|ss|] == c;
        RunsInOrder(t, cs, ss, |ss|);
        NeverStuck(t, c);
      }
    }
  }

  // ------------------------------------------------------------------ watchdog

  /** The proxy's counters: epochs posted, released by this proxy, and consumed by the GPU itself
      when it validates payloads (`gpu`). */
  datatype Books = Books(gpu: bool, posted: nat, released: nat, rxDone: nat)

  /** Next epoch to post against the next one still to be matched. */
  function Debt(b: Books): int {
    var rx := if b.gpu then b.rxDone else 0;
    var nextRelease := b.released + 1;
    var matched := if b.gpu then (if nextRelease > rx + 1 then nextRelease else rx + 1)
                   else (if nextRelease > rx then nextRelease else rx);
    b.posted + 1 - matched
  }

  /** The first form counted the GPU's inclusive watermark as if it were exclusive. */
  function OldDebt(b: Books): int {
    var rx := if b.gpu then b.rxDone else 0;
    var nextRelease := b.released + 1;
    b.posted + 1 - (if nextRelease > rx then nextRelease else rx)
  }

  /** In the GPU receive mode the proxy never releases. */
  ghost predicate BooksOk(b: Books) {
    b.gpu ==> b.released == 0
  }

  predicate Unmatched(b: Books) {
    if b.gpu then b.posted > b.rxDone else b.posted > b.released
  }

  /** Debt is positive exactly when some posted epoch is unmatched, in both receive modes; so a
      quiescent link never trips the watchdog. */
  lemma DebtIsUnmatched(b: Books)
    requires BooksOk(b)
    ensures Debt(b) > 0 <==> Unmatched(b)
    ensures b.posted == (if b.gpu then b.rxDone else b.released) ==> Debt(b) == 0
  {
  }

  /** The counters of a rank of the link as its watchdog reads them. */
  function BooksOf(gpu: bool, a: Rank): Books {
    Books(gpu, a.tx.posted, a.rx.done, a.rx.proved)
  }

  /** On a link that receives one way only, debt is at most the barrier being waited in, and none
      at all where both ranks rest. */
  lemma LinkDebt(j: Job, x: nat, a: Rank, b: Rank, gpu: bool)
    requires Good(j, x, a, b) && (if gpu then a.rx.done == 0 else a.rx.proved == 0)
    ensures var d := Debt(BooksOf(gpu, a));
            && (d > 0 <==> d == 1 && a.tx.posted == a.k1 == a.k2 + 1 && a.k2 == (if gpu then a.rx.proved else a.rx.done))
            && (a.k1 == a.k2 == a.tx.posted ==> d <= 0)
            && (a.k1 == a.k2 == a.tx.posted == b.k1 ==> d == 0)
  {
    Window(j, x, a, b);
  }

  /** The same in every reachable state: a healthy link at rest never feeds the watchdog. */
  lemma WatchdogOnLink(j: Job, ss: seq<Pair>, ms: seq<Move>, k: nat, gpu: bool)
    requires DoorbellSafety.IsRun(j, ss, ms) && NoFalseTail(j) && k <= |ms|
    requires var s := ss[k]; if gpu then s.a.rx.done == s.b.rx.done == 0 else s.a.rx.proved == s.b.rx.proved == 0
    ensures var s := ss[k];
            var d, d' := Debt(BooksOf(gpu, s.a)), Debt(BooksOf(gpu, s.b));
            && d <= 1 && d' <= 1
            && (s.a.k1 == s.a.k2 == s.b.k1 == s.b.k2 == s.a.tx.posted == s.b.tx.posted ==> d == d' == 0)
  {
    EveryRunIsGood(j, ss, ms, k);
    GoodSwaps(j, 0, ss[k].a, ss[k].b);
    LinkDebt(j, 0, ss[k].a, ss[k].b, gpu);
    LinkDebt(j, 1, ss[k].b, ss[k].a, gpu);
  }

  /** The first form was off by one exactly in the GPU mode once anything had been received. */
  lemma OldDebtPhantom(b: Books)
    requires BooksOk(b)
    ensures OldDebt(b) != Debt(b) <==> b.gpu && b.rxDone > 0
    ensures b.gpu && b.rxDone > 0 && b.posted == b.rxDone ==> OldDebt(b) == 1
  {
  }
}
