// What a turn of the tree computes end to end: with the XOR schedule and every round adding what
// it received, each rank ends with the sum of all ranks' inputs, in every run of the transport.

module AllReduce {
  import opened NwaySafety
  import opened RecursiveDoubling
  import NwayExact

  const MAX_WORLD: nat := 16

  // ------------------------------------------------------------------ ranks as numbers

  function ToRank(x: nat): RankId
    requires x < 256
  {
    x as RankId
  }

  /** Whom rank x meets in round k: the rank whose bit k differs. */
  function Meets(x: nat, k: nat): (y: nat)
    requires x < 256 && k < MAX_ROUNDS
    ensures y < 256
  {
    Partner(ToRank(x), k) as nat
  }

  /** How often rank x holds rank q's contribution after the rounds `ds`. */
  function Copies(ds: seq<nat>, x: nat, q: nat): nat
    requires x < 256 && q < 256 && forall k :: 0 <= k < |ds| ==> ds[k] < MAX_ROUNDS
  {
    Times(ds, ToRank(x), ToRank(q))
  }

  lemma AsRank(x: nat)
    requires x < MAX_WORLD
    ensures ToRank(x) as nat == x
  {
    if x < 8 {
      if x == 0 { } else if x == 1 { } else if x == 2 { } else if x == 3 { } else if x == 4 { } else if x == 5 { }
      else if x == 6 { } else { assert x == 7; }
    } else {
      if x == 8 { } else if x == 9 { } else if x == 10 { } else if x == 11 { } else if x == 12 { } else if x == 13 { }
      else if x == 14 { } else { assert x == 15; }
    }
  }

  lemma AsNumber(r: RankId)
    ensures ToRank(r as nat) == r
  {
  }

  lemma MeetsMutual(rounds: nat, x: nat, k: nat)
    requires k < rounds <= MAX_ROUNDS && x < World(rounds) <= MAX_WORLD
    ensures Meets(x, k) < World(rounds) && Meets(x, k) != x && Meets(Meets(x, k), k) == x
  {
    AsRank(x);
    AsNumber(Partner(ToRank(x), k));
    hide ToRank, Partner;
    PartnersMutual(rounds, ToRank(x), k);
  }

  lemma CopiesAtFirst(x: nat, q: nat)
    requires x < MAX_WORLD && q < MAX_WORLD
    ensures Copies([], x, q) == if x == q then 1 else 0
  {
    AsRank(x);
    AsRank(q);
    hide ToRank;
  }

  lemma CopiesNext(ds: seq<nat>, d: nat, x: nat, q: nat)
    requires x < 256 && q < 256 && d < MAX_ROUNDS && forall k :: 0 <= k < |ds| ==> ds[k] < MAX_ROUNDS
    ensures Copies(ds + [d], x, q) == Copies(ds, x, q) + Copies(ds, Meets(x, d), q)
  {
    AsNumber(Partner(ToRank(x), d));
    hide ToRank, Partner;
    assert (ds + [d])[..|ds|] == ds;
  }

  lemma CopiesAtLast(rounds: nat, e0: nat, x: nat, q: nat)
    requires 0 < rounds <= MAX_ROUNDS && x < World(rounds) <= MAX_WORLD && q < World(rounds)
    ensures Copies(Window(rounds, e0, rounds), x, q) == 1
  {
    AsRank(x);
    AsRank(q);
    hide ToRank, Times;
    FullAllReduce(rounds, e0, ToRank(x), ToRank(q));
  }

  // ------------------------------------------------------------------ a turn of the schedule

  /** The schedule is the XOR schedule. */
  ghost predicate Doubles(j: Job) {
    && 0 < j.rounds <= MAX_ROUNDS && j.world == World(j.rounds) <= MAX_WORLD
    && forall x: nat, k: nat :: x < j.world && k < j.rounds ==> j.partner(x, k) == Meets(x, k)
  }

  /** It is a schedule. */
  lemma DoublesMutual(j: Job, x: nat, k: nat)
    requires Doubles(j) && x < j.world && k < j.rounds
    ensures Mutual(j, x, k)
  {
    hide Meets;
    MeetsMutual(j.rounds, x, k);
  }

  function Add(u: seq<Word>, v: seq<Word>): (w: seq<Word>)
    requires |u| == |v|
    ensures |w| == |u| && forall i :: 0 <= i < |u| ==> w[i] == u[i] + v[i]
  {
    seq(|u|, i requires 0 <= i < |u| => u[i] + v[i])
  }

  /** Within the turn that starts at e0 every rank publishes what it had plus what it received. */
  ghost predicate Accumulates(j: Job, e0: nat)
    requires JobOk(j)
  {
    && (forall m: nat :: m < j.rounds ==> SameLength(j, e0, m))
    && forall x: nat, m: nat :: x < j.world && m + 1 < j.rounds ==> AddsUp(j, e0, x, m)
  }

  ghost predicate SameLength(j: Job, e0: nat, m: nat) {
    j.len(e0 + m) == j.len(e0)
  }

  ghost predicate AddsUp(j: Job, e0: nat, x: nat, m: nat)
    requires JobOk(j)
  {
    j.data(x, e0 + m + 1) == Add(j.data(x, e0 + m), j.data(PeerOf(j, x, e0 + m), e0 + m))
  }

  /** Word i of what the first n ranks brought to the turn, each as often as rank x holds it after
      the rounds `ds`. */
  ghost function Held(j: Job, ds: seq<nat>, x: nat, n: nat, e0: nat, i: nat): int
    requires JobOk(j) && x < 256 && n <= 256 && i < j.len(e0) && forall k :: 0 <= k < |ds| ==> ds[k] < MAX_ROUNDS
  {
    if n == 0 then 0 else Held(j, ds, x, n - 1, e0, i) + Copies(ds, x, n - 1) * j.data(n - 1, e0)[i]
  }

  /** The plain sum over the first n ranks. */
  ghost function Total(j: Job, n: nat, e0: nat, i: nat): int
    requires JobOk(j) && i < j.len(e0)
  {
    if n == 0 then 0 else Total(j, n - 1, e0, i) + j.data(n - 1, e0)[i]
  }

  /** Before any round a rank holds only its own. */
  lemma {:induction false} HeldAtFirst(j: Job, x: nat, n: nat, e0: nat, i: nat)
    requires JobOk(j) && x < MAX_WORLD && n <= MAX_WORLD && i < j.len(e0)
    ensures Held(j, [], x, n, e0, i) == if x < n then j.data(x, e0)[i] else 0
    decreases n
  {
    hide Copies;
    if n > 0 {
      HeldAtFirst(j, x, n - 1, e0, i);
      CopiesAtFirst(x, n - 1);
    }
  }

  /** A round adds what the partner holds. */
  lemma {:induction false} HeldNext(j: Job, ds: seq<nat>, d: nat, x: nat, n: nat, e0: nat, i: nat)
    requires JobOk(j) && x < 256 && n <= 256 && i < j.len(e0) && d < MAX_ROUNDS && forall k :: 0 <= k < |ds| ==> ds[k] < MAX_ROUNDS
    ensures Held(j, ds + [d], x, n, e0, i) == Held(j, ds, x, n, e0, i) + Held(j, ds, Meets(x, d), n, e0, i)
    decreases n
  {
    hide Copies, Meets;
    if n > 0 {
      HeldNext(j, ds, d, x, n - 1, e0, i);
      CopiesNext(ds, d, x, n - 1);
      Spread(Copies(ds, x, n - 1), Copies(ds, Meets(x, d), n - 1), j.data(n - 1, e0)[i]);
    }
  }

  lemma Spread(a: int, b: int, w: int)
    ensures (a + b) * w == a * w + b * w
  {
  }

  /** After a full turn everyone holds everything once. */
  lemma {:induction false} HeldAtLast(j: Job, e0: nat, x: nat, n: nat, i: nat)
    requires JobOk(j) && x < World(j.rounds) <= MAX_WORLD && n <= World(j.rounds) && i < j.len(e0)
    ensures Held(j, Window(j.rounds, e0, j.rounds), x, n, e0, i) == Total(j, n, e0, i)
    decreases n
  {
    hide Copies;
    if n > 0 {
      HeldAtLast(j, e0, x, n - 1, i);
      CopiesAtLast(j.rounds, e0, x, n - 1);
    }
  }

  lemma WindowNext(rounds: nat, e0: nat, m: nat)
    requires rounds > 0
    ensures Window(rounds, e0, m + 1) == Window(rounds, e0, m) + [RoundOf(rounds, e0 + m)]
  {
  }

  /** What a rank publishes in the turn's m-th epoch is what it holds after m rounds. */
  lemma {:induction false} PublishesHeld(j: Job, e0: nat, x: nat, m: nat, i: nat)
    requires JobOk(j) && Doubles(j) && Accumulates(j, e0) && x < j.world && m < j.rounds && i < j.len(e0)
    ensures |j.data(x, e0 + m)| == j.len(e0)
    ensures j.data(x, e0 + m)[i] == Held(j, Window(j.rounds, e0, m), x, j.world, e0, i)
    decreases m
  {
    hide Held, Copies, Meets, RoundOf;
    assert SameLength(j, e0, m);
    if m == 0 {
      assert Window(j.rounds, e0, 0) == [];
      HeldAtFirst(j, x, j.world, e0, i);
    } else {
      var e, k := e0 + m - 1, Round(j, e0 + m - 1);
      assert AddsUp(j, e0, x, m - 1);
      DoublesMutual(j, x, k);
      PublishesHeld(j, e0, x, m - 1, i);
      PublishesHeld(j, e0, Meets(x, k), m - 1, i);
      HeldNext(j, Window(j.rounds, e0, m - 1), k, x, j.world, e0, i);
      WindowNext(j.rounds, e0, m - 1);
    }
  }

  /** What the last K2 of the turn adds up, for whoever reads the right words: the sum over all. */
  lemma TurnSums(j: Job, e0: nat, x: nat, i: nat)
    requires JobOk(j) && Doubles(j) && Accumulates(j, e0) && x < j.world && i < j.len(e0)
    ensures var e := e0 + j.rounds - 1;
            && |j.data(x, e)| == |j.data(PeerOf(j, x, e), e)| == j.len(e0)
            && j.data(x, e)[i] + j.data(PeerOf(j, x, e), e)[i] == Total(j, j.world, e0, i)
  {
    hide Held, Copies, Meets, RoundOf, World;
    var m := j.rounds - 1;
    var k := Round(j, e0 + m);
    DoublesMutual(j, x, k);
    PublishesHeld(j, e0, x, m, i);
    PublishesHeld(j, e0, Meets(x, k), m, i);
    HeldNext(j, Window(j.rounds, e0, m), k, x, j.world, e0, i);
    WindowNext(j.rounds, e0, m);
    HeldAtLast(j, e0, x, j.world, i);
  }

  /** In every reachable state, once a rank has run a whole turn, its own words and those its last
      K2 read add up to the sum of what all ranks brought to the turn. */
  lemma EveryTurnReduces(j: Job, ss: seq<seq<Rank>>, ms: seq<Move>, k: nat, e0: nat, x: nat, i: nat)
    requires IsRun(j, ss, ms) && NoFalseTail(j) && k <= |ms| && Doubles(j) && Accumulates(j, e0)
    requires x < j.world == |ss[k]| && 0 < e0 && e0 + j.rounds - 1 <= ss[k][x].k2 && i < j.len(e0)
    ensures var e := e0 + j.rounds - 1;
            && e <= |ss[k][x].reduced| && |ss[k][x].reduced[e - 1]| == |j.data(x, e)| == j.len(e0)
            && j.data(x, e)[i] + ss[k][x].reduced[e - 1][i] == Total(j, j.world, e0, i)
  {
    TransportSafe(j, ss, ms, k);
    TurnSums(j, e0, x, i);
  }

  // ------------------------------------------------------------------ a job that goes wrong

  /** Four ranks in two rounds. Epoch 1 carries two words, the second of which is 9; every other
      epoch carries one. */
  function MixedJob(): Job {
    Job(4, 2, (x, k) => if x < 4 && k < 2 then Meets(x, k) else 0, 4,
        e => if e == 1 then 2 else 1, (x, e) => if e == 1 then [7, 9] else [5])
  }

  lemma MixedJobOk()
    ensures JobOk(MixedJob()) && Doubles(MixedJob())
  {
    var j := MixedJob();
    WorldIs(2);
    hide Meets, World;
    forall x: nat, k: nat | x < j.world && k < j.rounds ensures Mutual(j, x, k) {
      DoublesMutual(j, x, k);
    }
  }

  /** Its ninth epoch can be consumed before any of its words arrived. */
  lemma StaleTailTaken()
    ensures JobOk(MixedJob()) && !NwayExact.AllTrusted(MixedJob())
  {
    var j := MixedJob();
    MixedJobOk();
    assert FalseTail(j, 0, 1, 9);
    NwayExact.FalseTailErrs(j, 0, 1, 9);
  }
}
