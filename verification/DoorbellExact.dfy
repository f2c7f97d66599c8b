// When an arrived tail word can be trusted: exactly for jobs that leave no false tails. A healthy
// link is driven barrier by barrier up to any epoch, and a false tail then passes for a real one.

module DoorbellExact {
  import opened Doorbell
  import opened DoorbellSafety

  ghost predicate Reach(j: Job, s: Pair) {
    exists ss, ms :: EndsIn(j, ss, ms, s)
  }

  ghost predicate EndsIn(j: Job, ss: seq<Pair>, ms: seq<Move>, s: Pair) {
    IsRun(j, ss, ms) && ss[|ms|] == s
  }

  lemma ReachNext(j: Job, s: Pair, m: Move)
    requires JobOk(j) && Reach(j, s) && Enabled(j, s, m)
    ensures Reach(j, Next(j, s, m))
  {
    var ss, ms :| EndsIn(j, ss, ms, s);
    var ss', ms' := ss + [Next(j, s, m)], ms + [m];
    forall k | 0 <= k < |ms'| ensures Follows(j, ss', ms', k) {
      if k < |ms| {
        assert Follows(j, ss, ms, k);
      }
    }
    assert EndsIn(j, ss', ms', Next(j, s, m));
  }

  // ------------------------------------------------------------------ one barrier of a healthy link

  /** Reachable, and everything taken for arrived has arrived. */
  ghost predicate Live(j: Job, s: Pair) {
    JobOk(j) && Reach(j, s) && Good(j, 0, s.a, s.b)
  }

  function Mine(s: Pair, x: nat): Rank {
    if x == 0 then s.a else s.b
  }

  function Peer(s: Pair, x: nat): Rank {
    if x == 0 then s.b else s.a
  }

  lemma LiveEither(j: Job, s: Pair, x: nat)
    requires Live(j, s) && x < 2
    ensures Good(j, x, Mine(s, x), Peer(s, x)) && Good(j, 1 - x, Peer(s, x), Mine(s, x))
  {
    GoodSwaps(j, 0, s.a, s.b);
  }

  /** The few facts of a live state a single step needs. */
  lemma LiveShape(j: Job, s: Pair, x: nat)
    requires Live(j, s) && x < 2
    ensures var a := Mine(s, x);
            && Shaped(j, a) && Shaped(j, Peer(s, x)) && a.tx.posted == |a.tx.placed|
            && forall k :: 0 <= k < |a.tx.placed| ==> a.tx.placed[k].len == j.len(k + 1)
  {
    LiveEither(j, s, x);
    var a := Mine(s, x);
    forall k | 0 <= k < |a.tx.placed| ensures a.tx.placed[k].len == j.len(k + 1) {
      assert PlacedOk(j.len(k + 1), a.tx.placed[k]);
    }
  }

  lemma LiveNext(j: Job, s: Pair, x: nat, t: Step) returns (s': Pair)
    requires Live(j, s) && x < 2 && Shaped(j, Mine(s, x)) && Shaped(j, Peer(s, x))
    requires Can(j, Mine(s, x), Peer(s, x), t) && Backed(Mine(s, x), Peer(s, x), t)
    ensures Live(j, s') && (Mine(s', x), Peer(s', x)) == Act(j, x, Mine(s, x), Peer(s, x), t)
  {
    var m := Move(x, t);
    hide Good, Can, Act, Backed;
    s' := Next(j, s, m);
    ReachNext(j, s, m);
    MoveKeeps(j, s, m);
  }

  lemma Publish(j: Job, s: Pair, x: nat, n: nat) returns (s': Pair)
    requires Live(j, s) && x < 2
    requires Mine(s, x).k1 == Mine(s, x).k2 == Mine(s, x).tx.retired == n
    ensures Live(j, s') && Mine(s', x) == K1(j, x, Mine(s, x)) && Peer(s', x) == Peer(s, x)
  {
    LiveShape(j, s, x);
    hide Good;
    s' := LiveNext(j, s, x, DoK1);
  }

  lemma PostOne(j: Job, s: Pair, x: nat, n: nat) returns (s': Pair)
    requires Live(j, s) && x < 2 && Mine(s, x).k1 == n + 1 && Mine(s, x).tx.posted == n
    ensures Live(j, s') && Peer(s', x) == Peer(s, x)
    ensures var a, a' := Mine(s, x), Mine(s', x);
            a' == a.(tx := a.tx.(posted := n + 1, placed := a.tx.placed + [Placed(j.len(n + 1), false, {}, false)]))
  {
    LiveEither(j, s, x);
    var a, e := Mine(s, x), n + 1;
    assert a.tx.lenLocal[e % LEN_EPOCHS] == Tag(e, j.len(e));
    s' := LiveNext(j, s, x, DoPost);
  }

  /** A placement changes one posted record of the sender and what the receiver holds. */
  ghost predicate Touches(a: Rank, b: Rank, a': Rank, b': Rank, n: nat, p: Placed) {
    && n < |a.tx.placed| && a' == a.(tx := a.tx.(placed := a.tx.placed[n := p]))
    && b' == b.(rx := b.rx.(recv := b'.rx.recv, lenPeer := b'.rx.lenPeer, committed := b'.rx.committed))
  }

  lemma CommitOne(j: Job, s: Pair, x: nat, n: nat) returns (s': Pair)
    requires Live(j, s) && x < 2 && |Mine(s, x).tx.placed| == n + 1 && !Mine(s, x).tx.placed[n].commit
    ensures Live(j, s') && Peer(s', x).rx.committed == n + 1
    ensures Touches(Mine(s, x), Peer(s, x), Mine(s', x), Peer(s', x), n, Mine(s, x).tx.placed[n].(commit := true))
  {
    hide Good;
    LiveShape(j, s, x);
    s' := LiveNext(j, s, x, DoCommit(n + 1));
  }

  lemma TagOne(j: Job, s: Pair, x: nat, n: nat) returns (s': Pair)
    requires Live(j, s) && x < 2 && |Mine(s, x).tx.placed| == n + 1 && !Mine(s, x).tx.placed[n].tag
    ensures Live(j, s') && Peer(s', x).rx.committed == Peer(s, x).rx.committed
    ensures Touches(Mine(s, x), Peer(s, x), Mine(s', x), Peer(s', x), n, Mine(s, x).tx.placed[n].(tag := true))
  {
    hide Good;
    LiveShape(j, s, x);
    s' := LiveNext(j, s, x, DoTag(n + 1));
  }

  function Upto(m: nat): (r: set<nat>)
    ensures forall i: nat :: i in r <==> i < m
  {
    if m == 0 then {} else Upto(m - 1) + {m - 1}
  }

  lemma {:induction false} WordsOne(j: Job, s: Pair, x: nat, n: nat, m: nat) returns (s': Pair)
    requires Live(j, s) && x < 2 && |Mine(s, x).tx.placed| == n + 1 && Mine(s, x).tx.placed[n].words == {}
    requires m <= Mine(s, x).tx.placed[n].len + 1
    ensures Live(j, s') && Peer(s', x).rx.committed == Peer(s, x).rx.committed
    ensures Touches(Mine(s, x), Peer(s, x), Mine(s', x), Peer(s', x), n, Mine(s, x).tx.placed[n].(words := Upto(m)))
    decreases m
  {
    hide Good;
    if m == 0 {
      s' := s;
      assert Upto(0) == {} && Mine(s, x).tx.placed[n := Mine(s, x).tx.placed[n]] == Mine(s, x).tx.placed;
    } else {
      var s1 := WordsOne(j, s, x, n, m - 1);
      LiveShape(j, s1, x);
      var p := Mine(s1, x).tx.placed[n];
      assert Upto(m - 1) + {m - 1} == Upto(m) && m - 1 !in Upto(m - 1);
      assert CanPlaceWord(Mine(s1, x), n + 1, m - 1);
      s' := LiveNext(j, s1, x, DoWord(n + 1, m - 1));
      assert Mine(s', x).tx.placed == Mine(s1, x).tx.placed[n := p.(words := Upto(m))];
    }
  }

  /** A freshly posted epoch travels whole and retires. */
  lemma Travel(j: Job, s: Pair, x: nat, n: nat) returns (s': Pair)
    requires Live(j, s) && x < 2 && Mine(s, x).k1 == Mine(s, x).tx.posted == n + 1 && Mine(s, x).tx.retired == n
    requires |Mine(s, x).tx.placed| == n + 1 && Mine(s, x).tx.placed[n] == Placed(j.len(n + 1), false, {}, false)
    ensures Live(j, s') && |Mine(s', x).tx.placed| == n + 1 && Peer(s', x).rx.committed == n + 1 && TailPlaced(Mine(s', x), n + 1)
    ensures Mine(s', x) == Mine(s, x).(tx := Mine(s, x).tx.(retired := n + 1, placed := Mine(s', x).tx.placed))
    ensures var b, b' := Peer(s, x), Peer(s', x); b'.tx == b.tx && b'.k1 == b.k1 && b'.k2 == b.k2 && b'.rx.proved == b.rx.proved
  {
    hide Good;
    var s1 := CommitOne(j, s, x, n);
    var s2 := TagOne(j, s1, x, n);
    var s3 := WordsOne(j, s2, x, n, j.len(n + 1) + 1);
    LiveShape(j, s3, x);
    LiveShape(j, s, x);
    var p := Mine(s3, x).tx.placed[n];
    assert p == Placed(j.len(n + 1), true, Upto(j.len(n + 1) + 1), true);
    assert Complete(p);
    s' := LiveNext(j, s3, x, DoRetire(n + 1));
  }

  /** The receiver proves and consumes an epoch that arrived whole. */
  lemma Consume(j: Job, s: Pair, x: nat, n: nat) returns (s': Pair)
    requires Live(j, s) && x < 2 && Mine(s, x).k1 == n + 1 && Mine(s, x).k2 == Mine(s, x).rx.proved == n
    requires Mine(s, x).rx.committed == n + 1 && TailPlaced(Peer(s, x), n + 1)
    ensures Live(j, s') && Peer(s', x) == Peer(s, x)
    ensures var a, a' := Mine(s, x), Mine(s', x);
            a'.tx == a.tx && a'.k1 == a'.k2 == a'.rx.proved == n + 1
  {
    hide Good;
    LiveEither(j, s, x);
    LiveShape(j, s, x);
    TailMeans(j, 1 - x, Peer(s, x), Mine(s, x), n + 1);
    var s1 := LiveNext(j, s, x, DoProve);
    LiveShape(j, s1, x);
    s' := LiveNext(j, s1, x, DoK2);
  }

  // ------------------------------------------------------------------ any number of barriers

  /** Between barriers: n epochs run, posted, retired and proved. */
  ghost predicate Rests(a: Rank, n: nat) {
    a.k1 == a.k2 == a.tx.posted == a.tx.retired == a.rx.proved == |a.tx.placed| == n
  }

  /** Both ranks published epoch n + 1 and rank x posted it. */
  lemma Publishes(j: Job, s: Pair, x: nat, n: nat) returns (s': Pair)
    requires Live(j, s) && x < 2 && Rests(s.a, n) && Rests(s.b, n)
    ensures Live(j, s')
    ensures var a, b := Mine(s', x), Peer(s', x);
            && a.k1 == b.k1 == a.tx.posted == |a.tx.placed| == n + 1 && b.tx.posted == |b.tx.placed| == n
            && a.k2 == b.k2 == a.tx.retired == b.tx.retired == a.rx.proved == b.rx.proved == n
            && a.tx.placed[n] == Placed(j.len(n + 1), false, {}, false)
  {
    LiveEither(j, s, x);
    var s1 := Publish(j, s, x, n);
    LiveEither(j, s1, 1 - x);
    var s2 := Publish(j, s1, 1 - x, n);
    s' := PostOne(j, s2, x, n);
  }

  lemma Barrier(j: Job, s: Pair, n: nat) returns (s': Pair)
    requires Live(j, s) && Rests(s.a, n) && Rests(s.b, n)
    ensures Live(j, s') && Rests(s'.a, n + 1) && Rests(s'.b, n + 1)
  {
    hide Good;
    var s1 := Publishes(j, s, 0, n);
    var s2 := PostOne(j, s1, 1, n);
    var s3 := Travel(j, s2, 0, n);
    var s4 := Travel(j, s3, 1, n);
    var s5 := Consume(j, s4, 0, n);
    s' := Consume(j, s5, 1, n);
  }

  lemma IdleLive(j: Job)
    requires JobOk(j)
    ensures Live(j, Pair(Idle(j), Idle(j)))
  {
    var s := Pair(Idle(j), Idle(j));
    assert EndsIn(j, [s], [], s);
  }

  lemma {:induction false} Barriers(j: Job, n: nat) returns (s: Pair)
    requires JobOk(j)
    ensures Live(j, s) && Rests(s.a, n) && Rests(s.b, n)
    decreases n
  {
    if n == 0 {
      s := Pair(Idle(j), Idle(j));
      IdleLive(j);
    } else {
      var s1 := Barriers(j, n - 1);
      s := Barrier(j, s1, n - 1);
    }
  }

  // ------------------------------------------------------------------ the exact condition

  /** Rank x's epoch e is announced, none of its words has landed, and a false tail stands in. */
  lemma AboutToErr(j: Job, x: nat, f: nat, e: nat) returns (s: Pair)
    requires JobOk(j) && x < 2 && FalseTail(j, x, f, e)
    ensures Live(j, s) && Peer(s, x).k1 == e == Peer(s, x).k2 + 1 && CanProve(j, Peer(s, x))
    ensures |Mine(s, x).tx.placed| == e && Mine(s, x).tx.placed[e - 1].words == {}
  {
    hide Good;
    var s0 := Barriers(j, e - 1);
    var s1 := Publishes(j, s0, x, e - 1);
    s := CommitOne(j, s1, x, e - 1);
    LiveEither(j, s, x);
    LiveShape(j, s, x);
    TailMeans(j, x, Mine(s, x), Peer(s, x), e);
  }

  /** Whatever a rank's proxy or kernel took for arrived has its tail in place. */
  ghost predicate Trusted(a: Rank, b: Rank) {
    forall e: nat :: 0 < e <= b.rx.checked || 0 < e <= b.rx.proved ==> TailPlaced(a, e)
  }

  ghost predicate AllTrusted(j: Job) {
    forall s :: Reach(j, s) ==> Trusted(s.a, s.b) && Trusted(s.b, s.a)
  }

  lemma FalseTailErrs(j: Job, x: nat, f: nat, e: nat)
    requires JobOk(j) && x < 2 && FalseTail(j, x, f, e)
    ensures !AllTrusted(j)
  {
    var s := AboutToErr(j, x, f, e);
    LiveEither(j, s, x);
    var m := Move(1 - x, DoProve);
    ReachNext(j, s, m);
    var s' := Next(j, s, m);
    assert Peer(s', x).rx.proved == e && !TailPlaced(Mine(s', x), e);
  }

  /** The tail word is a proof of arrival in every reachable state exactly for jobs in which no
      word left by an older, longer payload can be read as a later tail. */
  lemma TailsTrustedExactly(j: Job)
    requires JobOk(j)
    ensures AllTrusted(j) <==> NoFalseTail(j)
  {
    if NoFalseTail(j) {
      forall s | Reach(j, s) ensures Trusted(s.a, s.b) && Trusted(s.b, s.a) {
        var ss, ms :| EndsIn(j, ss, ms, s);
        EveryRunIsGood(j, ss, ms, |ms|);
      }
    } else {
      var x: nat, f: nat, e: nat :| x < 2 && FalseTail(j, x, f, e);
      FalseTailErrs(j, x, f, e);
    }
  }

  /** Epoch 1 carries two words, the second of which is 9; every other epoch carries one. */
  function MixedJob(): Job {
    Job(4, e => if e == 1 then 2 else 1, (x, e) => if e == 1 then [7, 9] else [5])
  }

  lemma MixedSlot(s: Pair)
    requires Live(MixedJob(), s) && s.b.k2 == 8 && |s.a.tx.placed| == 9 && s.a.tx.placed[8].words == {}
    ensures Shaped(MixedJob(), s.b) && |s.b.reduced| == 8 && s.b.rx.recv[1][0] == 7
  {
    var j, w := MixedJob(), s.b.rx.recv[1][0];
    assert From(j, 0, s.a, 1, 0, w);
    ConsumedPlaced(j, 0, s.a, s.b, 1, 0);
    hide Good;
    var e: nat :| CameFrom(j, 0, s.a, 1, 0, w, e);
    assert e == 1;
  }

  /** With mixed lengths a reduction can read another epoch's words: a concrete job and run. */
  lemma StaleTailMisreads()
    ensures exists s :: Reach(MixedJob(), s) && |s.b.reduced| == 9 && s.b.reduced[8] != MixedJob().data(0, 9)
  {
    var j := MixedJob();
    assert FalseTail(j, 0, 1, 9);
    var s := AboutToErr(j, 0, 1, 9);
    MixedSlot(s);
    LiveShape(j, s, 1);
    hide Good, IsRun, FalseTail, Live, CanProve;
    ReadsNow(j, s);
  }

  /** A rank that may prove its epoch goes on to read whatever its slot holds. */
  lemma ReadsNow(j: Job, s: Pair)
    requires JobOk(j) && Reach(j, s) && Shaped(j, s.a) && Shaped(j, s.b) && CanProve(j, s.b)
    ensures exists s' :: Reach(j, s') && |s'.b.reduced| == |s.b.reduced| + 1
              && s'.b.reduced[|s.b.reduced|] == s.b.rx.recv[s.b.k1 % R][..j.len(s.b.k1)]
  {
    var m1, m2 := Move(1, DoProve), Move(1, DoK2);
    hide Reach;
    ReachNext(j, s, m1);
    var s1 := Next(j, s, m1);
    ReachNext(j, s1, m2);
    assert Next(j, s1, m2).b.reduced[|s.b.reduced|] == s.b.rx.recv[s.b.k1 % R][..j.len(s.b.k1)];
  }
}
