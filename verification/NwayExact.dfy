// When a tail word can be trusted at any number of ranks: exactly for jobs that leave no false tails.
// A healthy group of ranks is driven barrier by barrier up to any epoch.

module NwayExact {
  import opened NwaySafety
  import RecursiveDoubling

  ghost predicate Reach(j: Job, s: seq<Rank>) {
    exists ss, ms :: EndsIn(j, ss, ms, s)
  }

  ghost predicate EndsIn(j: Job, ss: seq<seq<Rank>>, ms: seq<Move>, s: seq<Rank>) {
    IsRun(j, ss, ms) && ss[|ms|] == s
  }

  lemma ReachNext(j: Job, s: seq<Rank>, m: Move)
    requires JobOk(j) && Reach(j, s) && Enabled(j, s, m)
    ensures Reach(j, Next(j, s, m))
  {
    hide Enabled, Next;
    var ss, ms :| EndsIn(j, ss, ms, s);
    var ss', ms' := ss + [Next(j, s, m)], ms + [m];
    forall k | 0 <= k < |ms'| ensures Follows(j, ss', ms', k) {
      if k < |ms| {
        assert Follows(j, ss, ms, k);
      }
    }
    assert EndsIn(j, ss', ms', Next(j, s, m));
  }

  /** Reachable, and everything consumed had arrived. */
  ghost predicate Live(j: Job, s: seq<Rank>) {
    JobOk(j) && Reach(j, s) && Good(j, s)
  }

  lemma LiveNext(j: Job, s: seq<Rank>, m: Move) returns (s': seq<Rank>)
    requires Live(j, s) && Enabled(j, s, m) && Backed(j, s, m)
    ensures Live(j, s') && s' == Next(j, s, m)
  {
    hide Good, Enabled, Next, Backed;
    s' := Next(j, s, m);
    ReachNext(j, s, m);
    MoveKeeps(j, s, m);
  }

  /** The few facts of a live state a single step needs. */
  lemma LiveShape(j: Job, s: seq<Rank>, x: nat)
    requires Live(j, s) && x < |s|
    ensures |s| == j.world && ShapedAll(j, s) && Shaped(j, s[x]) && RankOk(j, x, s[x])
  {
  }

  // ------------------------------------------------------------------ one rank's part of a barrier

  /** Everything but the receive ring and the hints. */
  ghost predicate SameBut(a: Rank, a': Rank) {
    a' == a.(recv := a'.recv, heard := a'.heard) && a.heard <= a'.heard
  }

  /** Only rank x moved, and others at most received. */
  ghost predicate OnlyMoved(j: Job, s: seq<Rank>, s': seq<Rank>, x: nat) {
    |s| == |s'| && forall u: nat :: u < |s| && u != x ==> SameBut(s[u], s'[u])
  }

  /** Rank x runs K1 of epoch n + 1 and its proxy posts it. */
  lemma Publish(j: Job, s: seq<Rank>, x: nat, n: nat) returns (s': seq<Rank>)
    requires Live(j, s) && x < |s| && s[x].k1 == s[x].k2 == |s[x].placed| == n
    requires n + 1 > R ==> n + 1 - R in s[x].retired
    ensures Live(j, s') && OnlyMoved(j, s, s', x)
    ensures var a, a' := s[x], s'[x];
            && a'.k1 == n + 1 && a'.k2 == n && a'.placed == a.placed + [{}] && a'.retired == a.retired
            && a'.heard == a.heard
  {
    LiveShape(j, s, x);
    hide Good, RankOk;
    var s1 := LiveNext(j, s, Move(x, DoK1));
    LiveShape(j, s1, x);
    hide RankOk;
    s' := LiveNext(j, s1, Move(x, DoPost));
  }

  function Upto(m: nat): (r: set<nat>)
    ensures forall i: nat :: i in r <==> i < m
  {
    if m == 0 then {} else Upto(m - 1) + {m - 1}
  }

  /** The NIC places the first m words of the newest epoch. */
  lemma {:induction false} WordsOne(j: Job, s: seq<Rank>, x: nat, n: nat, m: nat) returns (s': seq<Rank>)
    requires Live(j, s) && x < |s| && |s[x].placed| == n + 1 && s[x].placed[n] == {} && m <= j.len(n + 1) + 1
    ensures Live(j, s') && OnlyMoved(j, s, s', x)
    ensures s'[x] == s[x].(placed := s[x].placed[n := Upto(m)], recv := s'[x].recv)
    decreases m
  {
    hide Good, RankOk, Shaped;
    if m == 0 {
      s' := s;
      assert Upto(0) == {} && s[x].placed[n := s[x].placed[n]] == s[x].placed;
    } else {
      var s1 := WordsOne(j, s, x, n, m - 1);
      LiveShape(j, s1, x);
      assert Upto(m - 1) + {m - 1} == Upto(m) && m - 1 !in Upto(m - 1);
      assert CanPlace(j, s1[x], n + 1, m - 1);
      assert Mutual(j, x, Round(j, n + 1));
      s' := LiveNext(j, s1, Move(x, DoPlace(n + 1, m - 1)));
      assert s'[x].placed == s1[x].placed[n := Upto(m)];
    }
  }

  /** The commit hint of rank x's epoch e has landed at its partner. */
  ghost predicate Informed(j: Job, s: seq<Rank>, x: nat, e: nat)
    requires j.rounds > 0
  {
    PeerOf(j, x, e) < |s| && e in s[PeerOf(j, x, e)].heard
  }

  /** A freshly posted epoch is announced, travels whole and retires. */
  lemma Travel(j: Job, s: seq<Rank>, x: nat, n: nat) returns (s': seq<Rank>)
    requires Live(j, s) && x < |s| && |s[x].placed| == n + 1 && s[x].placed[n] == {}
    ensures Live(j, s') && OnlyMoved(j, s, s', x) && TailPlaced(j, s'[x], n + 1)
    ensures Informed(j, s', x, n + 1)
    ensures var a, a' := s[x], s'[x];
            a'.k1 == a.k1 && a'.k2 == a.k2 && |a'.placed| == n + 1 && a'.retired == a.retired + {n + 1} && a'.heard == a.heard
  {
    hide Good, RankOk, Shaped;
    LiveShape(j, s, x);
    assert Mutual(j, x, Round(j, n + 1));
    var s1 := LiveNext(j, s, Move(x, DoCommit(n + 1)));
    var s2 := WordsOne(j, s1, x, n, j.len(n + 1) + 1);
    LiveShape(j, s2, x);
    s' := LiveNext(j, s2, Move(x, DoRetire(n + 1)));
  }

  /** A rank consumes an epoch that was announced and arrived whole. */
  lemma Consume(j: Job, s: seq<Rank>, y: nat, n: nat) returns (s': seq<Rank>)
    requires Live(j, s) && y < |s| && s[y].k1 == n + 1 && s[y].k2 == n && n + 1 in s[y].heard
    requires PeerOf(j, y, n + 1) < |s| && TailPlaced(j, s[PeerOf(j, y, n + 1)], n + 1)
    ensures Live(j, s') && |s'| == |s| && (forall u: nat :: u < |s| && u != y ==> s'[u] == s[u])
    ensures var a, a' := s[y], s'[y];
            a'.k1 == a'.k2 == n + 1 && a'.placed == a.placed && a'.retired == a.retired && a'.heard == a.heard
  {
    LiveShape(j, s, y);
    var x, e := PeerOf(j, y, n + 1), n + 1;
    Ends(j, s, y, Round(j, e));
    assert Linked(j, x, y, s[x], s[y], e);
    hide Good, RankOk, PairOk, Shaped, Linked;
    TailMeans(j, x, y, s[x], s[y], e);
    assert Hinted(j, s[y], e);
    s' := LiveNext(j, s, Move(y, DoK2));
  }

  // ------------------------------------------------------------------ any number of barriers

  /** Between barriers: n epochs run, posted and retired. */
  ghost predicate Rests(a: Rank, n: nat) {
    a.k1 == a.k2 == |a.placed| == n && forall e: nat :: 0 < e <= n ==> e in a.retired
  }

  /** Epoch n + 1 is published by this rank, sent whole and retired. */
  ghost predicate Sent(j: Job, a: Rank, n: nat) {
    && a.k1 == |a.placed| == n + 1 && a.k2 == n && TailPlaced(j, a, n + 1)
    && forall e: nat :: 0 < e <= n + 1 ==> e in a.retired
  }

  /** In mid-barrier: the first c ranks sent epoch n + 1, and their partners heard of it. */
  ghost predicate Sending(j: Job, s: seq<Rank>, n: nat, c: nat)
    requires j.rounds > 0
  {
    && |s| == j.world && c <= |s|
    && (forall x: nat :: x < c ==> Sent(j, s[x], n) && Informed(j, s, x, n + 1))
    && (forall x: nat :: c <= x < |s| ==> Rests(s[x], n))
  }

  /** Rank c sent its epoch and the others at most received. */
  lemma SentNext(j: Job, s: seq<Rank>, s': seq<Rank>, n: nat, c: nat)
    requires j.rounds > 0 && Sending(j, s, n, c) && c < j.world && OnlyMoved(j, s, s', c) && s[c].heard <= s'[c].heard
    requires Sent(j, s'[c], n) && Informed(j, s', c, n + 1)
    ensures Sending(j, s', n, c + 1)
  {
    hide Round, Informed, Sent;
    forall x: nat | x < c ensures Sent(j, s'[x], n) && Informed(j, s', x, n + 1) {
      SentStays(j, s, s', n, x, c);
    }
    forall x: nat | c + 1 <= x < |s'| ensures Rests(s'[x], n) {
      assert SameBut(s[x], s'[x]);
    }
  }

  lemma SentStays(j: Job, s: seq<Rank>, s': seq<Rank>, n: nat, x: nat, c: nat)
    requires j.rounds > 0 && x < |s| && x != c < |s| && OnlyMoved(j, s, s', c) && s[c].heard <= s'[c].heard
    requires Sent(j, s[x], n) && Informed(j, s, x, n + 1)
    ensures Sent(j, s'[x], n) && Informed(j, s', x, n + 1)
  {
    hide Round, TailPlaced;
    assert SameBut(s[x], s'[x]);
    assert PeerOf(j, x, n + 1) != c ==> SameBut(s[PeerOf(j, x, n + 1)], s'[PeerOf(j, x, n + 1)]);
    TailStays(j, s[x], s'[x], n + 1);
  }

  lemma TailStays(j: Job, a: Rank, a': Rank, e: nat)
    requires SameBut(a, a') && TailPlaced(j, a, e)
    ensures TailPlaced(j, a', e)
  {
  }


  lemma MovedTwice(j: Job, s: seq<Rank>, s1: seq<Rank>, s': seq<Rank>, x: nat)
    requires OnlyMoved(j, s, s1, x) && OnlyMoved(j, s1, s', x)
    ensures OnlyMoved(j, s, s', x)
  {
    forall u: nat | u < |s| && u != x ensures SameBut(s[u], s'[u]) {
      assert SameBut(s[u], s1[u]) && SameBut(s1[u], s'[u]);
    }
  }

  lemma SendOne(j: Job, s: seq<Rank>, n: nat, c: nat) returns (s': seq<Rank>)
    requires Live(j, s) && Sending(j, s, n, c) && c < j.world
    ensures Live(j, s') && Sending(j, s', n, c + 1)
  {
    hide Good, Reach, Informed, TailPlaced, Round;
    var s1 := Publish(j, s, c, n);
    s' := Travel(j, s1, c, n);
    MovedTwice(j, s, s1, s', c);
    SentNext(j, s, s', n, c);
  }

  lemma {:induction false} SendAll(j: Job, s: seq<Rank>, n: nat, c: nat) returns (s': seq<Rank>)
    requires Live(j, s) && Sending(j, s, n, 0) && c <= j.world
    ensures Live(j, s') && Sending(j, s', n, c)
    decreases c
  {
    hide Live, Sending;
    if c == 0 {
      s' := s;
    } else {
      var s1 := SendAll(j, s, n, c - 1);
      s' := SendOne(j, s1, n, c - 1);
    }
  }

  /** The first c ranks consumed epoch n + 1, the others are about to. */
  ghost predicate Consuming(j: Job, s: seq<Rank>, n: nat, c: nat)
    requires j.rounds > 0
  {
    && |s| == j.world && c <= |s|
    && (forall x: nat :: x < |s| ==> TailPlaced(j, s[x], n + 1) && n + 1 in s[x].heard)
    && (forall x: nat :: x < c ==> Rests(s[x], n + 1))
    && (forall x: nat :: c <= x < |s| ==> Sent(j, s[x], n))
  }

  lemma AllSent(j: Job, s: seq<Rank>, n: nat)
    requires JobOk(j) && Sending(j, s, n, j.world)
    ensures Consuming(j, s, n, 0)
  {
    forall y: nat | y < |s| ensures n + 1 in s[y].heard {
      assert Mutual(j, y, Round(j, n + 1));
      var x := PeerOf(j, y, n + 1);
      assert PeerOf(j, x, n + 1) == y && Informed(j, s, x, n + 1);
    }
  }

  lemma ConsumeOne(j: Job, s: seq<Rank>, n: nat, c: nat) returns (s': seq<Rank>)
    requires Live(j, s) && Consuming(j, s, n, c) && c < j.world
    ensures Live(j, s') && Consuming(j, s', n, c + 1)
  {
    assert Mutual(j, c, Round(j, n + 1));
    s' := Consume(j, s, c, n);
    ConsumedNext(j, s, s', n, c);
  }

  /** Rank c consumed its epoch and nothing else moved. */
  lemma ConsumedNext(j: Job, s: seq<Rank>, s': seq<Rank>, n: nat, c: nat)
    requires j.rounds > 0 && Consuming(j, s, n, c) && c < j.world && |s'| == |s|
    requires forall u: nat :: u < |s| && u != c ==> s'[u] == s[u]
    requires var a, a' := s[c], s'[c]; a'.k1 == a'.k2 == n + 1 && a'.placed == a.placed && a'.retired == a.retired && a'.heard == a.heard
    ensures Consuming(j, s', n, c + 1)
  {
  }

  lemma {:induction false} ConsumeAll(j: Job, s: seq<Rank>, n: nat, c: nat) returns (s': seq<Rank>)
    requires Live(j, s) && Consuming(j, s, n, 0) && c <= j.world
    ensures Live(j, s') && Consuming(j, s', n, c)
    decreases c
  {
    hide Live, Consuming;
    if c == 0 {
      s' := s;
    } else {
      var s1 := ConsumeAll(j, s, n, c - 1);
      s' := ConsumeOne(j, s1, n, c - 1);
    }
  }

  ghost predicate AllRest(j: Job, s: seq<Rank>, n: nat) {
    |s| == j.world && forall x: nat :: x < |s| ==> Rests(s[x], n)
  }

  lemma StartLive(j: Job)
    requires JobOk(j)
    ensures Live(j, Start(j))
  {
    StartGood(j);
    assert EndsIn(j, [Start(j)], [], Start(j));
  }

  lemma OneBarrier(j: Job, s: seq<Rank>, n: nat) returns (s': seq<Rank>)
    requires Live(j, s) && AllRest(j, s, n)
    ensures Live(j, s') && AllRest(j, s', n + 1)
  {
    assert Sending(j, s, n, 0);
    hide Reach, Good, Sending, Rests;
    var s1 := SendAll(j, s, n, j.world);
    AllSent(j, s1, n);
    s' := ConsumeAll(j, s1, n, j.world);
  }

  /** From any job the group can run any number of barriers. */
  lemma {:induction false} Barriers(j: Job, n: nat) returns (s: seq<Rank>)
    requires JobOk(j)
    ensures Live(j, s) && AllRest(j, s, n)
    decreases n
  {
    if n == 0 {
      s := Start(j);
      StartLive(j);
    } else {
      var s1 := Barriers(j, n - 1);
      hide Live, AllRest;
      s := OneBarrier(j, s1, n - 1);
    }
  }

  // ------------------------------------------------------------------ the exact condition

  /** The tail of what rank y consumes in epoch e is in place. */
  ghost predicate Arrived(j: Job, s: seq<Rank>, y: nat, e: nat)
    requires j.rounds > 0
  {
    PeerOf(j, y, e) < |s| && TailPlaced(j, s[PeerOf(j, y, e)], e)
  }

  /** Whatever a rank consumed had its tail in place. */
  ghost predicate Trusted(j: Job, s: seq<Rank>)
    requires j.rounds > 0
  {
    forall y: nat, e: nat :: y < |s| && 0 < e <= s[y].k2 ==> Arrived(j, s, y, e)
  }

  ghost predicate AllTrusted(j: Job)
    requires j.rounds > 0
  {
    forall s :: Reach(j, s) ==> Trusted(j, s)
  }

  /** Epoch e of rank x is announced to its partner, which waits for it, and none of its words has
      landed. */
  lemma Announced(j: Job, x: nat, e: nat) returns (s: seq<Rank>)
    requires JobOk(j) && x < j.world && e > 0
    ensures Live(j, s) && PeerOf(j, x, e) < |s| == j.world && PeerOf(j, x, e) != x && |s[x].placed| == e && s[x].placed[e - 1] == {}
    ensures var y := PeerOf(j, x, e); PeerOf(j, y, e) == x && s[y].k1 == e == s[y].k2 + 1 && e in s[y].heard
  {
    hide Live, Round;
    var y, n := PeerOf(j, x, e), e - 1;
    assert Mutual(j, x, Round(j, e));
    var s0 := Barriers(j, n);
    var s1 := Publish(j, s0, x, n);
    assert SameBut(s0[y], s1[y]);
    var s2 := Publish(j, s1, y, n);
    assert SameBut(s1[x], s2[x]);
    s := Announce(j, s2, x, e);
  }

  /** A false tail stands in for what has not come. */
  lemma AboutToErr(j: Job, x: nat, f: nat, e: nat) returns (s: seq<Rank>)
    requires JobOk(j) && x < j.world && FalseTail(j, x, f, e)
    ensures Live(j, s) && PeerOf(j, x, e) < |s| == j.world && PeerOf(j, x, e) != x && |s[x].placed| == e && s[x].placed[e - 1] == {}
    ensures var y := PeerOf(j, x, e); PeerOf(j, y, e) == x && ShapedAll(j, s) && s[y].k1 == e && CanK2(j, s[y])
  {
    s := Announced(j, x, e);
    hide Live, FalseTail, Round;
    StaleShows(j, s, x, f, e);
  }

  lemma Announce(j: Job, s: seq<Rank>, x: nat, e: nat) returns (s': seq<Rank>)
    requires Live(j, s) && x < |s| && 0 < e <= |s[x].placed| && PeerOf(j, x, e) < |s| && PeerOf(j, x, e) != x
    ensures Live(j, s') && s' == s[PeerOf(j, x, e) := Hear(s[PeerOf(j, x, e)], e)]
  {
    LiveShape(j, s, x);
    hide Good, RankOk, Shaped;
    s' := LiveNext(j, s, Move(x, DoCommit(e)));
  }

  lemma StaleShows(j: Job, s: seq<Rank>, x: nat, f: nat, e: nat)
    requires Live(j, s) && x < |s| && FalseTail(j, x, f, e) && |s[x].placed| == e && s[x].placed[e - 1] == {}
    requires PeerOf(j, x, e) < |s| && s[PeerOf(j, x, e)].k1 == e == s[PeerOf(j, x, e)].k2 + 1 && e in s[PeerOf(j, x, e)].heard
    ensures ShapedAll(j, s) && CanK2(j, s[PeerOf(j, x, e)])
  {
    var y := PeerOf(j, x, e);
    Ends(j, s, x, Round(j, e));
    assert Linked(j, x, y, s[x], s[y], e);
    LiveShape(j, s, x);
    hide Good, RankOk, PairOk, Shaped, Linked, FalseTail;
    TailMeans(j, x, y, s[x], s[y], e);
    assert Hinted(j, s[y], e);
  }

  lemma FalseTailErrs(j: Job, x: nat, f: nat, e: nat)
    requires JobOk(j) && x < j.world && FalseTail(j, x, f, e)
    ensures !AllTrusted(j)
  {
    var s := AboutToErr(j, x, f, e);
    var y := PeerOf(j, x, e);
    hide Good, FalseTail, Round, IsRun;
    var m := Move(y, DoK2);
    ReachNext(j, s, m);
    var s' := Next(j, s, m);
    assert s'[y].k2 == e && s'[x] == s[x] && !Arrived(j, s', y, e);
  }

  lemma GoodIsTrusted(j: Job, s: seq<Rank>)
    requires JobOk(j) && Good(j, s)
    ensures Trusted(j, s)
  {
    forall y: nat, e: nat | y < |s| && 0 < e <= s[y].k2 ensures Arrived(j, s, y, e) {
      Ends(j, s, y, Round(j, e));
      assert Consumed(j, PeerOf(j, y, e), s[PeerOf(j, y, e)], s[y], e);
    }
  }

  /** At any number of ranks, nothing is consumed before it arrived, in any reachable state, exactly
      for jobs in which no word left by an older, longer payload reads as a later tail. */
  lemma TailsTrustedExactly(j: Job)
    requires JobOk(j)
    ensures AllTrusted(j) <==> NoFalseTail(j)
  {
    if NoFalseTail(j) {
      forall s | Reach(j, s) ensures Trusted(j, s) {
        var ss, ms :| EndsIn(j, ss, ms, s);
        EveryRunIsGood(j, ss, ms, |ms|);
        GoodIsTrusted(j, s);
      }
    } else {
      var x: nat, f: nat, e: nat :| x < j.world && FalseTail(j, x, f, e);
      FalseTailErrs(j, x, f, e);
    }
  }
}
