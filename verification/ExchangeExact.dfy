// When a returned exchange can be trusted: always for slots that are wiped, and for the two-rank
// slots that are not exactly for jobs that leave no false tags. A healthy link is driven exchange
// by exchange up to any generation, and a false tag then returns an older frame's words.

module ExchangeExact {
  import opened Exchange

  ghost predicate Reach(j: Job, s: Pair) {
    exists ss, ms :: EndsIn(j, ss, ms, s)
  }

  ghost predicate EndsIn(j: Job, ss: seq<Pair>, ms: seq<Move>, s: Pair) {
    IsRun(j, ss, ms) && ss[|ms|] == s
  }

  lemma ReachNext(j: Job, s: Pair, m: Move)
    requires JobOk(j) && Reach(j, s) && Enabled(j, s, m)
    ensures Reach(j, Next(j, s, m))
  {
    var ss, ms :| EndsIn(j, ss, ms, s);
    var ss', ms' := ss + [Next(j, s, m)], ms + [m];
    forall k | 0 <= k < |ms'| ensures Follows(j, ss', ms', k) {
      if k < |ms| {
        assert Follows(j, ss, ms, k);
      }
    }
    assert EndsIn(j, ss', ms', Next(j, s, m));
  }

  // ------------------------------------------------------------------ one exchange of a healthy link

  /** Reachable, and every frame returned so far had arrived. */
  ghost predicate Live(j: Job, s: Pair) {
    JobOk(j) && Reach(j, s) && Good(j, 0, s.a, s.b) && Good(j, 1, s.b, s.a)
  }

  function Mine(s: Pair, x: nat): Rank {
    if x == 0 then s.a else s.b
  }

  function Peer(s: Pair, x: nat): Rank {
    if x == 0 then s.b else s.a
  }

  lemma LiveEither(j: Job, s: Pair, x: nat)
    requires Live(j, s) && x < 2
    ensures Good(j, x, Mine(s, x), Peer(s, x)) && Good(j, 1 - x, Peer(s, x), Mine(s, x))
  {
  }

  /** The few facts of a live state a single step needs. */
  lemma LiveShape(j: Job, s: Pair, x: nat)
    requires Live(j, s) && x < 2
    ensures var a := Mine(s, x);
            Shaped(j, a) && Shaped(j, Peer(s, x)) && a.gen == |a.placed| && |a.got| == a.done && j.len(a.gen + 1) < |a.stage|
  {
    LiveEither(j, s, x);
  }

  lemma LiveNext(j: Job, s: Pair, x: nat, t: Step) returns (s': Pair)
    requires Live(j, s) && x < 2 && Shaped(j, Mine(s, x)) && Shaped(j, Peer(s, x))
    requires Can(j, x, Mine(s, x), Peer(s, x), t) && Backed(j, Mine(s, x), Peer(s, x), t)
    ensures Live(j, s') && (Mine(s', x), Peer(s', x)) == Act(j, x, Mine(s, x), Peer(s, x), t)
  {
    var m := Move(x, t);
    hide Good, Can, Act, Backed;
    s' := Next(j, s, m);
    ReachNext(j, s, m);
    MoveKeeps(j, s, m);
  }

  lemma StartOne(j: Job, s: Pair, x: nat) returns (s': Pair)
    requires Live(j, s) && x < 2 && CanStart(Mine(s, x))
    ensures Live(j, s') && Peer(s', x) == Peer(s, x)
    ensures var a, a' := Mine(s, x), Mine(s', x);
            a' == a.(gen := a.gen + 1, sent := false, stage := a'.stage, placed := a.placed + [{}])
  {
    LiveShape(j, s, x);
    hide Good;
    s' := LiveNext(j, s, x, DoStart);
  }

  function Upto(m: nat): (r: set<nat>)
    ensures forall i: nat :: i in r <==> i < m
  {
    if m == 0 then {} else Upto(m - 1) + {m - 1}
  }

  /** A placement changes one record of the sender and the receiver's ring. */
  ghost predicate Touches(a: Rank, b: Rank, a': Rank, b': Rank, n: nat, p: set<nat>) {
    n < |a.placed| && a' == a.(placed := a.placed[n := p]) && b' == b.(recv := b'.recv)
  }

  lemma {:induction false} WordsOne(j: Job, s: Pair, x: nat, n: nat, m: nat) returns (s': Pair)
    requires Live(j, s) && x < 2 && |Mine(s, x).placed| == n + 1 && Mine(s, x).placed[n] == {} && m <= j.len(n + 1) + 1
    ensures Live(j, s') && Touches(Mine(s, x), Peer(s, x), Mine(s', x), Peer(s', x), n, Upto(m))
    decreases m
  {
    hide Good;
    if m == 0 {
      s' := s;
      assert Upto(0) == {} && Mine(s, x).placed[n := Mine(s, x).placed[n]] == Mine(s, x).placed;
    } else {
      var s1 := WordsOne(j, s, x, n, m - 1);
      LiveShape(j, s1, x);
      assert Upto(m - 1) + {m - 1} == Upto(m) && m - 1 !in Upto(m - 1);
      assert CanPlace(j, Mine(s1, x), n + 1, m - 1);
      s' := LiveNext(j, s1, x, DoPlace(n + 1, m - 1));
      assert Mine(s', x).placed == Mine(s1, x).placed[n := Upto(m)];
    }
  }

  /** A frame just started travels whole, its send completes and the peer hears of it. */
  lemma Travel(j: Job, s: Pair, x: nat, n: nat) returns (s': Pair)
    requires Live(j, s) && x < 2 && Mine(s, x).gen == n + 1 && !Mine(s, x).sent && Mine(s, x).placed[n..] == [{}]
    ensures Live(j, s') && |Mine(s', x).placed| == n + 1 && TagPlaced(j, Mine(s', x), n + 1)
    ensures Mine(s', x) == Mine(s, x).(sent := true, placed := Mine(s', x).placed)
    ensures Peer(s', x) == Peer(s, x).(recv := Peer(s', x).recv)
  {
    hide Good;
    LiveShape(j, s, x);
    var s1 := WordsOne(j, s, x, n, j.len(n + 1) + 1);
    LiveShape(j, s1, x);
    s' := LiveNext(j, s1, x, DoComplete);
  }

  lemma HearOne(j: Job, s: Pair, x: nat, n: nat) returns (s': Pair)
    requires Live(j, s) && x < 2 && Mine(s, x).imm == n && |Peer(s, x).placed| == n + 1
    ensures Live(j, s') && Mine(s', x) == Mine(s, x).(imm := n + 1) && Peer(s', x) == Peer(s, x)
  {
    LiveShape(j, s, x);
    hide Good;
    s' := LiveNext(j, s, x, DoHear);
  }

  lemma MayReturn(j: Job, s: Pair, x: nat, n: nat)
    requires Live(j, s) && x < 2 && Mine(s, x).gen == Mine(s, x).imm == n + 1 && Mine(s, x).done == n && Mine(s, x).sent
    requires TagPlaced(j, Peer(s, x), n + 1)
    ensures Shaped(j, Mine(s, x)) && CanFinish(j, x, Mine(s, x))
  {
    LiveEither(j, s, x);
    TagMeans(j, 1 - x, Peer(s, x), Mine(s, x), n + 1);
    assert Shaped(j, Mine(s, x));
    hide Good;
  }

  /** A frame that arrived whole is copied and returned. */
  lemma Return(j: Job, s: Pair, x: nat, n: nat) returns (s': Pair)
    requires Live(j, s) && x < 2 && Mine(s, x).gen == Mine(s, x).imm == n + 1 && Mine(s, x).done == n && Mine(s, x).sent
    requires TagPlaced(j, Peer(s, x), n + 1)
    ensures Live(j, s') && Peer(s', x) == Peer(s, x)
    ensures var a, a' := Mine(s, x), Mine(s', x);
            a'.gen == a'.imm == a'.done == n + 1 && a'.placed == a.placed
  {
    LiveShape(j, s, x);
    MayReturn(j, s, x, n);
    hide Good, CanFinish, TagPlaced;
    s' := LiveNext(j, s, x, DoFinish);
  }

  // ------------------------------------------------------------------ any number of exchanges

  /** Between exchanges: n of them started, heard of and returned. */
  ghost predicate Rests(a: Rank, n: nat) {
    a.gen == a.done == a.imm == |a.placed| == n
  }

  /** Both ranks started exchange n + 1 and nothing has been placed. */
  ghost predicate Starts(a: Rank, n: nat) {
    a.gen == |a.placed| == n + 1 && a.done == a.imm == n && !a.sent && a.placed[n..] == [{}]
  }

  lemma BothStart(j: Job, s: Pair, n: nat) returns (s': Pair)
    requires Live(j, s) && Rests(s.a, n) && Rests(s.b, n)
    ensures Live(j, s') && Starts(s'.a, n) && Starts(s'.b, n)
  {
    hide Live;
    var s1 := StartOne(j, s, 0);
    s' := StartOne(j, s1, 1);
  }

  lemma Round(j: Job, s: Pair, n: nat) returns (s': Pair)
    requires Live(j, s) && Rests(s.a, n) && Rests(s.b, n)
    ensures Live(j, s') && Rests(s'.a, n + 1) && Rests(s'.b, n + 1)
  {
    hide Live;
    var s1 := BothStart(j, s, n);
    var s2 := Travel(j, s1, 0, n);
    var s3 := Travel(j, s2, 1, n);
    var s4 := HearOne(j, s3, 0, n);
    var s5 := HearOne(j, s4, 1, n);
    var s6 := Return(j, s5, 0, n);
    s' := Return(j, s6, 1, n);
  }

  lemma IdleLive(j: Job)
    requires JobOk(j)
    ensures Live(j, Pair(Idle(j), Idle(j)))
  {
    var s := Pair(Idle(j), Idle(j));
    assert EndsIn(j, [s], [], s);
  }

  lemma {:induction false} Rounds(j: Job, n: nat) returns (s: Pair)
    requires JobOk(j)
    ensures Live(j, s) && Rests(s.a, n) && Rests(s.b, n)
    decreases n
  {
    if n == 0 {
      s := Pair(Idle(j), Idle(j));
      IdleLive(j);
    } else {
      var s1 := Rounds(j, n - 1);
      s := Round(j, s1, n - 1);
    }
  }

  // ------------------------------------------------------------------ the exact condition

  /** The peer of rank x heard of frame g and may return, though none of its words has landed. */
  lemma AboutToErr(j: Job, x: nat, f: nat, g: nat) returns (s: Pair)
    requires JobOk(j) && !j.zeroes && x < 2 && FalseTag(j, x, f, g)
    ensures Live(j, s) && Shaped(j, Peer(s, x)) && CanFinish(j, 1 - x, Peer(s, x))
    ensures Peer(s, x).gen == g == Peer(s, x).done + 1
    ensures |Mine(s, x).placed| == g && Mine(s, x).placed[g - 1] == {}
  {
    hide Live, CanFinish, Shaped, JobOk;
    var s0 := Rounds(j, g - 1);
    var s1 := BothStart(j, s0, g - 1);
    var s2 := Travel(j, s1, 1 - x, g - 1);
    s := HearOne(j, s2, 1 - x, g - 1);
    assert Mine(s, x).placed[g - 1..][0] == {};
    StaleMayReturn(j, s, x, f, g);
  }

  lemma StaleMayReturn(j: Job, s: Pair, x: nat, f: nat, g: nat)
    requires Live(j, s) && !j.zeroes && x < 2 && FalseTag(j, x, f, g) && |Mine(s, x).placed| == g && Mine(s, x).placed[g - 1] == {}
    requires Peer(s, x).gen == g == Peer(s, x).done + 1 && Peer(s, x).sent && Peer(s, x).imm >= g
    ensures Shaped(j, Peer(s, x)) && CanFinish(j, 1 - x, Peer(s, x))
  {
    LiveEither(j, s, x);
    TagMeans(j, x, Mine(s, x), Peer(s, x), g);
    assert Shaped(j, Peer(s, x));
    hide Good;
  }

  /** Every frame a rank returned had its tag in place, and is the peer's frame. */
  ghost predicate Trusted(j: Job, x: nat, a: Rank, b: Rank) {
    |b.got| == b.done && forall g: nat :: 0 < g <= b.done ==> TagPlaced(j, a, g) && b.got[g - 1] == j.data(x, g)
  }

  ghost predicate AllTrusted(j: Job) {
    forall s :: Reach(j, s) ==> Trusted(j, 0, s.a, s.b) && Trusted(j, 1, s.b, s.a)
  }

  /** A rank that may return does so, with whatever its slot holds. */
  lemma ReturnsNow(j: Job, s: Pair, x: nat) returns (s': Pair)
    requires Live(j, s) && x < 2 && Shaped(j, Mine(s, x)) && CanFinish(j, x, Mine(s, x))
    ensures Reach(j, s') && Peer(s', x) == Peer(s, x) && Mine(s', x).done == Mine(s, x).gen
    ensures var a := Mine(s, x); Mine(s', x).got == a.got + [a.recv[a.gen % CTRL_RING][..j.len(a.gen)]]
  {
    LiveShape(j, s, x);
    hide Good;
    var m := Move(x, DoFinish);
    ReachNext(j, s, m);
    s' := Next(j, s, m);
  }

  lemma FalseTagErrs(j: Job, x: nat, f: nat, g: nat)
    requires JobOk(j) && !j.zeroes && x < 2 && FalseTag(j, x, f, g)
    ensures !AllTrusted(j)
  {
    var s := AboutToErr(j, x, f, g);
    var s' := ReturnsNow(j, s, 1 - x);
    assert Peer(s', x).done == g && !TagPlaced(j, Mine(s', x), g);
  }

  /** Every returned frame has arrived and is the peer's, in every reachable state, exactly for
      wiped slots or for jobs in which no word left by an older, longer frame reads as a later tag. */
  lemma FramesTrustedExactly(j: Job)
    requires JobOk(j)
    ensures AllTrusted(j) <==> j.zeroes || NoFalseTag(j)
  {
    if j.zeroes || NoFalseTag(j) {
      forall s | Reach(j, s) ensures Trusted(j, 0, s.a, s.b) && Trusted(j, 1, s.b, s.a) {
        var ss, ms :| EndsIn(j, ss, ms, s);
        EveryRunIsGood(j, ss, ms, |ms|);
        GoodTrusted(j, 0, s.a, s.b);
        GoodTrusted(j, 1, s.b, s.a);
      }
    } else {
      var x: nat, f: nat, g: nat :| x < 2 && FalseTag(j, x, f, g);
      FalseTagErrs(j, x, f, g);
    }
  }

  lemma GoodTrusted(j: Job, x: nat, a: Rank, b: Rank)
    requires Good(j, x, a, b)
    ensures Trusted(j, x, a, b)
  {
    forall g: nat | 0 < g <= b.done ensures TagPlaced(j, a, g) && b.got[g - 1] == j.data(x, g) {
      ConsumedPlaced(j, x, a, b, g, j.len(g));
    }
  }

  /** Before frame g places anything, frame g - 4 is the newest to have placed its word i. */
  lemma OlderIsNewest(j: Job, x: nat, a: Rank, b: Rank, g: nat, i: nat, h: nat, w: Word)
    requires Good(j, x, a, b) && CTRL_RING < g == |a.placed| == b.done + 1 && a.placed[g - 1] == {}
    requires i < j.len(g - CTRL_RING) && CameFrom(j, x, a, b, g % CTRL_RING, i, w, h)
    ensures h == g - CTRL_RING
  {
    hide Good, From;
    var f := g - CTRL_RING;
    assert f % CTRL_RING == g % CTRL_RING;
    ConsumedPlaced(j, x, a, b, f, i);
    Aligned(f, h, g);
  }

  lemma Aligned(f: nat, h: nat, g: nat)
    requires f <= h < g == f + CTRL_RING && h % CTRL_RING == g % CTRL_RING
    ensures h == f
  {
  }

  /** So that is what the slot still holds. */
  lemma OlderFrameStays(j: Job, x: nat, a: Rank, b: Rank, g: nat, i: nat)
    requires JobOk(j) && !j.zeroes && Good(j, x, a, b) && CTRL_RING < g == |a.placed| == b.done + 1
    requires a.placed[g - 1] == {} && i < j.len(g - CTRL_RING)
    ensures b.recv[g % CTRL_RING][i] == j.data(x, g - CTRL_RING)[i]
  {
    var f, w := g - CTRL_RING, b.recv[g % CTRL_RING][i];
    assert From(j, x, a, b, g % CTRL_RING, i, w);
    ConsumedPlaced(j, x, a, b, f, i);
    hide Good;
    assert !NoneSince(a, g % CTRL_RING, i, 0) by {
      assert (f - 1 + 1) % CTRL_RING == g % CTRL_RING;
    }
    var h: nat :| CameFrom(j, x, a, b, g % CTRL_RING, i, w, h);
    OlderIsNewest(j, x, a, b, g, i, h, w);
  }

  /** A false tag one ring length back returns that older frame in place of the awaited one. */
  lemma OlderFrameReturned(j: Job, x: nat, g: nat) returns (s: Pair)
    requires JobOk(j) && !j.zeroes && x < 2 && g > CTRL_RING && FalseTag(j, x, g - CTRL_RING, g)
    ensures Reach(j, s) && |Peer(s, x).got| == g && Peer(s, x).got[g - 1] == j.data(x, g - CTRL_RING)[..j.len(g)]
  {
    var f := g - CTRL_RING;
    var s0 := AboutToErr(j, x, f, g);
    LiveEither(j, s0, x);
    var frame := Peer(s0, x).recv[g % CTRL_RING][..j.len(g)];
    forall i: nat | i < j.len(g) ensures frame[i] == j.data(x, f)[i] {
      OlderFrameStays(j, x, Mine(s0, x), Peer(s0, x), g, i);
    }
    hide Good, Live, FalseTag;
    assert frame == j.data(x, f)[..j.len(g)];
    s := ReturnsNow(j, s0, 1 - x);
  }

  /** Frame 1 carries two words, the second of which is 5; every other frame carries one. */
  function MixedJob(): Job {
    Job(4, false, g => if g == 1 then 2 else 1, (x, g) => if g == 1 then [7, 5] else [3], (x, g) => g)
  }

  /** Frames of mixed sizes over slots that are not wiped: generation 5 returns generation 1's word. */
  lemma StaleFrameReturned()
    ensures exists s :: Reach(MixedJob(), s) && |s.b.got| == 5 && s.b.got[4] == [7] != MixedJob().data(0, 5)
  {
    var j := MixedJob();
    assert FalseTag(j, 0, 1, 5);
    var s := OlderFrameReturned(j, 0, 5);
    assert s.b.got[4] == [7];
  }
}
