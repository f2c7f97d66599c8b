// The receive kernel of groups of more than two ranks looks at the awaited tail word once before it
// polls, and stores a zero there if it is not the epoch's own. Look and store are two steps: between
// them the tail may land.

module NwayClean {
  import opened NwaySafety
  import NwayExact

  /** Where a rank's receive kernel stands: not at the tail word yet, about to clear it, or polling.
      `erased` records whether the tail was in place when it was cleared. */
  datatype Look = Unlooked | Stale | Polling(erased: bool)

  datatype Clean = Clean(ranks: seq<Rank>, looks: seq<Look>)

  datatype Act = Do(m: Move) | LookAt(y: nat) | Store(y: nat)

  // ------------------------------------------------------------------ steps

  function Wipe(j: Job, b: Rank): Rank
    requires j.rounds > 0 && Shaped(j, b) && j.len(b.k1) < j.cap
  {
    var s := SlotOf(j, b.k1);
    b.(recv := b.recv[s := b.recv[s][j.len(b.k1) := 0]])
  }

  ghost predicate CEnabled(j: Job, c: Clean, t: Act)
    requires JobOk(j)
  {
    && ShapedAll(j, c.ranks) && |c.looks| == |c.ranks|
    && match t
       case Do(m) => Enabled(j, c.ranks, m) && (m.step.DoK2? ==> c.looks[m.x].Polling?)
       case LookAt(y) =>
         y < |c.ranks| && c.looks[y] == Unlooked && c.ranks[y].k1 == c.ranks[y].k2 + 1 && Hinted(j, c.ranks[y], c.ranks[y].k1)
       case Store(y) => y < |c.ranks| && c.looks[y] == Stale
  }

  /** The partner's tail of the epoch rank y waits for is in place. */
  ghost predicate AwaitedPlaced(j: Job, s: seq<Rank>, y: nat)
    requires JobOk(j) && y < |s|
  {
    PeerOf(j, y, s[y].k1) < |s| && TailPlaced(j, s[PeerOf(j, y, s[y].k1)], s[y].k1)
  }

  ghost function CNext(j: Job, c: Clean, t: Act): Clean
    requires JobOk(j) && CEnabled(j, c, t)
  {
    match t
    case Do(m) => Clean(Next(j, c.ranks, m), if m.step.DoK2? then c.looks[m.x := Unlooked] else c.looks)
    case LookAt(y) => Clean(c.ranks, c.looks[y := if TailIn(j, c.ranks[y], c.ranks[y].k1) then Polling(false) else Stale])
    case Store(y) =>
      Clean(c.ranks[y := Wipe(j, c.ranks[y])], c.looks[y := Polling(AwaitedPlaced(j, c.ranks, y))])
  }

  // ------------------------------------------------------------------ the plain protocol behind it

  /** Same rank, but for received words that read zero. */
  ghost predicate SimRank(j: Job, b: Rank, q: Rank)
    requires Shaped(j, b) && Shaped(j, q)
  {
    && b == q.(recv := b.recv)
    && forall s, i :: 0 <= s < |b.recv| && 0 <= i < j.cap ==> b.recv[s][i] == q.recv[s][i] || b.recv[s][i] == 0
  }

  /** The words epoch e has placed here are there, but for an erased tail. */
  ghost predicate Fresh(j: Job, a: Rank, b: Rank, q: Rank, l: Look, e: nat)
    requires j.rounds > 0 && Shaped(j, b) && Shaped(j, q) && 0 < e <= |a.placed|
  {
    forall i :: i in a.placed[e - 1] && i < j.cap && !(l == Polling(true) && e == b.k1 && i == j.len(e))
      ==> b.recv[SlotOf(j, e)][i] == q.recv[SlotOf(j, e)][i]
  }

  ghost predicate FreshAt(j: Job, c: Clean, p: seq<Rank>, y: nat, e: nat)
    requires JobOk(j) && ShapedAll(j, c.ranks) && ShapedAll(j, p) && |c.looks| == |p| && y < |p|
  {
    var x := PeerOf(j, y, e);
    x < |p| && c.ranks[y].k2 < e <= |c.ranks[x].placed| ==> Fresh(j, c.ranks[x], c.ranks[y], p[y], c.looks[y], e)
  }

  ghost predicate LookOk(j: Job, c: Clean, y: nat)
    requires JobOk(j) && ShapedAll(j, c.ranks) && |c.looks| == |c.ranks| && y < |c.ranks|
  {
    var b := c.ranks[y];
    && (c.looks[y] != Unlooked ==> b.k1 == b.k2 + 1 && Hinted(j, b, b.k1))
    && (c.looks[y] == Polling(true) ==> AwaitedPlaced(j, c.ranks, y) && b.recv[SlotOf(j, b.k1)][j.len(b.k1)] == 0)
  }

  ghost predicate Sim(j: Job, c: Clean, p: seq<Rank>)
    requires JobOk(j)
  {
    && ShapedAll(j, c.ranks) && ShapedAll(j, p) && |c.looks| == |p|
    && (forall y: nat :: y < |p| ==> SimRank(j, c.ranks[y], p[y]) && LookOk(j, c, y))
    && (forall y: nat, e: nat :: y < |p| ==> FreshAt(j, c, p, y, e))
  }

  // ------------------------------------------------------------------ steps that receive nothing

  ghost predicate Quiet(a: Rank, a': Rank, l: Look) {
    && a'.recv == a.recv && a'.k2 == a.k2 && (l != Unlooked ==> a'.k1 == a.k1) && a.heard <= a'.heard
    && |a.placed| <= |a'.placed| && (forall f :: 0 <= f < |a.placed| ==> a'.placed[f] == a.placed[f])
    && (forall f :: |a.placed| <= f < |a'.placed| ==> a'.placed[f] == {})
  }

  lemma QuietLook(j: Job, c: Clean, r: seq<Rank>, y: nat)
    requires JobOk(j) && ShapedAll(j, c.ranks) && ShapedAll(j, r) && |c.looks| == |r| && y < |r| && LookOk(j, c, y)
    requires forall u: nat :: u < |r| ==> Quiet(c.ranks[u], r[u], c.looks[u])
    ensures LookOk(j, Clean(r, c.looks), y)
  {
    assert Quiet(c.ranks[y], r[y], c.looks[y]);
    if c.looks[y] != Unlooked {
      var g: nat :| g in c.ranks[y].heard && g >= c.ranks[y].k1 && Round(j, g) == Round(j, c.ranks[y].k1);
      assert g in r[y].heard;
      var x := PeerOf(j, y, r[y].k1);
      assert x < |r| ==> Quiet(c.ranks[x], r[x], c.looks[x]);
    }
  }

  lemma QuietFresh(j: Job, c: Clean, p: seq<Rank>, r: seq<Rank>, p': seq<Rank>, y: nat, e: nat)
    requires JobOk(j) && ShapedAll(j, c.ranks) && ShapedAll(j, p) && ShapedAll(j, r) && ShapedAll(j, p') && |c.looks| == |r| && y < |r|
    requires forall u: nat :: u < |r| ==> Quiet(c.ranks[u], r[u], c.looks[u])
    requires p'[y].recv == p[y].recv && FreshAt(j, c, p, y, e)
    ensures FreshAt(j, Clean(r, c.looks), p', y, e)
  {
    var x := PeerOf(j, y, e);
    assert Quiet(c.ranks[y], r[y], c.looks[y]);
    if x < |r| && r[y].k2 < e <= |r[x].placed| {
      assert Quiet(c.ranks[x], r[x], c.looks[x]);
    }
  }

  lemma QuietSim(j: Job, c: Clean, p: seq<Rank>, r: seq<Rank>, p': seq<Rank>)
    requires JobOk(j) && Sim(j, c, p) && ShapedAll(j, r) && ShapedAll(j, p')
    requires forall u: nat :: u < |r| ==> Quiet(c.ranks[u], r[u], c.looks[u])
    requires forall u: nat :: u < |r| ==> r[u] == p'[u].(recv := c.ranks[u].recv) && p'[u].recv == p[u].recv
    ensures Sim(j, Clean(r, c.looks), p')
  {
    hide Quiet, LookOk, FreshAt, Shaped;
    forall y: nat | y < |r| ensures LookOk(j, Clean(r, c.looks), y) { QuietLook(j, c, r, y); }
    forall y: nat, e: nat | y < |r| ensures FreshAt(j, Clean(r, c.looks), p', y, e) { QuietFresh(j, c, p, r, p', y, e); }
    forall y: nat | y < |r| ensures SimRank(j, r[y], p'[y]) {
      assert SimRank(j, c.ranks[y], p[y]);
      SimSame(j, c.ranks[y], p[y], r[y], p'[y]);
    }
  }

  lemma SimSame(j: Job, b: Rank, q: Rank, b': Rank, q': Rank)
    requires Shaped(j, b) && Shaped(j, q) && Shaped(j, b') && Shaped(j, q') && SimRank(j, b, q)
    requires b' == q'.(recv := b.recv) && q'.recv == q.recv
    ensures SimRank(j, b', q')
  {
  }

  /** One rank changed, and received nothing. */
  lemma OneQuiet(j: Job, c: Clean, p: seq<Rank>, x: nat, b: Rank, q: Rank)
    requires JobOk(j) && Sim(j, c, p) && x < |p| && Shaped(j, b) && Shaped(j, q)
    requires Quiet(c.ranks[x], b, c.looks[x]) && b == q.(recv := c.ranks[x].recv) && q.recv == p[x].recv
    ensures Sim(j, Clean(c.ranks[x := b], c.looks), p[x := q])
  {
    var r, p' := c.ranks[x := b], p[x := q];
    forall u: nat | u < |r|
      ensures Quiet(c.ranks[u], r[u], c.looks[u]) && r[u] == p'[u].(recv := c.ranks[u].recv) && p'[u].recv == p[u].recv
    {
      assert SimRank(j, c.ranks[u], p[u]);
    }
    hide Sim, Quiet;
    QuietSim(j, c, p, r, p');
  }

  /** K1, a post, a commit hint or a retirement: the plain protocol takes the same step. */
  lemma QuietStep(j: Job, c: Clean, p: seq<Rank>, m: Move)
    requires JobOk(j) && Good(j, p) && Sim(j, c, p) && Enabled(j, c.ranks, m) && !m.step.DoPlace? && !m.step.DoK2?
    ensures Enabled(j, p, m) && Good(j, Next(j, p, m)) && Sim(j, Clean(Next(j, c.ranks, m), c.looks), Next(j, p, m))
  {
    var x := m.x;
    assert SimRank(j, c.ranks[x], p[x]) && LookOk(j, c, x);
    MoveKeeps(j, p, m);
    var p' := Next(j, p, m);
    match m.step
    case DoK1 =>
      assert Shaped(j, p'[x]);
      hide Good, Sim;
      OneQuiet(j, c, p, x, K1(j, x, c.ranks[x]), K1(j, x, p[x]));
    case DoPost =>
      assert Shaped(j, p'[x]);
      hide Good, Sim;
      OneQuiet(j, c, p, x, Post(c.ranks[x]), Post(p[x]));
    case DoRetire(e) =>
      assert Shaped(j, p'[x]);
      hide Good, Sim;
      OneQuiet(j, c, p, x, Retire(c.ranks[x], e), Retire(p[x], e));
    case DoCommit(e) =>
      AwaitedLink(j, p, x, e);
      var y := PeerOf(j, x, e);
      assert SimRank(j, c.ranks[y], p[y]) && Shaped(j, p'[y]);
      hide Good, Sim;
      OneQuiet(j, c, p, y, Hear(c.ranks[y], e), Hear(p[y], e));
  }

  // ------------------------------------------------------------------ placement

  /** The two ends of what rank y waits for. */
  lemma AwaitedLink(j: Job, p: seq<Rank>, y: nat, e: nat)
    requires JobOk(j) && Good(j, p) && y < |p|
    ensures PeerOf(j, y, e) < |p| && PeerOf(j, y, e) != y && PeerOf(j, PeerOf(j, y, e), e) == y
    ensures Linked(j, PeerOf(j, y, e), y, p[PeerOf(j, y, e)], p[y], e)
  {
    Ends(j, p, y, Round(j, e));
  }

  /** No word lands where a placed tail is awaited. */
  lemma NoRewrite(j: Job, p: seq<Rank>, x: nat, e: nat, i: nat)
    requires JobOk(j) && Good(j, p) && x < |p| && CanPlace(j, p[x], e, i) && PeerOf(j, x, e) < |p|
    requires var b := p[PeerOf(j, x, e)]; b.k1 == b.k2 + 1 && AwaitedPlaced(j, p, PeerOf(j, x, e))
    ensures SlotOf(j, e) != SlotOf(j, p[PeerOf(j, x, e)].k1) || i != j.len(p[PeerOf(j, x, e)].k1)
  {
    var y := PeerOf(j, x, e);
    var g := p[y].k1;
    AwaitedLink(j, p, x, e);
    AwaitedLink(j, p, y, e);
    if SlotOf(j, e) == SlotOf(j, g) {
      SameSlot(j, e, g);
      hide Good;
      PlacedInTime(j, x, p[x], p[y], e, i);
      OriginBounds(j, x, y, p[x], p[y], g, e);
    }
  }

  ghost predicate Placing(j: Job, c: Clean, p: seq<Rank>, x: nat, e: nat, i: nat)
    requires JobOk(j)
  {
    && Sim(j, c, p) && x < |p| && PeerOf(j, x, e) < |p| && PeerOf(j, x, e) != x && PeerOf(j, PeerOf(j, x, e), e) == x
    && CanPlace(j, c.ranks[x], e, i) && i < j.cap
  }

  function Placed(j: Job, s: seq<Rank>, x: nat, e: nat, i: nat): seq<Rank>
    requires JobOk(j) && x < |s| && PeerOf(j, x, e) < |s| && ShapedAll(j, s) && 0 < e <= |s[x].placed| && i < j.cap
  {
    s[x := Mark(s[x], e, i)][PeerOf(j, x, e) := Land(j, s[x], s[PeerOf(j, x, e)], e, i)]
  }

  lemma PlaceRank(j: Job, c: Clean, p: seq<Rank>, x: nat, e: nat, i: nat, u: nat)
    requires JobOk(j) && Placing(j, c, p, x, e, i) && u < |p|
    ensures var r, q := Placed(j, c.ranks, x, e, i), Placed(j, p, x, e, i);
            Shaped(j, r[u]) && Shaped(j, q[u]) && SimRank(j, r[u], q[u])
  {
    assert SimRank(j, c.ranks[u], p[u]) && SimRank(j, c.ranks[x], p[x]) && SimRank(j, c.ranks[PeerOf(j, x, e)], p[PeerOf(j, x, e)]);
    assert Shaped(j, c.ranks[u]) && Shaped(j, p[u]);
  }

  lemma PlaceFresh(j: Job, c: Clean, p: seq<Rank>, x: nat, e: nat, i: nat, v: nat, f: nat)
    requires JobOk(j) && Placing(j, c, p, x, e, i) && v < |p|
    requires ShapedAll(j, Placed(j, c.ranks, x, e, i)) && ShapedAll(j, Placed(j, p, x, e, i))
    ensures FreshAt(j, Clean(Placed(j, c.ranks, x, e, i), c.looks), Placed(j, p, x, e, i), v, f)
  {
    var y, u := PeerOf(j, x, e), PeerOf(j, v, f);
    assert FreshAt(j, c, p, v, f) && SimRank(j, c.ranks[x], p[x]) && SimRank(j, c.ranks[y], p[y]);
    assert Mutual(j, v, Round(j, f));
    hide Round, Sim, SimRank;
  }

  lemma AwaitedStays(j: Job, s: seq<Rank>, x: nat, e: nat, i: nat, v: nat)
    requires JobOk(j) && x < |s| && PeerOf(j, x, e) < |s| && PeerOf(j, x, e) != x && ShapedAll(j, s)
    requires 0 < e <= |s[x].placed| && i < j.cap && v < |s| && AwaitedPlaced(j, s, v)
    ensures AwaitedPlaced(j, Placed(j, s, x, e, i), v)
  {
    hide Round;
  }

  lemma PlaceLook(j: Job, c: Clean, p: seq<Rank>, x: nat, e: nat, i: nat, v: nat)
    requires JobOk(j) && Good(j, p) && Placing(j, c, p, x, e, i) && v < |p| && ShapedAll(j, Placed(j, c.ranks, x, e, i))
    ensures LookOk(j, Clean(Placed(j, c.ranks, x, e, i), c.looks), v)
  {
    var y := PeerOf(j, x, e);
    assert LookOk(j, c, v) && SimRank(j, c.ranks[v], p[v]) && SimRank(j, c.ranks[x], p[x]);
    hide Good, Sim, Round, SlotOf;
    if c.looks[v] == Polling(true) {
      AwaitedStays(j, c.ranks, x, e, i, v);
      if v == y {
        SameAwaited(j, c, p, v);
        NoRewrite(j, p, x, e, i);
      }
    }
    hide AwaitedPlaced;
  }

  lemma SameAwaited(j: Job, c: Clean, p: seq<Rank>, y: nat)
    requires JobOk(j) && Sim(j, c, p) && y < |p|
    ensures AwaitedPlaced(j, c.ranks, y) <==> AwaitedPlaced(j, p, y)
  {
    assert SimRank(j, c.ranks[y], p[y]);
    assert PeerOf(j, y, p[y].k1) < |p| ==> SimRank(j, c.ranks[PeerOf(j, y, p[y].k1)], p[PeerOf(j, y, p[y].k1)]);
  }

  /** A word lands in both. */
  lemma PlaceStep(j: Job, c: Clean, p: seq<Rank>, m: Move)
    requires JobOk(j) && Good(j, p) && Sim(j, c, p) && Enabled(j, c.ranks, m) && m.step.DoPlace?
    ensures Enabled(j, p, m) && Good(j, Next(j, p, m)) && Sim(j, Clean(Next(j, c.ranks, m), c.looks), Next(j, p, m))
  {
    var x, e, i := m.x, m.step.e, m.step.i;
    assert SimRank(j, c.ranks[x], p[x]);
    MoveKeeps(j, p, m);
    AwaitedLink(j, p, x, e);
    assert Placing(j, c, p, x, e, i);
    var r, q := Placed(j, c.ranks, x, e, i), Placed(j, p, x, e, i);
    assert r == Next(j, c.ranks, m) && q == Next(j, p, m) && |r| == |q| == |p| == |c.looks|;
    hide Good, Sim, SimRank, LookOk, FreshAt, Placing, Placed, Shaped;
    forall u: nat | u < |p| ensures Shaped(j, r[u]) && Shaped(j, q[u]) && SimRank(j, r[u], q[u]) { PlaceRank(j, c, p, x, e, i, u); }
    assert ShapedAll(j, r) && ShapedAll(j, q);
    forall u: nat | u < |p| ensures LookOk(j, Clean(r, c.looks), u) { PlaceLook(j, c, p, x, e, i, u); }
    forall u: nat, f: nat | u < |p| ensures FreshAt(j, Clean(r, c.looks), q, u, f) { PlaceFresh(j, c, p, x, e, i, u, f); }
    SimIs(j, Clean(r, c.looks), q);
  }

  lemma SimIs(j: Job, c: Clean, p: seq<Rank>)
    requires JobOk(j) && ShapedAll(j, c.ranks) && ShapedAll(j, p) && |c.looks| == |p|
    requires forall y: nat :: y < |p| ==> SimRank(j, c.ranks[y], p[y])
    requires forall y: nat :: y < |p| ==> LookOk(j, c, y)
    requires forall y: nat, e: nat :: y < |p| ==> FreshAt(j, c, p, y, e)
    ensures Sim(j, c, p)
  {
  }

  // ------------------------------------------------------------------ K2, look, store

  /** What shows as a tail is the tail, and the words before it are the partner's. */
  lemma TailTrue(j: Job, c: Clean, p: seq<Rank>, y: nat)
    requires JobOk(j) && NoFalseTail(j) && Good(j, p) && Sim(j, c, p) && y < |p| && c.looks[y].Polling? && CanK2(j, c.ranks[y])
    ensures CanK2(j, p[y]) && AwaitedPlaced(j, p, y) && c.looks[y] == Polling(false)
    ensures var e := p[y].k1; c.ranks[y].recv[SlotOf(j, e)][..j.len(e)] == p[y].recv[SlotOf(j, e)][..j.len(e)]
  {
    var b, q, e := c.ranks[y], p[y], p[y].k1;
    assert SimRank(j, b, q) && LookOk(j, c, y) && FreshAt(j, c, p, y, e);
    assert b.recv[SlotOf(j, e)][j.len(e)] == e;
    assert CanK2(j, q);
    AllBacked(j, p, Move(y, DoK2));
    AwaitedLink(j, p, y, e);
    var x := PeerOf(j, y, e);
    assert SimRank(j, c.ranks[x], p[x]) && PlacedOk(j.len(e), p[x].placed[e - 1]);
    hide Good, Sim, NoFalseTail, Round, CanK2;
    forall i: nat | i < j.len(e) ensures b.recv[SlotOf(j, e)][i] == q.recv[SlotOf(j, e)][i] {
      assert i in c.ranks[x].placed[e - 1];
    }
  }

  lemma K2Sim(j: Job, c: Clean, p: seq<Rank>, y: nat)
    requires JobOk(j) && Sim(j, c, p) && y < |p| && c.looks[y] == Polling(false) && CanK2(j, c.ranks[y]) && CanK2(j, p[y])
    requires var e := p[y].k1; c.ranks[y].recv[SlotOf(j, e)][..j.len(e)] == p[y].recv[SlotOf(j, e)][..j.len(e)]
    ensures Sim(j, Clean(c.ranks[y := K2(j, c.ranks[y])], c.looks[y := Unlooked]), p[y := K2(j, p[y])])
  {
    var c', p' := Clean(c.ranks[y := K2(j, c.ranks[y])], c.looks[y := Unlooked]), p[y := K2(j, p[y])];
    assert SimRank(j, c.ranks[y], p[y]);
    forall u: nat | u < |p| ensures SimRank(j, c'.ranks[u], p'[u]) { assert SimRank(j, c.ranks[u], p[u]); }
    forall u: nat | u < |p| ensures LookOk(j, c', u) { assert LookOk(j, c, u); }
    forall u: nat, f: nat | u < |p| ensures FreshAt(j, c', p', u, f) { assert FreshAt(j, c, p, u, f); }
    hide SimRank, LookOk, FreshAt, CanK2;
    assert forall u: nat :: u < |p| ==> Shaped(j, c'.ranks[u]) && Shaped(j, p'[u]);
    SimIs(j, c', p');
  }

  lemma LookSim(j: Job, c: Clean, p: seq<Rank>, y: nat)
    requires JobOk(j) && Sim(j, c, p) && CEnabled(j, c, LookAt(y))
    ensures Sim(j, CNext(j, c, LookAt(y)), p)
  {
    var c' := CNext(j, c, LookAt(y));
    forall u: nat | u < |p| ensures LookOk(j, c', u) { assert LookOk(j, c, u); }
    forall u: nat, f: nat | u < |p| ensures FreshAt(j, c', p, u, f) { assert FreshAt(j, c, p, u, f); }
  }

  /** The awaited slot holds no other unconsumed epoch. */
  lemma OnlyAwaited(j: Job, p: seq<Rank>, y: nat, f: nat)
    requires JobOk(j) && Good(j, p) && y < |p| && p[y].k1 == p[y].k2 + 1 && SlotOf(j, f) == SlotOf(j, p[y].k1)
    requires PeerOf(j, y, f) < |p| && p[y].k2 < f <= |p[PeerOf(j, y, f)].placed|
    ensures f == p[y].k1
  {
    var g := p[y].k1;
    AwaitedLink(j, p, y, g);
    SameSlot(j, f, g);
    hide Good, Round, SlotOf;
    OriginBounds(j, PeerOf(j, y, g), y, p[PeerOf(j, y, g)], p[y], g, f);
  }

  lemma StoreFresh(j: Job, c: Clean, p: seq<Rank>, y: nat, u: nat, f: nat)
    requires JobOk(j) && Good(j, p) && Sim(j, c, p) && CEnabled(j, c, Store(y)) && u < |p|
    requires ShapedAll(j, CNext(j, c, Store(y)).ranks)
    ensures FreshAt(j, CNext(j, c, Store(y)), p, u, f)
  {
    assert FreshAt(j, c, p, u, f) && SimRank(j, c.ranks[y], p[y]) && LookOk(j, c, y);
    var x := PeerOf(j, u, f);
    assert x < |p| ==> SimRank(j, c.ranks[x], p[x]);
    hide Good, Sim, Round, SlotOf, SimRank, LookOk;
    if u == y && x < |p| && p[y].k2 < f <= |p[x].placed| && SlotOf(j, f) == SlotOf(j, p[y].k1) {
      OnlyAwaited(j, p, y, f);
    }
  }

  lemma StoreSim(j: Job, c: Clean, p: seq<Rank>, y: nat)
    requires JobOk(j) && Good(j, p) && Sim(j, c, p) && CEnabled(j, c, Store(y))
    ensures Sim(j, CNext(j, c, Store(y)), p)
  {
    var c' := CNext(j, c, Store(y));
    forall u: nat | u < |p| ensures Shaped(j, c'.ranks[u]) && SimRank(j, c'.ranks[u], p[u]) { assert SimRank(j, c.ranks[u], p[u]); }
    forall u: nat | u < |p| ensures LookOk(j, c', u) { assert LookOk(j, c, u) && LookOk(j, c, y); }
    forall u: nat, f: nat | u < |p| ensures FreshAt(j, c', p, u, f) { StoreFresh(j, c, p, y, u, f); }
    hide SimRank, LookOk, FreshAt, Good;
    SimIs(j, c', p);
  }

  // ------------------------------------------------------------------ runs

  /** Every step of the cleaning kernels is a step of the plain protocol, or none. */
  lemma StepSim(j: Job, c: Clean, p: seq<Rank>, t: Act) returns (p': seq<Rank>)
    requires JobOk(j) && NoFalseTail(j) && Good(j, p) && Sim(j, c, p) && CEnabled(j, c, t)
    ensures Good(j, p') && Sim(j, CNext(j, c, t), p')
  {
    p' := p;
    match t
    case Do(m) =>
      if m.step.DoPlace? {
        hide Good, Sim, NoFalseTail;
        PlaceStep(j, c, p, m);
        p' := Next(j, p, m);
      } else if m.step.DoK2? {
        TailTrue(j, c, p, m.x);
        assert ShapedAll(j, p);
        hide Good, Sim, NoFalseTail, CanK2;
        assert Enabled(j, p, m) && Backed(j, p, m);
        MoveKeeps(j, p, m);
        K2Sim(j, c, p, m.x);
        p' := Next(j, p, m);
      } else {
        hide Good, Sim, NoFalseTail;
        QuietStep(j, c, p, m);
        p' := Next(j, p, m);
      }
    case LookAt(y) =>
      hide Good, Sim, NoFalseTail;
      LookSim(j, c, p, y);
    case Store(y) =>
      hide Good, Sim, NoFalseTail;
      StoreSim(j, c, p, y);
  }

  function CStart(j: Job): Clean {
    Clean(Start(j), seq(j.world, y => Unlooked))
  }

  ghost predicate CFollows(j: Job, cs: seq<Clean>, ts: seq<Act>, k: nat)
    requires JobOk(j) && k < |ts| && |cs| == |ts| + 1
  {
    CEnabled(j, cs[k], ts[k]) && cs[k + 1] == CNext(j, cs[k], ts[k])
  }

  /** Steps from any state on. */
  ghost predicate Goes(j: Job, cs: seq<Clean>, ts: seq<Act>) {
    JobOk(j) && |cs| == |ts| + 1 && forall k :: 0 <= k < |ts| ==> CFollows(j, cs, ts, k)
  }

  ghost predicate CRun(j: Job, cs: seq<Clean>, ts: seq<Act>) {
    Goes(j, cs, ts) && cs[0] == CStart(j)
  }

  ghost predicate CReach(j: Job, c: Clean) {
    exists cs, ts :: CRun(j, cs, ts) && cs[|ts|] == c
  }

  lemma StartSim(j: Job)
    requires JobOk(j)
    ensures Good(j, Start(j)) && Sim(j, CStart(j), Start(j))
  {
    StartGood(j);
  }

  lemma {:induction false} RunSim(j: Job, cs: seq<Clean>, ts: seq<Act>, k: nat) returns (p: seq<Rank>)
    requires CRun(j, cs, ts) && NoFalseTail(j) && k <= |ts|
    ensures Good(j, p) && Sim(j, cs[k], p)
    decreases k
  {
    if k == 0 {
      StartSim(j);
      p := Start(j);
    } else {
      var q := RunSim(j, cs, ts, k - 1);
      hide Good, Sim, NoFalseTail, CEnabled, CNext;
      assert CFollows(j, cs, ts, k - 1);
      p := StepSim(j, cs[k - 1], q, ts[k - 1]);
    }
  }

  lemma ReachSim(j: Job, c: Clean) returns (p: seq<Rank>)
    requires CReach(j, c) && NoFalseTail(j)
    ensures Good(j, p) && Sim(j, c, p)
  {
    hide Good, Sim, NoFalseTail;
    var cs, ts :| CRun(j, cs, ts) && cs[|ts|] == c;
    p := RunSim(j, cs, ts, |ts|);
  }

  /** The cleaning kernels reduce exactly what the partners published, whatever they erase. */
  lemma CleanIsSafe(j: Job, c: Clean)
    requires CReach(j, c) && NoFalseTail(j)
    ensures AllRight(j, c.ranks)
  {
    var p := ReachSim(j, c);
    GoodIsRight(j, p);
    forall y: nat | y < |p| ensures c.ranks[y].k2 == p[y].k2 && c.ranks[y].reduced == p[y].reduced {
      assert SimRank(j, c.ranks[y], p[y]);
    }
  }

  // ------------------------------------------------------------------ what a store erases

  /** A polling rank whose tail was placed may consume it exactly when the store did not erase it. */
  lemma OpensExactly(j: Job, c: Clean, y: nat)
    requires CReach(j, c) && NoFalseTail(j) && y < |c.ranks| == |c.looks| && c.looks[y].Polling? && AwaitedPlaced(j, c.ranks, y)
    ensures CEnabled(j, c, Do(Move(y, DoK2))) <==> !c.looks[y].erased
  {
    var p := ReachSim(j, c);
    var e := p[y].k1;
    SameAwaited(j, c, p, y);
    assert LookOk(j, c, y) && SimRank(j, c.ranks[y], p[y]) && FreshAt(j, c, p, y, e);
    AwaitedLink(j, p, y, e);
    var x := PeerOf(j, y, e);
    assert SimRank(j, c.ranks[x], p[x]);
    if !c.looks[y].erased {
      assert SlotKeeps(j, x, p[x], p[y], e);
      assert Wire(j, x, e)[j.len(e)] == e;
    }
  }

  ghost predicate Erased(c: Clean, y: nat) {
    y < |c.ranks| == |c.looks| && c.looks[y] == Polling(true)
  }

  /** An erased tail does not come back: whatever happens, the rank stays at that epoch. */
  lemma {:induction false} ErasedForGood(j: Job, cs: seq<Clean>, ts: seq<Act>, k: nat, y: nat)
    requires Goes(j, cs, ts) && CReach(j, cs[0]) && NoFalseTail(j) && k <= |ts| && Erased(cs[0], y)
    ensures CReach(j, cs[k]) && Erased(cs[k], y) && cs[k].ranks[y].k2 == cs[0].ranks[y].k2
    decreases k
  {
    if k > 0 {
      ErasedForGood(j, cs, ts, k - 1, y);
      hide CReach, NoFalseTail;
      assert CFollows(j, cs, ts, k - 1);
      CReachNext(j, cs[k - 1], ts[k - 1]);
      ErasedWas(j, cs[k - 1], y);
      OpensExactly(j, cs[k - 1], y);
      StillErased(j, cs[k - 1], ts[k - 1], y);
    }
  }

  lemma ErasedWas(j: Job, c: Clean, y: nat)
    requires CReach(j, c) && NoFalseTail(j) && Erased(c, y)
    ensures AwaitedPlaced(j, c.ranks, y)
  {
    var p := ReachSim(j, c);
    assert LookOk(j, c, y);
  }

  lemma NextLength(j: Job, s: seq<Rank>, m: Move)
    requires JobOk(j) && Enabled(j, s, m)
    ensures |Next(j, s, m)| == |s|
  {
    if m.step.DoPlace? || m.step.DoCommit? {
      assert Mutual(j, m.x, Round(j, m.step.e));
    }
    hide Round;
  }

  lemma StillErased(j: Job, c: Clean, t: Act, y: nat)
    requires JobOk(j) && CEnabled(j, c, t) && y < |c.ranks| && c.looks[y] == Polling(true) && !CEnabled(j, c, Do(Move(y, DoK2)))
    ensures var c' := CNext(j, c, t); |c'.ranks| == |c'.looks| == |c.ranks| && c'.looks[y] == Polling(true)
    ensures CNext(j, c, t).ranks[y].k2 == c.ranks[y].k2
  {
    if t.Do? {
      NextLength(j, c.ranks, t.m);
      if t.m.x == y && t.m.step.DoK2? {
        assert false;
      }
    }
    hide Round;
  }

  // ------------------------------------------------------------------ which jobs are safe

  lemma CReachNext(j: Job, c: Clean, t: Act)
    requires JobOk(j) && CReach(j, c) && CEnabled(j, c, t)
    ensures CReach(j, CNext(j, c, t))
  {
    hide CEnabled, CNext;
    var cs, ts :| CRun(j, cs, ts) && cs[|ts|] == c;
    var cs', ts' := cs + [CNext(j, c, t)], ts + [t];
    forall k | 0 <= k < |ts'| ensures CFollows(j, cs', ts', k) {
      if k < |ts| {
        assert CFollows(j, cs, ts, k);
      }
    }
    assert CRun(j, cs', ts') && cs'[|ts'|] == CNext(j, c, t);
  }

  /** A plain state with no kernel at its tail word. */
  function Resting(s: seq<Rank>): Clean {
    Clean(s, seq(|s|, y => Unlooked))
  }

  /** A plain step, with a look at the tail word before a K2. */
  lemma PlainStep(j: Job, s: seq<Rank>, m: Move)
    requires JobOk(j) && CReach(j, Resting(s)) && Enabled(j, s, m)
    ensures CReach(j, Resting(Next(j, s, m)))
  {
    var c := Resting(s);
    NextLength(j, s, m);
    if m.step.DoK2? {
      CReachNext(j, c, LookAt(m.x));
      var c1 := CNext(j, c, LookAt(m.x));
      CReachNext(j, c1, Do(m));
      assert CNext(j, c1, Do(m)) == Resting(Next(j, s, m));
    } else {
      CReachNext(j, c, Do(m));
      assert CNext(j, c, Do(m)) == Resting(Next(j, s, m));
    }
  }

  /** Whatever the plain protocol reaches, the cleaning kernels reach. */
  lemma {:induction false} PlainReached(j: Job, ss: seq<seq<Rank>>, ms: seq<Move>, k: nat)
    requires IsRun(j, ss, ms) && k <= |ms|
    ensures CReach(j, Resting(ss[k]))
    decreases k
  {
    if k == 0 {
      var ts: seq<Act> := [];
      assert CRun(j, [CStart(j)], ts) && [CStart(j)][|ts|] == Resting(ss[0]);
    } else {
      PlainReached(j, ss, ms, k - 1);
      assert Follows(j, ss, ms, k - 1);
      hide CReach, Enabled, Next, Resting;
      PlainStep(j, ss[k - 1], ms[k - 1]);
    }
  }

  lemma SimTrusted(j: Job, c: Clean, p: seq<Rank>)
    requires JobOk(j) && Sim(j, c, p) && NwayExact.Trusted(j, p)
    ensures NwayExact.Trusted(j, c.ranks)
  {
    forall y: nat, e: nat | y < |c.ranks| && 0 < e <= c.ranks[y].k2 ensures NwayExact.Arrived(j, c.ranks, y, e) {
      assert SimRank(j, c.ranks[y], p[y]);
      assert NwayExact.Arrived(j, p, y, e);
      assert SimRank(j, c.ranks[PeerOf(j, y, e)], p[PeerOf(j, y, e)]);
    }
  }

  /** The clearing changes nothing about which jobs are safe: a word that reads as the awaited tail
      is what the guard leaves alone. */
  lemma CleanTrustedExactly(j: Job)
    requires JobOk(j)
    ensures (forall c :: CReach(j, c) ==> NwayExact.Trusted(j, c.ranks)) <==> NoFalseTail(j)
  {
    if NoFalseTail(j) {
      forall c | CReach(j, c) ensures NwayExact.Trusted(j, c.ranks) {
        var p := ReachSim(j, c);
        NwayExact.GoodIsTrusted(j, p);
        SimTrusted(j, c, p);
      }
    } else if forall c :: CReach(j, c) ==> NwayExact.Trusted(j, c.ranks) {
      forall s | NwayExact.Reach(j, s) ensures NwayExact.Trusted(j, s) {
        var ss, ms :| NwayExact.EndsIn(j, ss, ms, s);
        PlainReached(j, ss, ms, |ms|);
        assert Resting(s).ranks == s;
      }
      NwayExact.TailsTrustedExactly(j);
    }
  }

  // ------------------------------------------------------------------ every epoch can be lost

  lemma PlacedShaped(j: Job, s: seq<Rank>, x: nat, e: nat, i: nat)
    requires JobOk(j) && ShapedAll(j, s) && x < |s| && PeerOf(j, x, e) < |s| && 0 < e <= |s[x].placed| && i < j.cap
    ensures ShapedAll(j, Placed(j, s, x, e, i))
  {
    assert Shaped(j, s[x]) && Shaped(j, s[PeerOf(j, x, e)]);
  }

  /** The first m words of epoch e land, whatever the receiving kernel is doing. */
  lemma {:induction false} WordsLand(j: Job, c: Clean, x: nat, e: nat, m: nat) returns (c': Clean)
    requires JobOk(j) && CReach(j, c) && ShapedAll(j, c.ranks) && |c.looks| == |c.ranks| && x < |c.ranks|
    requires 0 < e <= |c.ranks[x].placed| && c.ranks[x].placed[e - 1] == {} && m <= j.len(e) + 1
    ensures CReach(j, c') && ShapedAll(j, c'.ranks) && c'.looks == c.looks && |c'.ranks| == |c.ranks|
    ensures c'.ranks[x].placed == c.ranks[x].placed[e - 1 := NwayExact.Upto(m)]
    ensures forall u: nat :: u < |c.ranks| ==> c'.ranks[u].k1 == c.ranks[u].k1 && c'.ranks[u].k2 == c.ranks[u].k2
    decreases m
  {
    hide CReach, Shaped;
    if m == 0 {
      c' := c;
      assert NwayExact.Upto(0) == {} && c.ranks[x].placed[e - 1 := c.ranks[x].placed[e - 1]] == c.ranks[x].placed;
    } else {
      var c1 := WordsLand(j, c, x, e, m - 1);
      assert Mutual(j, x, Round(j, e));
      assert NwayExact.Upto(m - 1) + {m - 1} == NwayExact.Upto(m) && m - 1 !in NwayExact.Upto(m - 1);
      var t := Do(Move(x, DoPlace(e, m - 1)));
      assert CanPlace(j, c1.ranks[x], e, m - 1);
      CReachNext(j, c1, t);
      PlacedShaped(j, c1.ranks, x, e, m - 1);
      c' := CNext(j, c1, t);
      assert c'.ranks == Placed(j, c1.ranks, x, e, m - 1);
    }
  }

  /** For every job, rank and epoch there is a run in which its tail lands between its partner's look
      and store, and is erased. */
  lemma CanErase(j: Job, x: nat, e: nat) returns (c: Clean)
    requires JobOk(j) && NoFalseTail(j) && x < j.world && e > 0
    ensures CReach(j, c) && Erased(c, PeerOf(j, x, e))
    ensures var b := c.ranks[PeerOf(j, x, e)]; b.k1 == e == b.k2 + 1
  {
    var y := PeerOf(j, x, e);
    var s := NwayExact.Announced(j, x, e);
    TailAbsent(j, s, x, e);
    var ss, ms :| NwayExact.EndsIn(j, ss, ms, s);
    PlainReached(j, ss, ms, |ms|);
    hide NwayExact.Live, NwayExact.Reach, CReach, Round;
    var c0 := Resting(s);
    assert CEnabled(j, c0, LookAt(y));
    CReachNext(j, c0, LookAt(y));
    var c1 := CNext(j, c0, LookAt(y));
    var c2 := WordsLand(j, c1, x, e, j.len(e) + 1);
    CReachNext(j, c2, Store(y));
    c := CNext(j, c2, Store(y));
  }

  /** Nothing shows as a tail before it is placed. */
  lemma TailAbsent(j: Job, s: seq<Rank>, x: nat, e: nat)
    requires NwayExact.Live(j, s) && NoFalseTail(j) && x < |s| == j.world && 0 < e && |s[x].placed| == e && s[x].placed[e - 1] == {}
    requires PeerOf(j, x, e) < |s| && s[PeerOf(j, x, e)].k1 == e == s[PeerOf(j, x, e)].k2 + 1 && e in s[PeerOf(j, x, e)].heard
    ensures ShapedAll(j, s) && !TailIn(j, s[PeerOf(j, x, e)], e) && Hinted(j, s[PeerOf(j, x, e)], e)
  {
    var y := PeerOf(j, x, e);
    AwaitedLink(j, s, x, e);
    AwaitedLink(j, s, y, e);
    NwayExact.LiveShape(j, s, y);
    hide Good, Linked;
    TailMeans(j, x, y, s[x], s[y], e);
  }
}
