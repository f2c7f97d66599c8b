// The tree transport between any number of ranks, as interleaved steps of all of them: K1 publish
// behind the per-peer reuse gate, in-order posts to each epoch's partner, NIC placement into the
// partner's per-round rings in any order, retirement, and K2 behind its look at its slot's tail.

module NwaySafety {
  import RecursiveDoubling

  type Word = int

  const R: nat := 8

  /** `partner(x, k)` is whom rank x meets in round k; epoch e belongs to round `e % rounds`, carries
      `data(x, e)` from rank x and then the epoch itself. All ranks run the same program, so the
      lengths agree. */
  datatype Job = Job(world: nat, rounds: nat, partner: (nat, nat) -> nat, cap: nat, len: nat -> nat, data: (nat, nat) -> seq<Word>)

  ghost predicate JobOk(j: Job) {
    && 0 < j.rounds <= RecursiveDoubling.MAX_ROUNDS
    && (forall x: nat, k: nat :: x < j.world && k < j.rounds ==> Mutual(j, x, k))
    && (forall e :: 0 < j.len(e) < j.cap)
    && (forall x, e :: |j.data(x, e)| == j.len(e))
  }

  ghost predicate Mutual(j: Job, x: nat, k: nat) {
    var y := j.partner(x, k);
    y < j.world && y != x && j.partner(y, k) == x
  }

  function Round(j: Job, e: nat): (k: nat)
    requires j.rounds > 0
    ensures k < j.rounds
  {
    RecursiveDoubling.RoundOf(j.rounds, e)
  }

  /** Whom rank x sends epoch e to, and gets it from. */
  function PeerOf(j: Job, x: nat, e: nat): nat
    requires j.rounds > 0
  {
    j.partner(x, Round(j, e))
  }

  /** Each round has a receive ring of its own. */
  function SlotOf(j: Job, e: nat): (s: nat)
    requires j.rounds > 0
    ensures s < j.rounds * R
  {
    Round(j, e) * R + e % R
  }

  function Wire(j: Job, x: nat, e: nat): seq<Word> {
    j.data(x, e) + [e]
  }

  ghost predicate AllBelow(ws: set<nat>, n: nat) {
    forall i: nat :: i < n ==> i in ws
  }

  /** `k1` and `k2` count the kernels run; `placed[e-1]` is what the NIC has put at the partner of
      epoch e; `retired` are the epochs completed on their queue pair; `heard` are the epochs whose
      commit hint has landed here; `reduced` logs what K2 read. */
  datatype Rank = Rank(k1: nat, k2: nat, send: seq<seq<Word>>, placed: seq<set<nat>>, retired: set<nat>,
                       recv: seq<seq<Word>>, heard: set<nat>, reduced: seq<seq<Word>>)

  predicate Shaped(j: Job, a: Rank) {
    && |a.send| == R && (forall s :: 0 <= s < R ==> |a.send[s]| == j.cap)
    && |a.recv| == j.rounds * R && forall s :: 0 <= s < |a.recv| ==> |a.recv[s]| == j.cap
  }

  // ------------------------------------------------------------------ steps of one rank

  /** K1: stream order, and the last epoch of the send slot retired on its own queue pair. */
  predicate CanK1(a: Rank) {
    a.k1 == a.k2 && (a.k1 + 1 > R ==> a.k1 + 1 - R in a.retired)
  }

  function K1(j: Job, x: nat, a: Rank): Rank
    requires |a.send| == R && |Wire(j, x, a.k1 + 1)| <= |a.send[(a.k1 + 1) % R]|
  {
    var e, w := a.k1 + 1, Wire(j, x, a.k1 + 1);
    a.(k1 := e, send := a.send[e % R := w + a.send[e % R][|w|..]])
  }

  /** The proxy posts the next published epoch. */
  predicate CanPost(a: Rank) {
    |a.placed| < a.k1
  }

  function Post(a: Rank): Rank {
    a.(placed := a.placed + [{}])
  }

  /** The payload's words land in any order, its tail word only after all the others. */
  ghost predicate CanPlace(j: Job, a: Rank, e: nat, i: nat) {
    && 0 < e <= |a.placed| && i <= j.len(e) && i !in a.placed[e - 1]
    && (i == j.len(e) ==> AllBelow(a.placed[e - 1], i))
  }

  function Mark(a: Rank, e: nat, i: nat): Rank
    requires 0 < e <= |a.placed|
  {
    a.(placed := a.placed[e - 1 := a.placed[e - 1] + {i}])
  }

  /** The NIC reads the send ring when it sends. */
  function Land(j: Job, a: Rank, b: Rank, e: nat, i: nat): Rank
    requires j.rounds > 0 && Shaped(j, a) && Shaped(j, b) && i < j.cap
  {
    var s := SlotOf(j, e);
    b.(recv := b.recv[s := b.recv[s][i := a.send[e % R][i]]])
  }

  /** A commit hint may land before the words it announces. */
  predicate CanCommit(a: Rank, e: nat) {
    0 < e <= |a.placed|
  }

  function Hear(b: Rank, e: nat): Rank {
    b.(heard := b.heard + {e})
  }

  ghost predicate CanRetire(j: Job, a: Rank, e: nat) {
    0 < e <= |a.placed| && AllBelow(a.placed[e - 1], j.len(e) + 1)
  }

  function Retire(a: Rank, e: nat): Rank {
    a.(retired := a.retired + {e})
  }

  predicate TailIn(j: Job, a: Rank, e: nat)
    requires j.rounds > 0 && Shaped(j, a)
  {
    var slot := a.recv[SlotOf(j, e)];
    j.len(e) < |slot| && slot[j.len(e)] == e
  }

  /** The partner's commit hint has reached epoch e. */
  ghost predicate Hinted(j: Job, a: Rank, e: nat)
    requires j.rounds > 0
  {
    exists g: nat :: g in a.heard && g >= e && Round(j, g) == Round(j, e)
  }

  /** K2: after K1 of the same epoch, once the partner's hint has come and the epoch's own tail
      shows in its slot. */
  ghost predicate CanK2(j: Job, a: Rank)
    requires j.rounds > 0 && Shaped(j, a)
  {
    a.k1 == a.k2 + 1 && Hinted(j, a, a.k1) && TailIn(j, a, a.k1)
  }

  function K2(j: Job, a: Rank): Rank
    requires j.rounds > 0 && Shaped(j, a) && TailIn(j, a, a.k1)
  {
    a.(k2 := a.k1, reduced := a.reduced + [a.recv[SlotOf(j, a.k1)][..j.len(a.k1)]])
  }

  // ------------------------------------------------------------------ rounds and slots

  lemma SameSlot(j: Job, e: nat, f: nat)
    requires j.rounds > 0
    ensures SlotOf(j, e) == SlotOf(j, f) <==> Round(j, e) == Round(j, f) && e % R == f % R
    ensures e < f && SlotOf(j, e) == SlotOf(j, f) ==> e + R <= f
  {
    var k, l := Round(j, e), Round(j, f);
    assert k < l ==> k * R + R <= l * R;
    assert l < k ==> l * R + R <= k * R;
  }

  lemma TurnOf(r: nat, e: nat, f: nat)
    requires 0 < r <= RecursiveDoubling.MAX_ROUNDS && e < f && e % r == f % r
    ensures e + r <= f && (f - r) % r == f % r
  {
    if r == 1 { Turn1(f); } else if r == 2 { Turn2(e, f); } else if r == 3 { Turn3(e, f); } else { Turn4(e, f); }
  }

  lemma Turn1(f: nat)
    requires f > 0
    ensures (f - 1) % 1 == f % 1
  {
  }

  lemma Turn2(e: nat, f: nat)
    requires e < f && e % 2 == f % 2
    ensures e + 2 <= f && (f - 2) % 2 == f % 2
  {
  }

  lemma Turn3(e: nat, f: nat)
    requires e < f && e % 3 == f % 3
    ensures e + 3 <= f && (f - 3) % 3 == f % 3
  {
  }

  lemma Turn4(e: nat, f: nat)
    requires e < f && e % 4 == f % 4
    ensures e + 4 <= f && (f - 4) % 4 == f % 4
  {
  }

  /** One turn of the schedule earlier the same partner was met, and none of them in between. */
  lemma TurnBack(j: Job, e: nat, f: nat)
    requires 0 < j.rounds <= RecursiveDoubling.MAX_ROUNDS && e < f && Round(j, e) == Round(j, f)
    ensures e + j.rounds <= f && Round(j, f - j.rounds) == Round(j, f)
  {
    TurnOf(j.rounds, e, f);
  }

  // ------------------------------------------------------------------ invariant

  ghost predicate PlacedOk(n: nat, p: set<nat>) {
    (forall i :: i in p ==> i <= n) && (n in p ==> AllBelow(p, n))
  }

  ghost predicate Staged(j: Job, x: nat, a: Rank, e: nat)
    requires Shaped(j, a)
  {
    forall i :: 0 <= i < |Wire(j, x, e)| && i < j.cap ==> a.send[e % R][i] == Wire(j, x, e)[i]
  }

  ghost predicate RankOk(j: Job, x: nat, a: Rank)
    requires Shaped(j, a)
  {
    && a.k2 <= a.k1 <= a.k2 + 1 && |a.placed| <= a.k1 && |a.reduced| == a.k2
    && (forall e :: 0 < e <= |a.placed| ==> PlacedOk(j.len(e), a.placed[e - 1]))
    && (forall e :: e in a.retired ==> CanRetire(j, a, e))
    && (forall e: nat :: 0 < e && e + R <= a.k1 ==> e in a.retired)
    && (forall e: nat :: 0 < e <= a.k1 < e + R ==> Staged(j, x, a, e))
  }

  ghost predicate TailPlaced(j: Job, a: Rank, e: nat) {
    0 < e <= |a.placed| && j.len(e) in a.placed[e - 1]
  }

  ghost predicate Consumed(j: Job, x: nat, a: Rank, b: Rank, e: nat) {
    TailPlaced(j, a, e) && e <= |b.reduced| && b.reduced[e - 1] == j.data(x, e)
  }

  ghost predicate SlotKeeps(j: Job, x: nat, a: Rank, b: Rank, e: nat)
    requires j.rounds > 0 && Shaped(j, b) && 0 < e <= |a.placed|
  {
    forall i :: i in a.placed[e - 1] && i < j.cap && i < |Wire(j, x, e)| ==> b.recv[SlotOf(j, e)][i] == Wire(j, x, e)[i]
  }

  /** No epoch after g placed its word i in slot s. */
  ghost predicate NoneSince(j: Job, a: Rank, s: nat, i: nat, g: nat)
    requires j.rounds > 0
  {
    forall e: nat :: g < e <= |a.placed| && SlotOf(j, e) == s ==> i !in a.placed[e - 1]
  }

  /** Word i of slot s is w, from the newest epoch that placed one there. */
  ghost predicate CameFrom(j: Job, x: nat, a: Rank, s: nat, i: nat, w: Word, g: nat)
    requires j.rounds > 0
  {
    && 0 < g <= |a.placed| && SlotOf(j, g) == s && i in a.placed[g - 1] && NoneSince(j, a, s, i, g)
    && i < |Wire(j, x, g)| && w == Wire(j, x, g)[i]
  }

  ghost predicate From(j: Job, x: nat, a: Rank, s: nat, i: nat, w: Word)
    requires j.rounds > 0
  {
    (w == 0 && NoneSince(j, a, s, i, 0)) || exists g: nat :: CameFrom(j, x, a, s, i, w, g)
  }

  /** What rank b holds of the epochs that rank x, its partner in round k, sends it. */
  ghost predicate PairOk(j: Job, x: nat, k: nat, a: Rank, b: Rank)
    requires j.rounds > 0 && Shaped(j, b)
  {
    && (forall e: nat :: 0 < e <= b.k2 && Round(j, e) == k ==> Consumed(j, x, a, b, e))
    && (forall e: nat :: b.k2 < e <= |a.placed| && Round(j, e) == k ==> SlotKeeps(j, x, a, b, e))
    && (forall s, i :: 0 <= s < |b.recv| && k * R <= s < k * R + R && 0 <= i < j.cap ==> From(j, x, a, s, i, b.recv[s][i]))
  }

  ghost predicate ShapedAll(j: Job, s: seq<Rank>) {
    |s| == j.world && forall x :: 0 <= x < |s| ==> Shaped(j, s[x])
  }

  ghost predicate Good(j: Job, s: seq<Rank>)
    requires JobOk(j)
  {
    && ShapedAll(j, s)
    && (forall x: nat :: x < |s| ==> RankOk(j, x, s[x]))
    && (forall x: nat, k: nat :: x < |s| && k < j.rounds ==> Mutual(j, x, k) && PairOk(j, x, k, s[x], s[j.partner(x, k)]))
  }

  /** The two ends of round k. */
  lemma Ends(j: Job, s: seq<Rank>, x: nat, k: nat)
    requires JobOk(j) && Good(j, s) && x < |s| && k < j.rounds
    ensures var y := j.partner(x, k);
            && y < |s| && y != x && j.partner(y, k) == x && Shaped(j, s[x]) && Shaped(j, s[y])
            && RankOk(j, x, s[x]) && RankOk(j, y, s[y]) && PairOk(j, x, k, s[x], s[y]) && PairOk(j, y, k, s[y], s[x])
  {
    assert Mutual(j, x, k);
    assert Mutual(j, j.partner(x, k), k);
    hide RankOk, PairOk, Shaped;
  }

  /** Two ends of round k never drift far enough apart to meet in a ring slot. */
  lemma RingWindow(j: Job, x: nat, y: nat, k: nat, a: Rank, b: Rank, e: nat, f: nat)
    requires JobOk(j) && Shaped(j, a) && Shaped(j, b) && RankOk(j, x, a) && RankOk(j, y, b) && PairOk(j, y, k, b, a)
    requires Round(j, e) == Round(j, f) == k && 0 < f && f + R <= e <= a.k1
    ensures f <= b.k2
  {
    TurnBack(j, f, e);
    var h := e - j.rounds;
    assert Consumed(j, y, b, a, h);
  }

  /** A word still in flight belongs to an unconsumed epoch and its send slot still holds it. */
  lemma PlacedInTime(j: Job, x: nat, a: Rank, b: Rank, e: nat, i: nat)
    requires JobOk(j) && Shaped(j, a) && Shaped(j, b) && RankOk(j, x, a) && PairOk(j, x, Round(j, e), a, b) && CanPlace(j, a, e, i)
    ensures b.k2 < e <= a.k1 && i < j.cap && a.send[e % R][i] == Wire(j, x, e)[i]
  {
    var p, n := a.placed[e - 1], j.len(e);
    assert PlacedOk(n, p);
    assert e in a.retired ==> CanRetire(j, a, e);
    assert e <= b.k2 ==> Consumed(j, x, a, b, e);
    hide Consumed, SlotKeeps, From;
    assert Staged(j, x, a, e);
  }

  // ------------------------------------------------------------------ frames

  lemma PairFrame(j: Job, x: nat, k: nat, a: Rank, a': Rank, b: Rank, b': Rank)
    requires j.rounds > 0 && Shaped(j, b) && Shaped(j, b') && PairOk(j, x, k, a, b)
    requires a'.placed == a.placed && b'.recv == b.recv && b'.k2 == b.k2 && b'.reduced == b.reduced
    ensures PairOk(j, x, k, a', b')
  {
    forall e: nat | 0 < e <= b'.k2 && Round(j, e) == k ensures Consumed(j, x, a', b', e) {
      assert Consumed(j, x, a, b, e);
    }
    forall e: nat | b'.k2 < e <= |a'.placed| && Round(j, e) == k ensures SlotKeeps(j, x, a', b', e) {
      assert SlotKeeps(j, x, a, b, e);
    }
    forall s, i | 0 <= s < |b'.recv| && k * R <= s < k * R + R && 0 <= i < j.cap ensures From(j, x, a', s, i, b'.recv[s][i]) {
      FromSame(j, x, a, a', s, i, b.recv[s][i]);
    }
  }

  lemma FromSame(j: Job, x: nat, a: Rank, a': Rank, s: nat, i: nat, w: Word)
    requires j.rounds > 0 && From(j, x, a, s, i, w) && |a.placed| <= |a'.placed|
    requires forall e: nat :: 0 < e <= |a.placed| && SlotOf(j, e) == s ==> a'.placed[e - 1] == a.placed[e - 1]
    requires forall e: nat :: |a.placed| < e <= |a'.placed| && SlotOf(j, e) == s ==> i !in a'.placed[e - 1]
    ensures From(j, x, a', s, i, w)
  {
    assert forall g: nat :: NoneSince(j, a, s, i, g) ==> NoneSince(j, a', s, i, g);
    if !(w == 0 && NoneSince(j, a, s, i, 0)) {
      var g: nat :| CameFrom(j, x, a, s, i, w, g);
      assert CameFrom(j, x, a', s, i, w, g);
    }
  }

  /** A single rank's step: it is enough that the rank and its own pairs are kept. */
  lemma OneRank(j: Job, s: seq<Rank>, x: nat, a': Rank)
    requires JobOk(j) && Good(j, s) && x < |s| && Shaped(j, a') && RankOk(j, x, a')
    requires forall k: nat :: k < j.rounds ==> j.partner(x, k) < |s| && PairOk(j, x, k, a', s[j.partner(x, k)])
    requires forall k: nat :: k < j.rounds ==> j.partner(x, k) < |s| && PairOk(j, j.partner(x, k), k, s[j.partner(x, k)], a')
    ensures Good(j, s[x := a'])
  {
    var s' := s[x := a'];
    hide Shaped, RankOk, PairOk;
    forall u: nat, k: nat | u < |s'| && k < j.rounds ensures Mutual(j, u, k) && PairOk(j, u, k, s'[u], s'[j.partner(u, k)]) {
      Ends(j, s, u, k);
    }
  }

  // ------------------------------------------------------------------ K1, post, retire

  lemma K1Rank(j: Job, x: nat, a: Rank)
    requires JobOk(j) && Shaped(j, a) && RankOk(j, x, a) && CanK1(a)
    ensures Shaped(j, K1(j, x, a)) && RankOk(j, x, K1(j, x, a))
  {
    var a' := K1(j, x, a);
    forall e: nat | 0 < e <= a'.k1 < e + R ensures Staged(j, x, a', e) {
      if e < a'.k1 {
        assert Staged(j, x, a, e);
      }
    }
  }

  lemma PostRank(j: Job, x: nat, a: Rank)
    requires JobOk(j) && Shaped(j, a) && RankOk(j, x, a) && CanPost(a)
    ensures Shaped(j, Post(a)) && RankOk(j, x, Post(a))
  {
    var a' := Post(a);
    forall e | e in a'.retired ensures CanRetire(j, a', e) { assert CanRetire(j, a, e); }
    forall e: nat | 0 < e <= a'.k1 < e + R ensures Staged(j, x, a', e) { assert Staged(j, x, a, e); }
  }

  lemma RetireRank(j: Job, x: nat, a: Rank, e: nat)
    requires JobOk(j) && Shaped(j, a) && RankOk(j, x, a) && CanRetire(j, a, e)
    ensures Shaped(j, Retire(a, e)) && RankOk(j, x, Retire(a, e))
  {
    var a' := Retire(a, e);
    forall f | f in a'.retired ensures CanRetire(j, a', f) { assert f != e ==> CanRetire(j, a, f); }
    forall f: nat | 0 < f <= a'.k1 < f + R ensures Staged(j, x, a', f) { assert Staged(j, x, a, f); }
  }

  lemma HearRank(j: Job, y: nat, b: Rank, e: nat)
    requires JobOk(j) && Shaped(j, b) && RankOk(j, y, b)
    ensures Shaped(j, Hear(b, e)) && RankOk(j, y, Hear(b, e))
  {
    var b' := Hear(b, e);
    forall f | f in b'.retired ensures CanRetire(j, b', f) { assert CanRetire(j, b, f); }
    forall f: nat | 0 < f <= b'.k1 < f + R ensures Staged(j, y, b', f) { assert Staged(j, y, b, f); }
  }

  /** A posted epoch has placed nothing yet. */
  lemma PostPair(j: Job, x: nat, k: nat, a: Rank, b: Rank)
    requires j.rounds > 0 && Shaped(j, b) && PairOk(j, x, k, a, b)
    ensures PairOk(j, x, k, Post(a), b)
  {
    var a' := Post(a);
    forall e: nat | 0 < e <= b.k2 && Round(j, e) == k ensures Consumed(j, x, a', b, e) {
      assert Consumed(j, x, a, b, e);
    }
    forall e: nat | b.k2 < e <= |a'.placed| && Round(j, e) == k ensures SlotKeeps(j, x, a', b, e) {
      if e <= |a.placed| { assert SlotKeeps(j, x, a, b, e); }
    }
    forall s, i | 0 <= s < |b.recv| && k * R <= s < k * R + R && 0 <= i < j.cap ensures From(j, x, a', s, i, b.recv[s][i]) {
      FromSame(j, x, a, a', s, i, b.recv[s][i]);
    }
  }

  /** Steps that touch neither what was placed nor what was received keep every pair. */
  lemma QuietKeeps(j: Job, s: seq<Rank>, x: nat, a': Rank)
    requires JobOk(j) && Good(j, s) && x < |s| && Shaped(j, a') && RankOk(j, x, a')
    requires a'.recv == s[x].recv && a'.k2 == s[x].k2 && a'.reduced == s[x].reduced
    requires a'.placed == s[x].placed || a' == Post(s[x])
    ensures Good(j, s[x := a'])
  {
    hide Shaped, RankOk, PairOk;
    forall k: nat | k < j.rounds
      ensures j.partner(x, k) < |s| && PairOk(j, x, k, a', s[j.partner(x, k)])
      ensures j.partner(x, k) < |s| && PairOk(j, j.partner(x, k), k, s[j.partner(x, k)], a')
    {
      Ends(j, s, x, k);
      var y := j.partner(x, k);
      PairFrame(j, y, k, s[y], s[y], s[x], a');
      if a' == Post(s[x]) {
        PostPair(j, x, k, s[x], s[y]);
      } else {
        PairFrame(j, x, k, s[x], a', s[y], s[y]);
      }
    }
    OneRank(j, s, x, a');
  }

  // ------------------------------------------------------------------ placement

  lemma MarkRank(j: Job, x: nat, a: Rank, e: nat, i: nat)
    requires JobOk(j) && Shaped(j, a) && RankOk(j, x, a) && CanPlace(j, a, e, i)
    ensures Shaped(j, Mark(a, e, i)) && RankOk(j, x, Mark(a, e, i))
  {
    var a' := Mark(a, e, i);
    forall f | 0 < f <= |a'.placed| ensures PlacedOk(j.len(f), a'.placed[f - 1]) {
      assert PlacedOk(j.len(f), a.placed[f - 1]);
    }
    forall f | f in a'.retired ensures CanRetire(j, a', f) { assert CanRetire(j, a, f); }
    forall f: nat | 0 < f <= a'.k1 < f + R ensures Staged(j, x, a', f) { assert Staged(j, x, a, f); }
  }

  lemma LandRank(j: Job, y: nat, a: Rank, b: Rank, e: nat, i: nat)
    requires JobOk(j) && Shaped(j, a) && Shaped(j, b) && RankOk(j, y, b) && i < j.cap
    ensures Shaped(j, Land(j, a, b, e, i)) && RankOk(j, y, Land(j, a, b, e, i))
  {
    var b' := Land(j, a, b, e, i);
    forall f | f in b'.retired ensures CanRetire(j, b', f) { assert CanRetire(j, b, f); }
    forall f: nat | 0 < f <= b'.k1 < f + R ensures Staged(j, y, b', f) { assert Staged(j, y, b, f); }
  }

  lemma LandKeeps(j: Job, x: nat, y: nat, a: Rank, b: Rank, e: nat, i: nat, f: nat)
    requires JobOk(j) && Shaped(j, a) && Shaped(j, b) && RankOk(j, x, a) && RankOk(j, y, b) && CanPlace(j, a, e, i)
    requires PairOk(j, x, Round(j, e), a, b) && PairOk(j, y, Round(j, e), b, a)
    requires b.k2 < f <= |a.placed| && Round(j, f) == Round(j, e)
    ensures i < j.cap && Shaped(j, Land(j, a, b, e, i)) && SlotKeeps(j, x, Mark(a, e, i), Land(j, a, b, e, i), f)
  {
    PlacedInTime(j, x, a, b, e, i);
    LandRank(j, y, a, b, e, i);
    assert SlotKeeps(j, x, a, b, f);
    SameSlot(j, e, f);
    SameSlot(j, f, e);
    if f < e && SlotOf(j, f) == SlotOf(j, e) {
      RingWindow(j, x, y, Round(j, e), a, b, e, f);
    } else if e < f && SlotOf(j, f) == SlotOf(j, e) {
      RingWindow(j, x, y, Round(j, e), a, b, f, e);
    }
  }

  lemma LandFrom(j: Job, x: nat, a: Rank, b: Rank, e: nat, i: nat, s: nat, n: nat)
    requires JobOk(j) && Shaped(j, a) && Shaped(j, b) && RankOk(j, x, a) && CanPlace(j, a, e, i) && i < j.cap
    requires PairOk(j, x, Round(j, e), a, b)
    requires s < |b.recv| && Round(j, e) * R <= s < Round(j, e) * R + R && n < j.cap
    ensures From(j, x, Mark(a, e, i), s, n, Land(j, a, b, e, i).recv[s][n])
  {
    PlacedInTime(j, x, a, b, e, i);
    var a', b' := Mark(a, e, i), Land(j, a, b, e, i);
    assert From(j, x, a, s, n, b.recv[s][n]);
    if s == SlotOf(j, e) && n == i {
      NewestInSlot(j, x, a, e, i);
      assert CameFrom(j, x, a', s, n, b'.recv[s][n], e);
    } else {
      MarkFrom(j, x, a, e, i, s, n, b.recv[s][n]);
    }
  }

  /** No later epoch than one in flight has used its slot. */
  lemma NewestInSlot(j: Job, x: nat, a: Rank, e: nat, i: nat)
    requires JobOk(j) && Shaped(j, a) && RankOk(j, x, a) && CanPlace(j, a, e, i)
    ensures NoneSince(j, Mark(a, e, i), SlotOf(j, e), i, e)
  {
    assert e !in a.retired by {
      assert e in a.retired ==> CanRetire(j, a, e);
    }
    forall f: nat | e < f <= |a.placed| ensures SlotOf(j, f) != SlotOf(j, e) {
      SameSlot(j, e, f);
    }
  }

  lemma MarkFrom(j: Job, x: nat, a: Rank, e: nat, i: nat, s: nat, n: nat, w: Word)
    requires j.rounds > 0 && 0 < e <= |a.placed| && From(j, x, a, s, n, w) && (s != SlotOf(j, e) || n != i)
    ensures From(j, x, Mark(a, e, i), s, n, w)
  {
    var a' := Mark(a, e, i);
    assert forall g: nat :: NoneSince(j, a, s, n, g) ==> NoneSince(j, a', s, n, g);
    if !(w == 0 && NoneSince(j, a, s, n, 0)) {
      var g: nat :| CameFrom(j, x, a, s, n, w, g);
      assert CameFrom(j, x, a', s, n, w, g);
    }
  }

  /** The pair a placement happens in. */
  lemma PlacePair(j: Job, x: nat, y: nat, a: Rank, b: Rank, e: nat, i: nat)
    requires JobOk(j) && Shaped(j, a) && Shaped(j, b) && RankOk(j, x, a) && RankOk(j, y, b) && CanPlace(j, a, e, i)
    requires PairOk(j, x, Round(j, e), a, b) && PairOk(j, y, Round(j, e), b, a)
    ensures i < j.cap && Shaped(j, Land(j, a, b, e, i)) && PairOk(j, x, Round(j, e), Mark(a, e, i), Land(j, a, b, e, i))
  {
    PlacedInTime(j, x, a, b, e, i);
    LandRank(j, y, a, b, e, i);
    var k, a', b' := Round(j, e), Mark(a, e, i), Land(j, a, b, e, i);
    forall f: nat | 0 < f <= b'.k2 && Round(j, f) == k ensures Consumed(j, x, a', b', f) {
      assert Consumed(j, x, a, b, f);
    }
    forall f: nat | b'.k2 < f <= |a'.placed| && Round(j, f) == k ensures SlotKeeps(j, x, a', b', f) {
      LandKeeps(j, x, y, a, b, e, i, f);
    }
    forall s, n | 0 <= s < |b'.recv| && k * R <= s < k * R + R && 0 <= n < j.cap ensures From(j, x, a', s, n, b'.recv[s][n]) {
      LandFrom(j, x, a, b, e, i, s, n);
    }
  }

  /** What a placement of epoch e may change about a rank. */
  ghost predicate Near(j: Job, a: Rank, a': Rank, e: nat)
    requires j.rounds > 0
  {
    && |a'.placed| == |a.placed| && (forall f :: 0 <= f < |a.placed| && f != e - 1 ==> a'.placed[f] == a.placed[f])
    && a'.k2 == a.k2 && a'.reduced == a.reduced && |a'.recv| == |a.recv|
    && (forall s :: 0 <= s < |a.recv| && s != SlotOf(j, e) ==> a'.recv[s] == a.recv[s])
  }

  /** Pairs of other rounds do not notice it. */
  lemma OtherRound(j: Job, x: nat, k: nat, a: Rank, a': Rank, b: Rank, b': Rank, e: nat)
    requires j.rounds > 0 && Shaped(j, b) && Shaped(j, b') && PairOk(j, x, k, a, b) && k != Round(j, e)
    requires Near(j, a, a', e) && Near(j, b, b', e)
    ensures PairOk(j, x, k, a', b')
  {
    forall f: nat | 0 < f <= b'.k2 && Round(j, f) == k ensures Consumed(j, x, a', b', f) {
      assert Consumed(j, x, a, b, f);
    }
    forall f: nat | b'.k2 < f <= |a'.placed| && Round(j, f) == k ensures SlotKeeps(j, x, a', b', f) {
      assert SlotKeeps(j, x, a, b, f);
      SameSlot(j, e, f);
    }
    forall s, n | 0 <= s < |b'.recv| && k * R <= s < k * R + R && 0 <= n < j.cap ensures From(j, x, a', s, n, b'.recv[s][n]) {
      OtherRing(j, e, k, s);
      assert From(j, x, a, s, n, b.recv[s][n]);
      FromSame(j, x, a, a', s, n, b.recv[s][n]);
    }
  }

  lemma OtherRing(j: Job, e: nat, k: nat, s: nat)
    requires j.rounds > 0 && k != Round(j, e) && k * R <= s < k * R + R
    ensures s != SlotOf(j, e)
  {
    var l := Round(j, e);
    assert k < l ==> k * R + R <= l * R;
    assert l < k ==> l * R + R <= k * R;
  }

  /** A step of two partners in one round: it is enough that they and their pairs are kept. */
  lemma TwoRanks(j: Job, s: seq<Rank>, x: nat, a': Rank, b': Rank, e: nat)
    requires JobOk(j) && Good(j, s) && x < |s| && PeerOf(j, x, e) < |s| && Shaped(j, a') && Shaped(j, b')
    requires RankOk(j, x, a') && RankOk(j, PeerOf(j, x, e), b') && Near(j, s[x], a', e) && Near(j, s[PeerOf(j, x, e)], b', e)
    requires PairOk(j, x, Round(j, e), a', b') && PairOk(j, PeerOf(j, x, e), Round(j, e), b', a')
    ensures Good(j, s[x := a'][PeerOf(j, x, e) := b'])
  {
    var y := PeerOf(j, x, e);
    Ends(j, s, x, Round(j, e));
    var s' := s[x := a'][y := b'];
    assert forall u: nat :: u < |s| ==> Near(j, s[u], s'[u], e);
    hide Shaped, RankOk, PairOk, Round, Near;
    forall u: nat, k: nat | u < |s'| && k < j.rounds ensures Mutual(j, u, k) && PairOk(j, u, k, s'[u], s'[j.partner(u, k)]) {
      Ends(j, s, u, k);
      if k != Round(j, e) {
        var v := j.partner(u, k);
        OtherRound(j, u, k, s[u], s'[u], s[v], s'[v], e);
      }
    }
  }

  lemma PlaceKeeps(j: Job, s: seq<Rank>, x: nat, e: nat, i: nat)
    requires JobOk(j) && Good(j, s) && x < |s| && CanPlace(j, s[x], e, i)
    ensures var y := PeerOf(j, x, e);
            y < |s| && y != x && i < j.cap && Good(j, s[x := Mark(s[x], e, i)][y := Land(j, s[x], s[y], e, i)])
  {
    var y := PeerOf(j, x, e);
    Ends(j, s, x, Round(j, e));
    hide Good, Round;
    var a, b := s[x], s[y];
    PlacedInTime(j, x, a, b, e, i);
    var a', b' := Mark(a, e, i), Land(j, a, b, e, i);
    assert Near(j, a, a', e) && Near(j, b, b', e);
    hide RankOk, PairOk, Near;
    MarkRank(j, x, a, e, i);
    LandRank(j, y, a, b, e, i);
    PlacePair(j, x, y, a, b, e, i);
    PairFrame(j, y, Round(j, e), b, b', a, a');
    TwoRanks(j, s, x, a', b', e);
  }

  // ------------------------------------------------------------------ the tail word

  /** What epoch f left where e's tail is awaited reads as e, and no epoch in between reaches it. */
  ghost predicate FalseTail(j: Job, x: nat, f: nat, e: nat)
    requires j.rounds > 0
  {
    && 0 < f < e && SlotOf(j, f) == SlotOf(j, e) && j.len(e) < |j.data(x, f)| && j.data(x, f)[j.len(e)] == e
    && forall h: nat :: f < h < e && SlotOf(j, h) == SlotOf(j, e) ==> j.len(h) < j.len(e)
  }

  ghost predicate NoFalseTail(j: Job)
    requires j.rounds > 0
  {
    forall x: nat, f: nat, e: nat :: x < j.world ==> !FalseTail(j, x, f, e)
  }

  /** The two ends of epoch e, as one fact. */
  ghost predicate Linked(j: Job, x: nat, y: nat, a: Rank, b: Rank, e: nat)
    requires JobOk(j)
  {
    && Shaped(j, a) && Shaped(j, b) && RankOk(j, x, a) && RankOk(j, y, b)
    && PairOk(j, x, Round(j, e), a, b) && PairOk(j, y, Round(j, e), b, a)
  }

  /** A consumed epoch of the link is in place with all its words. */
  lemma ConsumedPlaced(j: Job, x: nat, y: nat, a: Rank, b: Rank, e: nat, f: nat, i: nat)
    requires JobOk(j) && Linked(j, x, y, a, b, e) && 0 < f <= b.k2 && SlotOf(j, f) == SlotOf(j, e)
    ensures f <= |a.placed| && (i in a.placed[f - 1] <==> i <= j.len(f))
  {
    SameSlot(j, e, f);
    assert Consumed(j, x, a, b, f);
    assert PlacedOk(j.len(f), a.placed[f - 1]);
  }

  /** The slot's words come from the awaited epoch or from consumed ones. */
  lemma OriginBounds(j: Job, x: nat, y: nat, a: Rank, b: Rank, e: nat, h: nat)
    requires JobOk(j) && Linked(j, x, y, a, b, e) && e == b.k1 == b.k2 + 1 && 0 < h <= |a.placed| && SlotOf(j, h) == SlotOf(j, e)
    ensures h == e || h <= b.k2
  {
    SameSlot(j, e, h);
    SameSlot(j, h, e);
    if e < h {
      RingWindow(j, x, y, Round(j, e), a, b, h, e);
    }
  }

  lemma StaleTail(j: Job, x: nat, y: nat, a: Rank, b: Rank, e: nat)
    requires JobOk(j) && Linked(j, x, y, a, b, e) && e == b.k1 == b.k2 + 1 && TailIn(j, b, e) && !TailPlaced(j, a, e)
    ensures exists f: nat :: FalseTail(j, x, f, e)
  {
    var n, s := j.len(e), SlotOf(j, e);
    SlotRing(j, e);
    assert From(j, x, a, s, n, b.recv[s][n]);
    var f: nat :| CameFrom(j, x, a, s, n, e, f);
    OriginBounds(j, x, y, a, b, e, f);
    assert PlacedOk(j.len(f), a.placed[f - 1]);
    forall h: nat | f < h < e && SlotOf(j, h) == s ensures j.len(h) < n {
      ConsumedPlaced(j, x, y, a, b, e, h, n);
    }
    assert FalseTail(j, x, f, e);
  }

  lemma SlotRing(j: Job, e: nat)
    requires j.rounds > 0
    ensures Round(j, e) * R <= SlotOf(j, e) < Round(j, e) * R + R
  {
  }

  lemma NewestIs(j: Job, a: Rank, s: nat, i: nat, g: nat, f: nat)
    requires j.rounds > 0 && NoneSince(j, a, s, i, g) && 0 < f <= |a.placed| && SlotOf(j, f) == s && i in a.placed[f - 1]
    ensures f <= g
  {
  }

  lemma FalseTailShows(j: Job, x: nat, y: nat, a: Rank, b: Rank, e: nat, f: nat)
    requires JobOk(j) && Linked(j, x, y, a, b, e) && e == b.k1 == b.k2 + 1 && FalseTail(j, x, f, e) && !TailPlaced(j, a, e)
    ensures TailIn(j, b, e)
  {
    var n, s := j.len(e), SlotOf(j, e);
    SlotRing(j, e);
    var w := b.recv[s][n];
    assert From(j, x, a, s, n, w);
    ConsumedPlaced(j, x, y, a, b, e, f, n);
    assert !NoneSince(j, a, s, n, 0);
    var h: nat :| CameFrom(j, x, a, s, n, w, h);
    NewestIs(j, a, s, n, h, f);
    OriginBounds(j, x, y, a, b, e, h);
    if f < h < e {
      ConsumedPlaced(j, x, y, a, b, e, h, n);
    }
  }

  /** The tail word of the awaited epoch shows exactly when its own tail was placed or the newest
      older epoch reaching that far into the slot left a false one. */
  lemma TailMeans(j: Job, x: nat, y: nat, a: Rank, b: Rank, e: nat)
    requires JobOk(j) && Linked(j, x, y, a, b, e) && e == b.k1 == b.k2 + 1
    ensures TailIn(j, b, e) <==> TailPlaced(j, a, e) || exists f: nat :: FalseTail(j, x, f, e)
  {
    if TailPlaced(j, a, e) {
      assert SlotKeeps(j, x, a, b, e);
    } else {
      if TailIn(j, b, e) {
        StaleTail(j, x, y, a, b, e);
      }
      forall f: nat | FalseTail(j, x, f, e) ensures TailIn(j, b, e) {
        FalseTailShows(j, x, y, a, b, e, f);
      }
    }
  }

  // ------------------------------------------------------------------ K2

  /** K2 reads exactly the words its partner's K1 wrote. */
  lemma K2Reads(j: Job, x: nat, a: Rank, b: Rank, e: nat)
    requires JobOk(j) && Shaped(j, a) && Shaped(j, b) && RankOk(j, x, a) && PairOk(j, x, Round(j, e), a, b)
    requires e == b.k1 == b.k2 + 1 && TailPlaced(j, a, e)
    ensures b.recv[SlotOf(j, e)][..j.len(e)] == j.data(x, e)
  {
    assert SlotKeeps(j, x, a, b, e) && PlacedOk(j.len(e), a.placed[e - 1]);
    assert forall i :: 0 <= i < j.len(e) ==> i in a.placed[e - 1] && Wire(j, x, e)[i] == j.data(x, e)[i];
  }

  lemma K2Rank(j: Job, y: nat, b: Rank)
    requires JobOk(j) && Shaped(j, b) && RankOk(j, y, b) && CanK2(j, b)
    ensures Shaped(j, K2(j, b)) && RankOk(j, y, K2(j, b))
  {
    var b' := K2(j, b);
    forall f | f in b'.retired ensures CanRetire(j, b', f) { assert CanRetire(j, b, f); }
    forall f: nat | 0 < f <= b'.k1 < f + R ensures Staged(j, y, b', f) { assert Staged(j, y, b, f); }
  }

  lemma K2Pair(j: Job, x: nat, k: nat, a: Rank, b: Rank, y: nat)
    requires JobOk(j) && Shaped(j, a) && Shaped(j, b) && RankOk(j, x, a) && RankOk(j, y, b) && PairOk(j, x, k, a, b) && CanK2(j, b)
    requires Round(j, b.k1) == k ==> TailPlaced(j, a, b.k1)
    ensures Shaped(j, K2(j, b)) && PairOk(j, x, k, a, K2(j, b))
  {
    var b' := K2(j, b);
    forall e: nat | 0 < e <= b'.k2 && Round(j, e) == k ensures Consumed(j, x, a, b', e) {
      if e == b.k1 {
        K2Reads(j, x, a, b, e);
      } else {
        assert Consumed(j, x, a, b, e);
      }
    }
    forall e: nat | b'.k2 < e <= |a.placed| && Round(j, e) == k ensures SlotKeeps(j, x, a, b', e) {
      assert SlotKeeps(j, x, a, b, e);
    }
    forall s, i | 0 <= s < |b'.recv| && k * R <= s < k * R + R && 0 <= i < j.cap ensures From(j, x, a, s, i, b'.recv[s][i]) {
      assert From(j, x, a, s, i, b.recv[s][i]);
    }
  }

  lemma K2Keeps(j: Job, s: seq<Rank>, y: nat)
    requires JobOk(j) && Good(j, s) && y < |s| && CanK2(j, s[y])
    requires PeerOf(j, y, s[y].k1) < |s| && TailPlaced(j, s[PeerOf(j, y, s[y].k1)], s[y].k1)
    ensures Good(j, s[y := K2(j, s[y])])
  {
    var b, b' := s[y], K2(j, s[y]);
    K2Rank(j, y, b);
    hide Shaped, RankOk, PairOk, CanK2, TailPlaced;
    forall k: nat | k < j.rounds
      ensures j.partner(y, k) < |s| && PairOk(j, y, k, b', s[j.partner(y, k)])
      ensures j.partner(y, k) < |s| && PairOk(j, j.partner(y, k), k, s[j.partner(y, k)], b')
    {
      Ends(j, s, y, k);
      var x := j.partner(y, k);
      PairFrame(j, y, k, b, b', s[x], s[x]);
      K2Pair(j, x, k, s[x], b, y);
    }
    OneRank(j, s, y, b');
  }

  // ------------------------------------------------------------------ runs

  datatype Step = DoK1 | DoPost | DoPlace(e: nat, i: nat) | DoCommit(e: nat) | DoRetire(e: nat) | DoK2

  datatype Move = Move(x: nat, step: Step)

  ghost predicate Enabled(j: Job, s: seq<Rank>, m: Move)
    requires JobOk(j)
  {
    && m.x < |s| && ShapedAll(j, s)
    && match m.step
       case DoK1 => CanK1(s[m.x])
       case DoPost => CanPost(s[m.x])
       case DoPlace(e, i) => CanPlace(j, s[m.x], e, i)
       case DoCommit(e) => CanCommit(s[m.x], e)
       case DoRetire(e) => CanRetire(j, s[m.x], e)
       case DoK2 => CanK2(j, s[m.x])
  }

  ghost function Next(j: Job, s: seq<Rank>, m: Move): seq<Rank>
    requires JobOk(j) && Enabled(j, s, m)
  {
    var x := m.x;
    match m.step
    case DoK1 => s[x := K1(j, x, s[x])]
    case DoPost => s[x := Post(s[x])]
    case DoPlace(e, i) =>
      var y := PeerOf(j, x, e);
      assert Mutual(j, x, Round(j, e));
      s[x := Mark(s[x], e, i)][y := Land(j, s[x], s[y], e, i)]
    case DoCommit(e) =>
      var y := PeerOf(j, x, e);
      assert Mutual(j, x, Round(j, e));
      s[y := Hear(s[y], e)]
    case DoRetire(e) => s[x := Retire(s[x], e)]
    case DoK2 => s[x := K2(j, s[x])]
  }

  /** K2 consumes only what has arrived. */
  ghost predicate Backed(j: Job, s: seq<Rank>, m: Move)
    requires JobOk(j) && m.x < |s|
  {
    m.step.DoK2? ==> PeerOf(j, m.x, s[m.x].k1) < |s| && TailPlaced(j, s[PeerOf(j, m.x, s[m.x].k1)], s[m.x].k1)
  }

  lemma AllBacked(j: Job, s: seq<Rank>, m: Move)
    requires JobOk(j) && NoFalseTail(j) && Good(j, s) && Enabled(j, s, m)
    ensures Backed(j, s, m)
  {
    if m.step.DoK2? {
      var y := m.x;
      var e := s[y].k1;
      var x := PeerOf(j, y, e);
      Ends(j, s, y, Round(j, e));
      assert Linked(j, x, y, s[x], s[y], e);
      hide Good, RankOk, PairOk, Linked;
      TailMeans(j, x, y, s[x], s[y], e);
    }
  }

  lemma QuietMove(j: Job, s: seq<Rank>, m: Move)
    requires JobOk(j) && Good(j, s) && Enabled(j, s, m) && !m.step.DoPlace? && !m.step.DoK2?
    ensures Good(j, Next(j, s, m))
  {
    var x := m.x;
    assert RankOk(j, x, s[x]);
    match m.step
    case DoK1 =>
      K1Rank(j, x, s[x]);
      hide Good, RankOk, PairOk, Shaped;
      QuietKeeps(j, s, x, K1(j, x, s[x]));
    case DoPost =>
      PostRank(j, x, s[x]);
      hide Good, RankOk, PairOk, Shaped;
      QuietKeeps(j, s, x, Post(s[x]));
    case DoRetire(e) =>
      RetireRank(j, x, s[x], e);
      hide Good, RankOk, PairOk, Shaped;
      QuietKeeps(j, s, x, Retire(s[x], e));
    case DoCommit(e) =>
      var y := PeerOf(j, x, e);
      Ends(j, s, x, Round(j, e));
      HearRank(j, y, s[y], e);
      hide Good, RankOk, PairOk, Shaped;
      QuietKeeps(j, s, y, Hear(s[y], e));
  }

  lemma MoveKeeps(j: Job, s: seq<Rank>, m: Move)
    requires JobOk(j) && Good(j, s) && Enabled(j, s, m) && Backed(j, s, m)
    ensures Good(j, Next(j, s, m))
  {
    match m.step
    case DoPlace(e, i) =>
      hide Good;
      PlaceKeeps(j, s, m.x, e, i);
    case DoK2 =>
      hide Good;
      K2Keeps(j, s, m.x);
    case _ =>
      hide Good;
      QuietMove(j, s, m);
  }

  function Idle(j: Job): Rank {
    Rank(0, 0, seq(R, s => seq(j.cap, i => 0)), [], {}, seq(j.rounds * R, s => seq(j.cap, i => 0)), {}, [])
  }

  function Start(j: Job): seq<Rank> {
    seq(j.world, x => Idle(j))
  }

  lemma StartGood(j: Job)
    requires JobOk(j)
    ensures Good(j, Start(j))
  {
    var s := Start(j);
    forall x: nat, k: nat | x < |s| && k < j.rounds ensures Mutual(j, x, k) && PairOk(j, x, k, s[x], s[j.partner(x, k)]) {
      assert Mutual(j, x, k);
    }
  }

  ghost predicate IsRun(j: Job, ss: seq<seq<Rank>>, ms: seq<Move>) {
    && JobOk(j) && |ss| == |ms| + 1 && ss[0] == Start(j)
    && forall k :: 0 <= k < |ms| ==> Follows(j, ss, ms, k)
  }

  ghost predicate Follows(j: Job, ss: seq<seq<Rank>>, ms: seq<Move>, k: nat)
    requires JobOk(j) && k < |ms| && |ss| == |ms| + 1
  {
    Enabled(j, ss[k], ms[k]) && ss[k + 1] == Next(j, ss[k], ms[k])
  }

  lemma {:induction false} EveryRunIsGood(j: Job, ss: seq<seq<Rank>>, ms: seq<Move>, k: nat)
    requires IsRun(j, ss, ms) && NoFalseTail(j) && k <= |ms|
    ensures Good(j, ss[k])
    decreases k
  {
    if k == 0 {
      StartGood(j);
    } else {
      EveryRunIsGood(j, ss, ms, k - 1);
      hide Good, Enabled, Next, NoFalseTail, Backed;
      assert Follows(j, ss, ms, k - 1);
      AllBacked(j, ss[k - 1], ms[k - 1]);
      MoveKeeps(j, ss[k - 1], ms[k - 1]);
    }
  }

  /** Whatever every rank has reduced so far are exactly its partners' words, epoch by epoch. */
  ghost predicate AllRight(j: Job, s: seq<Rank>)
    requires j.rounds > 0
  {
    forall x: nat, e: nat :: x < |s| && 0 < e <= s[x].k2 ==>
      e <= |s[x].reduced| && s[x].reduced[e - 1] == j.data(PeerOf(j, x, e), e)
  }

  lemma GoodIsRight(j: Job, s: seq<Rank>)
    requires JobOk(j) && Good(j, s)
    ensures AllRight(j, s)
  {
    forall x: nat, e: nat | x < |s| && 0 < e <= s[x].k2
      ensures e <= |s[x].reduced| && s[x].reduced[e - 1] == j.data(PeerOf(j, x, e), e)
    {
      Ends(j, s, x, Round(j, e));
      assert Consumed(j, PeerOf(j, x, e), s[PeerOf(j, x, e)], s[x], e);
    }
  }

  /** Two partners are never more than one turn of the schedule and one barrier apart. */
  lemma PartnersNear(j: Job, s: seq<Rank>, x: nat, e: nat)
    requires JobOk(j) && Good(j, s) && x < |s| && j.rounds < e <= s[x].k1
    ensures PeerOf(j, x, e) < |s| && e - j.rounds <= s[PeerOf(j, x, e)].k1
  {
    var k := Round(j, e);
    Ends(j, s, x, k);
    RoundBefore(j, e);
    assert Consumed(j, PeerOf(j, x, e), s[PeerOf(j, x, e)], s[x], e - j.rounds);
  }

  lemma RoundBefore(j: Job, e: nat)
    requires 0 < j.rounds <= RecursiveDoubling.MAX_ROUNDS && j.rounds < e
    ensures Round(j, e - j.rounds) == Round(j, e)
  {
    if j.rounds == 1 { } else if j.rounds == 2 { assert (e - 2) % 2 == e % 2; } else if j.rounds == 3 { assert (e - 3) % 3 == e % 3; } else {
      assert j.rounds == 4 && (e - 4) % 4 == e % 4;
    }
  }

  /** In every reachable state, under any placement order and at any number of ranks: every
      reduction read exactly the words its partner published for that epoch. */
  lemma TransportSafe(j: Job, ss: seq<seq<Rank>>, ms: seq<Move>, k: nat)
    requires IsRun(j, ss, ms) && NoFalseTail(j) && k <= |ms|
    ensures AllRight(j, ss[k])
  {
    EveryRunIsGood(j, ss, ms, k);
    GoodIsRight(j, ss[k]);
  }
}
