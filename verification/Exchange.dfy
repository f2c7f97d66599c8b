// The control exchange: a pairwise, generation-tagged rendezvous over a ring of four slots per
// sender. A call returns only after the peer's frame of that generation is in place and copied.

module Exchange {
  type Word = int

  const CTRL_RING: nat := 4

  /** What the ranks exchange: generation g carries `data(x, g)` and then `tag(x, g)`. `zeroes`
      says whether a consumed frame is wiped and the write carries no immediate (world > 2), or the
      frame is left behind and announced by an immediate (world 2). */
  datatype Job = Job(cap: nat, zeroes: bool, len: nat -> nat, data: (nat, nat) -> seq<Word>, tag: (nat, nat) -> Word)

  ghost predicate JobOk(j: Job) {
    && (forall g :: j.len(g) < j.cap)
    && (forall x, g :: |j.data(x, g)| == j.len(g))
    && (forall x, g: nat :: g > 0 ==> j.tag(x, g) != 0)
    && (forall x, g: nat, h: nat :: g > 0 && h > 0 && j.tag(x, g) == j.tag(x, h) ==> g == h)
  }

  /** The wire tag above eight bits of rank is one of these. */
  function RankTag(x: nat, g: nat): Word {
    g * 256 + x
  }

  lemma RankTagsFit(x: nat, g: nat, h: nat)
    requires x < 256 && g > 0 && h > 0
    ensures RankTag(x, g) != 0 && (RankTag(x, g) == RankTag(x, h) ==> g == h)
    ensures forall y: nat :: y < 256 && y != x ==> RankTag(y, h) != RankTag(x, g)
  {
  }

  function Frame(j: Job, x: nat, g: nat): seq<Word> {
    j.data(x, g) + [j.tag(x, g)]
  }

  /** `gen` generations started, `done` completed; `imm` immediates of the peer arrived; one staging
      slot; `placed[g-1]` is what the NIC has put at the peer of frame g; `last` is the stable copy
      of the peer's newest frame. */
  datatype Rank = Rank(gen: nat, sent: bool, done: nat, imm: nat, stage: seq<Word>, placed: seq<set<nat>>,
                       recv: seq<seq<Word>>, last: seq<Word>, got: seq<seq<Word>>)

  function Store(slot: seq<Word>, ws: seq<Word>): (r: seq<Word>)
    requires |ws| <= |slot|
    ensures |r| == |slot|
  {
    ws + slot[|ws|..]
  }

  ghost predicate AllBelow(ws: set<nat>, n: nat) {
    forall i: nat :: i < n ==> i in ws
  }

  // ------------------------------------------------------------------ steps

  /** Start the next exchange once the last one returned: stage, stamp, post. */
  predicate CanStart(a: Rank) {
    a.done == a.gen
  }

  function Start(j: Job, x: nat, a: Rank): Rank
    requires |j.data(x, a.gen + 1)| < |a.stage|
  {
    a.(gen := a.gen + 1, sent := false, stage := Store(a.stage, Frame(j, x, a.gen + 1)), placed := a.placed + [{}])
  }

  /** The NIC places a word of an outstanding frame, reading the staging slot now; the trailing
      tag only after all the others. */
  ghost predicate CanPlace(j: Job, a: Rank, g: nat, i: nat) {
    && 0 < g <= |a.placed| && i <= j.len(g) && i !in a.placed[g - 1]
    && (i == j.len(g) ==> AllBelow(a.placed[g - 1], i))
  }

  function PlaceMark(a: Rank, g: nat, i: nat): Rank
    requires 0 < g <= |a.placed|
  {
    a.(placed := a.placed[g - 1 := a.placed[g - 1] + {i}])
  }

  function PlaceWord(a: Rank, b: Rank, g: nat, i: nat): Rank
    requires |b.recv| == CTRL_RING
  {
    var slot := b.recv[g % CTRL_RING];
    if i < |slot| && i < |a.stage| then b.(recv := b.recv[g % CTRL_RING := slot[i := a.stage[i]]]) else b
  }

  /** The send completion: the frame is in place at the peer. */
  ghost predicate CanComplete(j: Job, a: Rank) {
    0 < a.gen == |a.placed| && !a.sent && AllBelow(a.placed[a.gen - 1], j.len(a.gen) + 1)
  }

  function Complete(a: Rank): Rank {
    a.(sent := true)
  }

  /** The peer's next immediate arrives: its frame was sent, wherever its words are. */
  predicate CanHear(a: Rank, b: Rank) {
    a.imm < |b.placed|
  }

  function Hear(a: Rank): Rank {
    a.(imm := a.imm + 1)
  }

  /** This generation's immediate, if there is one, has arrived, and the awaited tag shows in its
      slot: copy the frame, wipe it, return. */
  predicate CanFinish(j: Job, x: nat, a: Rank)
    requires x < 2 && |a.recv| == CTRL_RING
  {
    var slot := a.recv[a.gen % CTRL_RING];
    a.done < a.gen && a.sent && (j.zeroes || a.imm >= a.gen) && j.len(a.gen) < |slot| && slot[j.len(a.gen)] == j.tag(1 - x, a.gen)
  }

  function Finish(j: Job, a: Rank): Rank
    requires |a.recv| == CTRL_RING && j.len(a.gen) < |a.recv[a.gen % CTRL_RING]|
  {
    var slot, n := a.recv[a.gen % CTRL_RING], j.len(a.gen);
    var frame := slot[..n];
    a.(done := a.gen, last := frame, got := a.got + [frame],
       recv := if j.zeroes then a.recv[a.gen % CTRL_RING := Store(slot, seq(n + 1, i => 0))] else a.recv)
  }

  datatype Step = DoStart | DoPlace(g: nat, i: nat) | DoComplete | DoHear | DoFinish

  ghost predicate Shaped(j: Job, a: Rank) {
    |a.stage| == j.cap && |a.recv| == CTRL_RING && forall s :: 0 <= s < CTRL_RING ==> |a.recv[s]| == j.cap
  }

  ghost predicate Can(j: Job, x: nat, a: Rank, b: Rank, t: Step)
    requires Shaped(j, a)
  {
    match t
    case DoStart => CanStart(a)
    case DoPlace(g, i) => CanPlace(j, a, g, i)
    case DoComplete => CanComplete(j, a)
    case DoHear => CanHear(a, b)
    case DoFinish => x < 2 && CanFinish(j, x, a)
  }

  ghost function Act(j: Job, x: nat, a: Rank, b: Rank, t: Step): (Rank, Rank)
    requires JobOk(j) && Shaped(j, a) && Shaped(j, b) && Can(j, x, a, b, t)
  {
    match t
    case DoStart => (Start(j, x, a), b)
    case DoPlace(g, i) => (PlaceMark(a, g, i), PlaceWord(a, b, g, i))
    case DoComplete => (Complete(a), b)
    case DoHear => (Hear(a), b)
    case DoFinish => (Finish(j, a), b)
  }

  function Idle(j: Job): Rank {
    Rank(0, false, 0, 0, seq(j.cap, i => 0), [], seq(CTRL_RING, s => seq(j.cap, i => 0)), [], [])
  }

  // ------------------------------------------------------------------ invariant

  /** What frame f left where generation g's tag is awaited reads as that tag, and no frame in
      between reaches that far into the slot. */
  ghost predicate FalseTag(j: Job, x: nat, f: nat, g: nat) {
    && 0 < f < g && f % CTRL_RING == g % CTRL_RING && j.len(g) < j.len(f) && j.len(g) < |j.data(x, f)|
    && j.data(x, f)[j.len(g)] == j.tag(x, g)
    && forall h: nat :: f < h < g && h % CTRL_RING == g % CTRL_RING ==> j.len(h) < j.len(g)
  }

  ghost predicate NoFalseTag(j: Job) {
    forall x: nat, f: nat, g: nat :: x < 2 ==> !FalseTag(j, x, f, g)
  }

  ghost predicate Counters(j: Job, a: Rank) {
    && a.gen == |a.placed| && a.done <= a.gen <= a.done + 1 && |a.got| == a.done
    && (forall k :: 0 <= k < |a.placed| ==> PlacedOk(j.len(k + 1), a.placed[k]))
    && (forall k :: 0 <= k < |a.placed| && (k + 1 < a.gen || a.sent) ==> AllBelow(a.placed[k], j.len(k + 1) + 1))
    && (a.done == a.gen && a.gen > 0 ==> a.sent)
  }

  ghost predicate PlacedOk(n: nat, p: set<nat>) {
    (forall i :: i in p ==> i <= n) && (n in p ==> AllBelow(p, n))
  }

  ghost predicate Staged(j: Job, x: nat, a: Rank)
    requires Shaped(j, a)
  {
    a.gen > 0 ==> forall i :: 0 <= i < |Frame(j, x, a.gen)| && i < j.cap ==> a.stage[i] == Frame(j, x, a.gen)[i]
  }

  /** Where a slot's word came from: the newest frame that placed one there, and with wiping a
      frame not consumed yet. */
  ghost predicate CameFrom(j: Job, x: nat, a: Rank, b: Rank, s: nat, i: nat, w: Word, g: nat) {
    && 0 < g <= |a.placed| && g % CTRL_RING == s && i in a.placed[g - 1] && NoneSince(a, s, i, g)
    && i < |Frame(j, x, g)| && w == Frame(j, x, g)[i] && (j.zeroes ==> b.done < g)
  }

  /** No frame after g placed its word i in slot s. */
  ghost predicate NoneSince(a: Rank, s: nat, i: nat, g: nat) {
    forall k :: g <= k < |a.placed| && (k + 1) % CTRL_RING == s ==> i !in a.placed[k]
  }

  ghost predicate From(j: Job, x: nat, a: Rank, b: Rank, s: nat, i: nat, w: Word) {
    (w == 0 && (j.zeroes || NoneSince(a, s, i, 0))) || exists g: nat :: CameFrom(j, x, a, b, s, i, w, g)
  }

  ghost predicate SlotKeeps(j: Job, x: nat, a: Rank, b: Rank, g: nat)
    requires Shaped(j, b) && 0 < g <= |a.placed|
  {
    forall i :: i in a.placed[g - 1] && i < j.cap && i < |Frame(j, x, g)| ==> b.recv[g % CTRL_RING][i] == Frame(j, x, g)[i]
  }

  ghost predicate RecvOk(j: Job, x: nat, a: Rank, b: Rank)
    requires Shaped(j, b)
  {
    && b.done <= |a.placed| && b.imm <= |a.placed|
    && (forall g: nat :: 0 < g <= b.done && g <= |a.placed| ==> j.len(g) in a.placed[g - 1])
    && (forall g: nat :: b.done < g <= |a.placed| ==> SlotKeeps(j, x, a, b, g))
    && (forall s, i :: 0 <= s < CTRL_RING && 0 <= i < j.cap ==> From(j, x, a, b, s, i, b.recv[s][i]))
    && (forall k :: 0 <= k < |b.got| ==> b.got[k] == j.data(x, k + 1))
    && (b.done > 0 ==> b.last == j.data(x, b.done))
  }

  ghost predicate Good(j: Job, x: nat, a: Rank, b: Rank) {
    && x < 2 && Shaped(j, a) && Shaped(j, b) && Counters(j, a) && Counters(j, b)
    && Staged(j, x, a) && Staged(j, 1 - x, b)
    && RecvOk(j, x, a, b) && RecvOk(j, 1 - x, b, a)
  }

  /** Never more than one generation apart. */
  lemma OneApart(j: Job, x: nat, a: Rank, b: Rank)
    requires Good(j, x, a, b)
    ensures a.gen <= b.gen + 1 && b.gen <= a.gen + 1 && a.gen <= b.done + 2 && b.gen <= a.done + 2
  {
  }

  lemma SlotsApart(g: nat, h: nat)
    requires g < h < g + CTRL_RING
    ensures g % CTRL_RING != h % CTRL_RING
  {
  }

  // ------------------------------------------------------------------ start, complete

  /** A frame just started has placed nothing yet. */
  lemma FromFrame(j: Job, x: nat, a: Rank, a': Rank, b: Rank, s: nat, i: nat, w: Word)
    requires From(j, x, a, b, s, i, w) && (a'.placed == a.placed || a'.placed == a.placed + [{}])
    ensures From(j, x, a', b, s, i, w)
  {
    if !(w == 0 && (j.zeroes || NoneSince(a, s, i, 0))) {
      var g: nat :| CameFrom(j, x, a, b, s, i, w, g);
      assert CameFrom(j, x, a', b, s, i, w, g);
    }
  }

  lemma SendFrame(j: Job, x: nat, a: Rank, a': Rank, b: Rank)
    requires Shaped(j, b) && RecvOk(j, x, a, b)
    requires a'.placed == a.placed || a'.placed == a.placed + [{}]
    ensures RecvOk(j, x, a', b)
  {
    forall g: nat | b.done < g <= |a'.placed| ensures SlotKeeps(j, x, a', b, g) {
      if g <= |a.placed| { assert SlotKeeps(j, x, a, b, g); }
    }
    forall s, i | 0 <= s < CTRL_RING && 0 <= i < j.cap ensures From(j, x, a', b, s, i, b.recv[s][i]) {
      FromFrame(j, x, a, a', b, s, i, b.recv[s][i]);
    }
  }

  lemma RecvFrame(j: Job, x: nat, a: Rank, b: Rank, b': Rank)
    requires Shaped(j, b) && Shaped(j, b') && RecvOk(j, x, a, b)
    requires b'.recv == b.recv && b'.done == b.done && b'.got == b.got && b'.last == b.last && b'.imm <= |a.placed|
    ensures RecvOk(j, x, a, b')
  {
    forall g: nat | b'.done < g <= |a.placed| ensures SlotKeeps(j, x, a, b', g) { assert SlotKeeps(j, x, a, b, g); }
    forall s, i | 0 <= s < CTRL_RING && 0 <= i < j.cap ensures From(j, x, a, b', s, i, b'.recv[s][i]) {
      assert From(j, x, a, b, s, i, b.recv[s][i]);
      if !(b.recv[s][i] == 0 && (j.zeroes || NoneSince(a, s, i, 0))) {
        var g: nat :| CameFrom(j, x, a, b, s, i, b.recv[s][i], g);
        assert CameFrom(j, x, a, b', s, i, b.recv[s][i], g);
      }
    }
  }

  lemma StartKeeps(j: Job, x: nat, a: Rank, b: Rank)
    requires JobOk(j) && Good(j, x, a, b) && CanStart(a)
    ensures Good(j, x, Start(j, x, a), b)
  {
    hide SlotKeeps, From;
    var a' := Start(j, x, a);
    SendFrame(j, x, a, a', b);
    RecvFrame(j, 1 - x, b, a, a');
    hide RecvOk;
  }

  lemma CompleteKeeps(j: Job, x: nat, a: Rank, b: Rank)
    requires JobOk(j) && Good(j, x, a, b) && CanComplete(j, a)
    ensures Good(j, x, Complete(a), b)
  {
    hide SlotKeeps, From;
    SendFrame(j, x, a, Complete(a), b);
    RecvFrame(j, 1 - x, b, a, Complete(a));
  }

  lemma HearKeeps(j: Job, x: nat, a: Rank, b: Rank)
    requires JobOk(j) && Good(j, x, a, b) && CanHear(a, b)
    ensures Good(j, x, Hear(a), b)
  {
    hide SlotKeeps, From;
    SendFrame(j, x, a, Hear(a), b);
    RecvFrame(j, 1 - x, b, a, Hear(a));
  }

  // ------------------------------------------------------------------ placement

  /** Only the newest frame can still be in flight, the peer has not consumed it, and the staging
      slot still holds it: no frame is overwritten before it is copied. */
  lemma PlacedInTime(j: Job, x: nat, a: Rank, b: Rank, g: nat, i: nat)
    requires JobOk(j) && Good(j, x, a, b) && CanPlace(j, a, g, i)
    ensures g == a.gen && !a.sent && b.done < g && a.stage[i] == Frame(j, x, g)[i]
  {
    var p, n := a.placed[g - 1], j.len(g);
    var m := n + 1;
    assert PlacedOk(n, p);
    assert g < a.gen || a.sent ==> AllBelow(p, m);
    assert g <= b.done ==> n in p;
  }

  lemma WordSlot(j: Job, x: nat, a: Rank, b: Rank, g: nat, i: nat, f: nat)
    requires JobOk(j) && Good(j, x, a, b) && CanPlace(j, a, g, i) && b.done < f <= |a.placed|
    ensures SlotKeeps(j, x, PlaceMark(a, g, i), PlaceWord(a, b, g, i), f)
  {
    PlacedInTime(j, x, a, b, g, i);
    OneApart(j, x, a, b);
    assert SlotKeeps(j, x, a, b, f);
    if f < g {
      SlotsApart(f, g);
    }
  }

  /** Placing word i of frame g makes no other word older. */
  lemma OtherFrom(j: Job, x: nat, a: Rank, b: Rank, b': Rank, g: nat, i: nat, s: nat, k: nat, w: Word)
    requires 0 < g <= |a.placed| && From(j, x, a, b, s, k, w) && b'.done == b.done && (s != g % CTRL_RING || k != i)
    ensures From(j, x, PlaceMark(a, g, i), b', s, k, w)
  {
    var a' := PlaceMark(a, g, i);
    assert forall f: nat :: NoneSince(a, s, k, f) ==> NoneSince(a', s, k, f);
    if !(w == 0 && (j.zeroes || NoneSince(a, s, k, 0))) {
      var f: nat :| CameFrom(j, x, a, b, s, k, w, f);
      assert CameFrom(j, x, a', b', s, k, w, f);
    }
  }

  lemma WordFrom(j: Job, x: nat, a: Rank, b: Rank, g: nat, i: nat, s: nat, k: nat)
    requires JobOk(j) && Good(j, x, a, b) && CanPlace(j, a, g, i) && s < CTRL_RING && k < j.cap
    ensures From(j, x, PlaceMark(a, g, i), PlaceWord(a, b, g, i), s, k, PlaceWord(a, b, g, i).recv[s][k])
  {
    PlacedInTime(j, x, a, b, g, i);
    var a', b' := PlaceMark(a, g, i), PlaceWord(a, b, g, i);
    if s == g % CTRL_RING && k == i {
      assert CameFrom(j, x, a', b', s, k, b'.recv[s][k], g);
    } else {
      OtherFrom(j, x, a, b, b', g, i, s, k, b.recv[s][k]);
    }
  }

  /** The receiving side of a placement. */
  lemma PlaceRecv(j: Job, x: nat, a: Rank, b: Rank, g: nat, i: nat)
    requires JobOk(j) && Good(j, x, a, b) && CanPlace(j, a, g, i)
    ensures Shaped(j, PlaceWord(a, b, g, i)) && RecvOk(j, x, PlaceMark(a, g, i), PlaceWord(a, b, g, i))
  {
    var a', b' := PlaceMark(a, g, i), PlaceWord(a, b, g, i);
    forall f: nat | b'.done < f <= |a'.placed| ensures SlotKeeps(j, x, a', b', f) { WordSlot(j, x, a, b, g, i, f); }
    forall s, k | 0 <= s < CTRL_RING && 0 <= k < j.cap ensures From(j, x, a', b', s, k, b'.recv[s][k]) {
      WordFrom(j, x, a, b, g, i, s, k);
    }
    hide SlotKeeps, From, PlacedOk;
  }

  /** The other direction does not notice a placement. */
  lemma PlaceBack(j: Job, x: nat, a: Rank, b: Rank, g: nat, i: nat)
    requires JobOk(j) && Good(j, x, a, b) && CanPlace(j, a, g, i)
    ensures RecvOk(j, 1 - x, PlaceWord(a, b, g, i), PlaceMark(a, g, i))
  {
    hide Staged, Counters, SlotKeeps, From;
    var a', b' := PlaceMark(a, g, i), PlaceWord(a, b, g, i);
    RecvFrame(j, 1 - x, b, a, a');
    SendFrame(j, 1 - x, b, b', a');
  }

  lemma PlaceKeeps(j: Job, x: nat, a: Rank, b: Rank, g: nat, i: nat)
    requires JobOk(j) && Good(j, x, a, b) && CanPlace(j, a, g, i)
    ensures Good(j, x, PlaceMark(a, g, i), PlaceWord(a, b, g, i))
  {
    PlaceRecv(j, x, a, b, g, i);
    PlaceBack(j, x, a, b, g, i);
    PlaceCounters(j, x, a, g, i);
    hide RecvOk, PlacedOk, CanPlace;
  }

  lemma PlaceCounters(j: Job, x: nat, a: Rank, g: nat, i: nat)
    requires Counters(j, a) && CanPlace(j, a, g, i)
    ensures Counters(j, PlaceMark(a, g, i))
  {
    var a' := PlaceMark(a, g, i);
    forall k | 0 <= k < |a'.placed|
      ensures PlacedOk(j.len(k + 1), a'.placed[k])
      ensures k + 1 < a'.gen || a'.sent ==> AllBelow(a'.placed[k], j.len(k + 1) + 1)
    {
      assert PlacedOk(j.len(k + 1), a.placed[k]);
      assert k + 1 < a.gen || a.sent ==> AllBelow(a.placed[k], j.len(k + 1) + 1);
    }
  }

  // ------------------------------------------------------------------ finish

  /** The peer's tag of generation g is in place. */
  ghost predicate TagPlaced(j: Job, a: Rank, g: nat) {
    0 < g <= |a.placed| && j.len(g) in a.placed[g - 1]
  }

  /** A consumed frame is in place with all its words. */
  lemma ConsumedPlaced(j: Job, x: nat, a: Rank, b: Rank, f: nat, i: nat)
    requires Good(j, x, a, b) && 0 < f <= b.done
    ensures f <= |a.placed| && (i in a.placed[f - 1] <==> i <= j.len(f))
  {
    assert PlacedOk(j.len(f), a.placed[f - 1]);
  }

  lemma OlderConsumed(h: nat, g: nat, done: nat)
    requires h < g <= done + 2 && h % CTRL_RING == g % CTRL_RING
    ensures h <= done
  {
    if h + CTRL_RING > g {
      SlotsApart(h, g);
    }
  }

  predicate TagIn(j: Job, x: nat, b: Rank, g: nat)
    requires |b.recv| == CTRL_RING
  {
    j.len(g) < |b.recv[g % CTRL_RING]| && b.recv[g % CTRL_RING][j.len(g)] == j.tag(x, g)
  }

  lemma StaleTag(j: Job, x: nat, a: Rank, b: Rank, g: nat)
    requires JobOk(j) && Good(j, x, a, b) && b.done < g <= b.done + 1 && TagIn(j, x, b, g) && !TagPlaced(j, a, g)
    ensures !j.zeroes && exists f: nat :: FalseTag(j, x, f, g)
  {
    OneApart(j, x, a, b);
    var n, w := j.len(g), j.tag(x, g);
    assert From(j, x, a, b, g % CTRL_RING, n, w);
    var f: nat :| CameFrom(j, x, a, b, g % CTRL_RING, n, w, f);
    assert PlacedOk(j.len(f), a.placed[f - 1]);
    if f > g {
      SlotsApart(g, f);
    }
    forall h: nat | f < h < g && h % CTRL_RING == g % CTRL_RING ensures j.len(h) < n {
      OlderConsumed(h, g, b.done);
      ConsumedPlaced(j, x, a, b, h, n);
      assert n !in a.placed[h - 1];
    }
    assert FalseTag(j, x, f, g);
  }

  lemma FalseTagShows(j: Job, x: nat, a: Rank, b: Rank, f: nat, g: nat)
    requires JobOk(j) && !j.zeroes && Good(j, x, a, b) && b.done < g <= b.done + 1 && g <= |a.placed|
    requires !TagPlaced(j, a, g) && FalseTag(j, x, f, g)
    ensures TagIn(j, x, b, g)
  {
    OneApart(j, x, a, b);
    var n, s := j.len(g), g % CTRL_RING;
    var w := b.recv[s][n];
    assert From(j, x, a, b, s, n, w);
    OlderConsumed(f, g, b.done);
    ConsumedPlaced(j, x, a, b, f, n);
    var h: nat :| CameFrom(j, x, a, b, s, n, w, h);
    assert a.placed[f - 1] == a.placed[f - 1] && h >= f;
    assert PlacedOk(j.len(g), a.placed[g - 1]);
    if h > g {
      SlotsApart(g, h);
    } else if f < h < g {
      OlderConsumed(h, g, b.done);
      ConsumedPlaced(j, x, a, b, h, n);
    }
  }

  /** The awaited tag of the running generation shows exactly when the peer's was placed or, in a
      slot that is not wiped, the newest older frame reaching that far left a false one. */
  lemma TagMeans(j: Job, x: nat, a: Rank, b: Rank, g: nat)
    requires JobOk(j) && Good(j, x, a, b) && b.done < g <= b.done + 1 && g <= |a.placed|
    ensures TagIn(j, x, b, g) <==> TagPlaced(j, a, g) || (!j.zeroes && exists f: nat :: FalseTag(j, x, f, g))
  {
    if TagPlaced(j, a, g) {
      assert SlotKeeps(j, x, a, b, g);
    } else {
      if TagIn(j, x, b, g) {
        StaleTag(j, x, a, b, g);
      }
      forall f: nat | !j.zeroes && FalseTag(j, x, f, g) ensures TagIn(j, x, b, g) {
        FalseTagShows(j, x, a, b, f, g);
      }
    }
  }

  /** Without false tags the awaited tag proves the peer's frame of this generation. */
  lemma TagProves(j: Job, x: nat, a: Rank, b: Rank)
    requires JobOk(j) && (j.zeroes || NoFalseTag(j)) && Good(j, x, a, b) && CanFinish(j, x, a)
    ensures TagPlaced(j, b, a.gen)
  {
    if !TagPlaced(j, b, a.gen) {
      StaleTag(j, 1 - x, b, a, a.gen);
    }
  }

  /** The copied frame is exactly the peer's. */
  lemma FrameRead(j: Job, x: nat, a: Rank, b: Rank)
    requires JobOk(j) && Good(j, x, a, b) && CanFinish(j, x, a) && TagPlaced(j, b, a.gen)
    ensures a.recv[a.gen % CTRL_RING][..j.len(a.gen)] == j.data(1 - x, a.gen)
  {
    var g, y := a.gen, 1 - x;
    assert SlotKeeps(j, y, b, a, g) && PlacedOk(j.len(g), b.placed[g - 1]);
    assert forall i :: 0 <= i < j.len(g) ==> i in b.placed[g - 1] && Frame(j, y, g)[i] == j.data(y, g)[i];
  }

  lemma FinishSlots(j: Job, x: nat, a: Rank, b: Rank, f: nat)
    requires JobOk(j) && Good(j, x, a, b) && CanFinish(j, x, a) && a.gen < f <= |b.placed|
    ensures SlotKeeps(j, 1 - x, b, Finish(j, a), f)
  {
    OneApart(j, x, a, b);
    assert SlotKeeps(j, 1 - x, b, a, f);
    SlotsApart(a.gen, f);
  }

  lemma FinishFrom(j: Job, x: nat, a: Rank, b: Rank, s: nat, i: nat)
    requires JobOk(j) && Good(j, x, a, b) && CanFinish(j, x, a) && s < CTRL_RING && i < j.cap
    ensures From(j, 1 - x, b, Finish(j, a), s, i, Finish(j, a).recv[s][i])
  {
    OneApart(j, x, a, b);
    var a', g, y := Finish(j, a), a.gen, 1 - x;
    assert From(j, y, b, a, s, i, a.recv[s][i]);
    if !(a'.recv[s][i] == 0 && (j.zeroes || NoneSince(b, s, i, 0))) {
      var f: nat :| CameFrom(j, y, b, a, s, i, a.recv[s][i], f);
      assert PlacedOk(j.len(f), b.placed[f - 1]);
      if j.zeroes && f > g {
        SlotsApart(g, f);
      }
      assert CameFrom(j, y, b, a', s, i, a'.recv[s][i], f);
    }
  }

  /** Every slot after the return: unread frames are kept, and each word still has its origin. */
  lemma FinishRing(j: Job, x: nat, a: Rank, b: Rank)
    requires JobOk(j) && Good(j, x, a, b) && CanFinish(j, x, a)
    ensures var a', y := Finish(j, a), 1 - x;
            && Shaped(j, a')
            && (forall f: nat :: a'.done < f <= |b.placed| ==> SlotKeeps(j, y, b, a', f))
            && (forall s, i :: 0 <= s < CTRL_RING && 0 <= i < j.cap ==> From(j, y, b, a', s, i, a'.recv[s][i]))
  {
    var a', y := Finish(j, a), 1 - x;
    forall f: nat | a'.done < f <= |b.placed| ensures SlotKeeps(j, y, b, a', f) { FinishSlots(j, x, a, b, f); }
    forall s, i | 0 <= s < CTRL_RING && 0 <= i < j.cap ensures From(j, y, b, a', s, i, a'.recv[s][i]) {
      FinishFrom(j, x, a, b, s, i);
    }
  }

  lemma FinishRecv(j: Job, x: nat, a: Rank, b: Rank)
    requires JobOk(j) && Good(j, x, a, b) && CanFinish(j, x, a) && TagPlaced(j, b, a.gen)
    ensures Shaped(j, Finish(j, a)) && RecvOk(j, 1 - x, b, Finish(j, a))
  {
    hide SlotKeeps, From, PlacedOk, Staged, Frame, Store;
    FrameRead(j, x, a, b);
    FinishRing(j, x, a, b);
    assert Finish(j, a).got == a.got + [j.data(1 - x, a.gen)] && |a.got| == a.done;
    hide Counters;
  }

  lemma FinishKeeps(j: Job, x: nat, a: Rank, b: Rank)
    requires JobOk(j) && Good(j, x, a, b) && CanFinish(j, x, a) && TagPlaced(j, b, a.gen)
    ensures Good(j, x, Finish(j, a), b)
  {
    FinishRecv(j, x, a, b);
    SendFrame(j, x, a, Finish(j, a), b);
    hide RecvOk, TagPlaced;
  }

  // ------------------------------------------------------------------ runs

  datatype Pair = Pair(a: Rank, b: Rank)

  datatype Move = Move(x: nat, step: Step)

  ghost predicate Enabled(j: Job, s: Pair, m: Move) {
    && m.x < 2 && Shaped(j, s.a) && Shaped(j, s.b)
    && if m.x == 0 then Can(j, 0, s.a, s.b, m.step) else Can(j, 1, s.b, s.a, m.step)
  }

  ghost function Next(j: Job, s: Pair, m: Move): Pair
    requires JobOk(j) && Enabled(j, s, m)
  {
    if m.x == 0 then
      var r := Act(j, 0, s.a, s.b, m.step); Pair(r.0, r.1)
    else
      var r := Act(j, 1, s.b, s.a, m.step); Pair(r.1, r.0)
  }

  /** A call returns only over a frame whose tag is in place. */
  ghost predicate Backed(j: Job, a: Rank, b: Rank, t: Step) {
    t.DoFinish? ==> TagPlaced(j, b, a.gen)
  }

  lemma ActKeeps(j: Job, x: nat, a: Rank, b: Rank, t: Step)
    requires JobOk(j) && Good(j, x, a, b) && Can(j, x, a, b, t) && Backed(j, a, b, t)
    ensures var r := Act(j, x, a, b, t); Good(j, x, r.0, r.1) && Good(j, 1 - x, r.1, r.0)
  {
    hide CanPlace, CanComplete, TagPlaced;
    match t
    case DoStart => StartKeeps(j, x, a, b);
    case DoPlace(g, i) => PlaceKeeps(j, x, a, b, g, i);
    case DoComplete => CompleteKeeps(j, x, a, b);
    case DoHear => HearKeeps(j, x, a, b);
    case DoFinish => FinishKeeps(j, x, a, b);
  }

  lemma AllBacked(j: Job, x: nat, a: Rank, b: Rank, t: Step)
    requires JobOk(j) && (j.zeroes || NoFalseTag(j)) && Good(j, x, a, b) && Can(j, x, a, b, t)
    ensures Backed(j, a, b, t)
  {
    if t.DoFinish? {
      TagProves(j, x, a, b);
    }
  }

  ghost predicate MoveBacked(j: Job, s: Pair, m: Move) {
    if m.x == 0 then Backed(j, s.a, s.b, m.step) else Backed(j, s.b, s.a, m.step)
  }

  lemma MoveKeeps(j: Job, s: Pair, m: Move)
    requires JobOk(j) && Good(j, 0, s.a, s.b) && Good(j, 1, s.b, s.a) && Enabled(j, s, m) && MoveBacked(j, s, m)
    ensures var s' := Next(j, s, m); Good(j, 0, s'.a, s'.b) && Good(j, 1, s'.b, s'.a)
  {
    hide Good, Can, Act, Backed;
    if m.x == 0 {
      ActKeeps(j, 0, s.a, s.b, m.step);
    } else {
      ActKeeps(j, 1, s.b, s.a, m.step);
    }
  }

  ghost predicate IsRun(j: Job, ss: seq<Pair>, ms: seq<Move>) {
    && JobOk(j) && |ss| == |ms| + 1 && ss[0] == Pair(Idle(j), Idle(j))
    && forall k :: 0 <= k < |ms| ==> Follows(j, ss, ms, k)
  }

  ghost predicate Follows(j: Job, ss: seq<Pair>, ms: seq<Move>, k: nat)
    requires JobOk(j) && k < |ms| && |ss| == |ms| + 1
  {
    Enabled(j, ss[k], ms[k]) && ss[k + 1] == Next(j, ss[k], ms[k])
  }

  lemma {:induction false} EveryRunIsGood(j: Job, ss: seq<Pair>, ms: seq<Move>, k: nat)
    requires IsRun(j, ss, ms) && (j.zeroes || NoFalseTag(j)) && k <= |ms|
    ensures Good(j, 0, ss[k].a, ss[k].b) && Good(j, 1, ss[k].b, ss[k].a)
    decreases k
  {
    if k > 0 {
      EveryRunIsGood(j, ss, ms, k - 1);
      hide Good, Can, Act, NoFalseTag;
      assert Follows(j, ss, ms, k - 1);
      var s, m := ss[k - 1], ms[k - 1];
      if m.x == 0 {
        AllBacked(j, 0, s.a, s.b, m.step);
      } else {
        AllBacked(j, 1, s.b, s.a, m.step);
      }
      MoveKeeps(j, s, m);
    }
  }

  /** A returned exchange delivered exactly the peer's frames, in order, and the ranks are never
      more than one generation apart. */
  lemma ExchangeSafe(j: Job, ss: seq<Pair>, ms: seq<Move>, k: nat)
    requires IsRun(j, ss, ms) && (j.zeroes || NoFalseTag(j)) && k <= |ms|
    ensures var s := ss[k];
            && s.a.gen <= s.b.gen + 1 && s.b.gen <= s.a.gen + 1
            && |s.a.got| == s.a.done && |s.b.got| == s.b.done
            && (forall g :: 0 <= g < s.a.done ==> s.a.got[g] == j.data(1, g + 1))
            && (forall g :: 0 <= g < s.b.done ==> s.b.got[g] == j.data(0, g + 1))
            && (s.a.done > 0 ==> s.a.last == j.data(1, s.a.done))
  {
    EveryRunIsGood(j, ss, ms, k);
    OneApart(j, 0, ss[k].a, ss[k].b);
  }
}
