// Whole runs of the scheduler: the invariant holds in every reachable state, and every
// unconstrained greedy request is answered with its own cold, plain, greedy stream.

module SchedRuns {
  import opened Wrappers
  import opened Trunk
  import opened Device
  import opened GreedyLane
  import opened Slots
  import opened LaneSteps
  import opened Scheduler
  import opened SchedInvariant
  import opened SchedAdmit
  import opened SchedPrefill
  import opened SchedDecode
  import opened SchedForest
  import opened SchedStreams

  // ------------------------------------------------------------------ runs

  datatype Event =
    | Arrive(arrival: Arrival, spec: bool)
    | Window
    | Step(inp: StepIn)
    | PackedStep(packs: ForestIn)
    | CancelLane(lane: nat)

  /** A decode step serves a lone lane or one batch, or packs several speculating lanes. */
  datatype Decoding = Together(inp: StepIn) | Packing(packs: ForestIn)

  function DecodeEvent(d: Decoding): Event {
    match d
    case Together(inp) => Step(inp)
    case Packing(packs) => PackedStep(packs)
  }

  /** The serve loop's own gates: admit only into spare capacity and an empty cursor. */
  ghost predicate Enabled(cfg: Config, st: Sched, e: Event) {
    match e
    case Arrive(_, _) => st.pf.None? && |st.lanes| < cfg.maxBatch
    case Window => true
    case Step(inp) => Speculates(st, inp) ==> LegalDraft(cfg, st.lanes[0].req, inp.draft)
    case PackedStep(packs) => ForestLegal(cfg, st, packs)
    case CancelLane(i) => i < |st.lanes|
  }

  /** What the step's own array accesses need: the slot table's shape and room for the rows. */
  ghost predicate InBounds(net: Network, cfg: Config, st: Sched, e: Event) {
    && ShapeOk(cfg, st) && CursorShape(cfg, st)
    && (e.Step? ==> DecodeOk(cfg, st, e.inp))
    && (e.PackedStep? ==> PackedInBounds(net, cfg, st, e.packs))
  }

  ghost predicate PackedInBounds(net: Network, cfg: Config, st: Sched, packs: ForestIn) {
    ForestOk(cfg, st, packs) && EachFits(cfg, PackedPass(net, cfg, st, packs), packs, Singles(st.lanes, packs))
  }

  ghost function Next(net: Network, cfg: Config, st: Sched, e: Event): Sched
    requires Enabled(cfg, st, e) && InBounds(net, cfg, st, e)
  {
    match e
    case Arrive(a, spec) => Admit(net, cfg, st, a, spec)
    case Window => PfAdvance(net, cfg, st)
    case Step(inp) => DecodeStep(net, cfg, st, inp)
    case PackedStep(packs) => ForestStep(net, cfg, st, packs)
    case CancelLane(i) => Cancel(st, i)
  }

  function Descending(n: nat): (r: seq<nat>)
    ensures forall i :: 0 <= i < |r| ==> r[i] < n
  {
    if n == 0 then [] else [n - 1] + Descending(n - 1)
  }

  /** An idle server: nothing cached, nothing in flight, device memory arbitrary. */
  ghost predicate Fresh(cfg: Config, st: Sched) {
    && st.lanes == [] && st.pf.None? && st.outcomes == []
    && st.free == Descending(cfg.maxBatch)
    && |st.slots| == cfg.maxBatch && |st.dev.cells| == CellCount(cfg) && |st.dev.kv| == cfg.maxBatch
    && (forall p :: 0 <= p < cfg.maxBatch ==>
          && |st.dev.kv[p]| == cfg.kvStride
          && st.slots[p].cache == [] && st.slots[p].ringCursor < RING_K
          && |st.slots[p].ringLen| == RING_K && forall j :: 0 <= j < RING_K ==> st.slots[p].ringLen[j] == 0)
  }

  ghost predicate Sound(net: Network, cfg: Config, st: Sched) {
    Inv(net, cfg, st) && Faithful(net, cfg, st)
  }

  lemma {:induction false} DescendingIsAll(n: nat)
    ensures multiset(Descending(n)) == AllSlots(n)
  {
    if n > 0 {
      DescendingIsAll(n - 1);
      assert multiset([n - 1] + Descending(n - 1)) == multiset{n - 1} + multiset(Descending(n - 1));
    }
  }

  lemma FreshSound(net: Network, cfg: Config, st: Sched)
    requires GridMode(cfg) && Fresh(cfg, st)
    ensures Sound(net, cfg, st)
  {
    DescendingIsAll(cfg.maxBatch);
    assert Owners(st) == multiset(st.free);
    forall p | 0 <= p < cfg.maxBatch ensures SlotOk(net, cfg, st.dev, p, st.slots[p], Agreed(st, p)) {
      assert st.dev.kv[p][..0] == [];
    }
  }

  /** No step ever reaches past a slot, a checkpoint band or a KV plane. */
  lemma SoundInBounds(net: Network, cfg: Config, st: Sched, e: Event)
    requires Sound(net, cfg, st) && Enabled(cfg, st, e)
    ensures InBounds(net, cfg, st, e)
  {
    hide SlotsOk, Owned, CursorOk, ForestOk, ForestLegal, EachFits, PackedPass, Singles;
    if e.Step? {
      DecodeAllowed(net, cfg, st, e.inp);
    }
    if e.PackedStep? {
      ForestAllowed(net, cfg, st, e.packs);
      SinglesFit(net, cfg, st, e.packs);
    }
  }

  lemma NextSound(net: Network, cfg: Config, st: Sched, e: Event)
    requires Sound(net, cfg, st) && Enabled(cfg, st, e)
    ensures InBounds(net, cfg, st, e) && Sound(net, cfg, Next(net, cfg, st, e))
  {
    hide Inv, Faithful, Admit, PfAdvance, DecodeStep, ForestStep, Cancel, ForestOk, ForestLegal, EachFits, PackedPass, Singles;
    SoundInBounds(net, cfg, st, e);
    match e
    case Arrive(a, spec) =>
      AdmitKeepsInv(net, cfg, st, a, spec);
      AdmitFaithful(net, cfg, st, a, spec);
    case Window =>
      PfAdvanceKeepsInv(net, cfg, st);
      PfAdvanceFaithful(net, cfg, st);
    case Step(inp) =>
      DecodeAllowed(net, cfg, st, inp);
      DecodeKeepsInv(net, cfg, st, inp);
      DecodeFaithful(net, cfg, st, inp);
    case PackedStep(packs) =>
      ForestAllowed(net, cfg, st, packs);
      ForestKeepsInv(net, cfg, st, packs);
      ForestFaithful(net, cfg, st, packs);
    case CancelLane(i) =>
      CancelKeeps(net, cfg, st, i);
  }

  /** A run: `sts[0]` is fresh and every step is one the serve loop may take. */
  ghost predicate IsRun(net: Network, cfg: Config, sts: seq<Sched>, es: seq<Event>) {
    && GridMode(cfg) && |sts| == |es| + 1 && Fresh(cfg, sts[0])
    && forall k :: 0 <= k < |es| ==> StepOk(net, cfg, sts, es, k)
  }

  ghost predicate StepOk(net: Network, cfg: Config, sts: seq<Sched>, es: seq<Event>, k: nat)
    requires k < |es| && |sts| == |es| + 1
  {
    && Enabled(cfg, sts[k], es[k])
    && (InBounds(net, cfg, sts[k], es[k]) ==> sts[k + 1] == Next(net, cfg, sts[k], es[k]))
  }

  /** In every reachable state every slot, lane and stream is as a cold server would have it. */
  lemma {:induction false} EveryRunIsSound(net: Network, cfg: Config, sts: seq<Sched>, es: seq<Event>, k: nat)
    requires IsRun(net, cfg, sts, es) && k <= |es|
    ensures Sound(net, cfg, sts[k]) && (k < |es| ==> InBounds(net, cfg, sts[k], es[k]))
    decreases k
  {
    if k == 0 {
      FreshSound(net, cfg, sts[0]);
    } else {
      EveryRunIsSound(net, cfg, sts, es, k - 1);
      hide Inv, Faithful, Next, Enabled, Fresh;
      assert StepOk(net, cfg, sts, es, k - 1);
      NextSound(net, cfg, sts[k - 1], es[k - 1]);
    }
    if k < |es| {
      assert StepOk(net, cfg, sts, es, k);
      SoundInBounds(net, cfg, sts[k], es[k]);
    }
  }

  // ------------------------------------------------------------------ the serve loop

  lemma DecodeParts(net: Network, cfg: Config, st: Sched, d: Decoding)
    requires Sound(net, cfg, st) && Enabled(cfg, st, DecodeEvent(d)) && InBounds(net, cfg, st, DecodeEvent(d))
    ensures d.Together? ==> DecodeOk(cfg, st, d.inp) && Next(net, cfg, st, DecodeEvent(d)) == DecodeStep(net, cfg, st, d.inp)
    ensures d.Packing? ==> Inv(net, cfg, st) && ForestOk(cfg, st, d.packs) && PackedInBounds(net, cfg, st, d.packs)
                           && Next(net, cfg, st, DecodeEvent(d)) == ForestStep(net, cfg, st, d.packs)
  {
    hide Inv, Faithful, DecodeOk, ForestOk, EachFits, DecodeStep, ForestStep, PackedPass, Singles, ForestLegal, ShapeOk, CursorShape;
  }

  /** Arrivals are admitted in order while the gate is open: the state after, and who is left. */
  ghost function Drained(net: Network, cfg: Config, st: Sched, queue: seq<Arrival>, active: bool): (r: (Sched, seq<Arrival>))
    requires Sound(net, cfg, st)
    ensures Sound(net, cfg, r.0)
    decreases |queue|
  {
    hide *;
    if st.pf.None? && |st.lanes| < cfg.maxBatch && queue != [] then
      ArriveSound(net, cfg, st, queue[0], active);
      Drained(net, cfg, Next(net, cfg, st, Arrive(queue[0], active)), queue[1..], active)
    else (st, queue)
  }

  lemma ArriveSound(net: Network, cfg: Config, st: Sched, a: Arrival, spec: bool)
    requires Sound(net, cfg, st) && st.pf.None? && |st.lanes| < cfg.maxBatch
    ensures Enabled(cfg, st, Arrive(a, spec)) && InBounds(net, cfg, st, Arrive(a, spec))
    ensures Sound(net, cfg, Next(net, cfg, st, Arrive(a, spec)))
  {
    assert Enabled(cfg, st, Arrive(a, spec));
    hide *;
    NextSound(net, cfg, st, Arrive(a, spec));
  }

  lemma DrainedNext(net: Network, cfg: Config, st: Sched, queue: seq<Arrival>, active: bool) returns (next: Sched)
    requires Sound(net, cfg, st) && st.pf.None? && |st.lanes| < cfg.maxBatch && queue != []
    ensures Sound(net, cfg, next) && Drained(net, cfg, st, queue, active) == Drained(net, cfg, next, queue[1..], active)
  {
    hide Sound, Next, Enabled, InBounds;
    ArriveSound(net, cfg, st, queue[0], active);
    next := Next(net, cfg, st, Arrive(queue[0], active));
  }

  lemma DrainedStops(net: Network, cfg: Config, st: Sched, queue: seq<Arrival>, active: bool)
    requires Sound(net, cfg, st) && !(st.pf.None? && |st.lanes| < cfg.maxBatch && queue != [])
    ensures Drained(net, cfg, st, queue, active) == (st, queue)
  {
    hide Sound, Next, Enabled, InBounds;
  }

  lemma RestOfRest(queue: seq<Arrival>, rest: seq<Arrival>)
    requires queue != [] && |rest| < |queue| && rest == queue[1..][|queue| - 1 - |rest|..]
    ensures rest == queue[|queue| - |rest|..]
  {
  }

  /** The drain takes arrivals in order, and stops only at a shut gate or an empty queue. */
  lemma {:induction false} DrainedInOrder(net: Network, cfg: Config, st: Sched, queue: seq<Arrival>, active: bool)
    requires Sound(net, cfg, st)
    ensures var (s, rest) := Drained(net, cfg, st, queue, active);
            && |rest| <= |queue| && rest == queue[|queue| - |rest|..]
            && (s.pf.Some? || |s.lanes| >= cfg.maxBatch || rest == [])
    decreases |queue|
  {
    hide *;
    if st.pf.None? && |st.lanes| < cfg.maxBatch && queue != [] {
      var next := DrainedNext(net, cfg, st, queue, active);
      DrainedInOrder(net, cfg, next, queue[1..], active);
      RestOfRest(queue, Drained(net, cfg, st, queue, active).1);
    } else {
      DrainedStops(net, cfg, st, queue, active);
    }
  }

  /** One turn of the serve loop, who is left in the queue, and whether the loop ended. */
  datatype Turn = Turn(st: Sched, rest: seq<Arrival>, ended: bool)

  /** Window, then a decode step over the lanes there are. */
  ghost function Worked(net: Network, cfg: Config, st: Sched, decode: Sched -> Decoding): (r: Sched)
    requires Sound(net, cfg, st) && forall s :: Enabled(cfg, s, DecodeEvent(decode(s)))
    ensures Sound(net, cfg, r)
  {
    NextSound(net, cfg, st, Window);
    var s := Next(net, cfg, st, Window);
    if s.lanes == [] then s
    else
      NextSound(net, cfg, s, DecodeEvent(decode(s)));
      Next(net, cfg, s, DecodeEvent(decode(s)))
  }

  /** Drain the queue; an idle server waits for `late`, or ends with its channel; then work. */
  ghost function ServeTurn(net: Network, cfg: Config, st: Sched, queue: seq<Arrival>, late: Option<Arrival>,
                           active: bool, decode: Sched -> Decoding): (t: Turn)
    requires Sound(net, cfg, st) && 0 < cfg.maxBatch && forall s :: Enabled(cfg, s, DecodeEvent(decode(s)))
    ensures Sound(net, cfg, t.st)
  {
    hide *;
    var (s, rest) := Drained(net, cfg, st, queue, active);
    if s.lanes == [] && s.pf.None? then
      if late.None? then Turn(s, rest, true)
      else
        ArriveSound(net, cfg, s, late.value, active);
        Turn(Worked(net, cfg, Next(net, cfg, s, Arrive(late.value, active)), decode), rest, false)
    else Turn(Worked(net, cfg, s, decode), rest, false)
  }
}
