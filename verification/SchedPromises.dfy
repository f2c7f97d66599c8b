// What the scheduler's runs promise a client, spelled out from the invariant.

module SchedPromises {
  import opened Wrappers
  import opened Trunk
  import opened Device
  import opened GreedyLane
  import opened Lossless
  import opened Slots
  import opened LaneSteps
  import opened Scheduler
  import opened SchedInvariant
  import opened SchedAdmit
  import opened SchedPrefill
  import opened SchedDecode
  import opened SchedForest
  import opened SchedStreams
  import opened SchedRuns

  /** Whatever was cached, evicted, speculated or rejected before, a completed greedy answer is exactly
      the answer a cold server decodes one token at a time: of an unconstrained request always, of one
      with penalties or a schema if it was admitted while speculation was off. */
  lemma AnswersAreCold(net: Network, cfg: Config, sts: seq<Sched>, es: seq<Event>, k: nat, i: nat) returns (n: nat)
    requires IsRun(net, cfg, sts, es) && k <= |es| && i < |sts[k].outcomes|
    requires var o := sts[k].outcomes[i];
             o.Answer? && Plainly(o.req, o.primed) && !o.cancelled
    ensures var o := sts[k].outcomes[i];
            Cold(net, cfg, o.req, n).finished && Cold(net, cfg, o.req, n).sent == o.sent
  {
    EveryRunIsSound(net, cfg, sts, es, k);
    hide Inv, Cold;
    var o := sts[k].outcomes[i];
    assert OutcomeOk(net, cfg, o);
    n :| Cold(net, cfg, o.req, n).sent == o.sent && (Cold(net, cfg, o.req, n).finished || o.cancelled);
  }

  /** A request that ends its prefill, resumed or not, starts decoding from the cold state. */
  lemma PrefillEndsCold(net: Network, cfg: Config, sts: seq<Sched>, es: seq<Event>, k: nat)
    requires IsRun(net, cfg, sts, es) && k < |es| && es[k].Window?
    requires sts[k].pf.Some? && sts[k + 1].pf.None?
    ensures |sts[k + 1].lanes| == |sts[k].lanes| + 1
    ensures var l, st := sts[k + 1].lanes[|sts[k].lanes|], sts[k + 1];
            && l.req == sts[k].pf.value.req && l.last == FirstToken(net, l.req.prompt)
            && Live(net, st.dev, l.phys, l.req.prompt)
  {
    EveryRunIsSound(net, cfg, sts, es, k);
    EveryRunIsSound(net, cfg, sts, es, k + 1);
    assert StepOk(net, cfg, sts, es, k);
    hide Fresh, Faithful;
    var st, c := sts[k], sts[k].pf.value;
    var i := |st.lanes|;
    PfAdvanceInstalls(net, cfg, st, c);
    hide PfAdvance, Owned, SlotsOk;
    var l := sts[k + 1].lanes[i];
    assert LaneOk(net, cfg, sts[k + 1].dev, l, sts[k + 1].slots[l.phys].cache);
  }

  lemma PfAdvanceInstalls(net: Network, cfg: Config, st: Sched, c: Cursor)
    requires Inv(net, cfg, st) && st.pf == Some(c)
    ensures var r := PfAdvance(net, cfg, st);
            if r.pf.None? then
              && |r.lanes| == |st.lanes| + 1
              && (var l := r.lanes[|st.lanes|];
                  && l.phys < |r.slots| && l.req == c.req && l.last == FirstToken(net, c.req.prompt)
                  && r.slots[l.phys].cache == c.req.prompt)
            else r.pf.value.req == c.req
  {
    if c.w0 < |c.req.prompt| {
      WindowKeepsInv(net, cfg, st, c);
      hide Live, SlotsOk, LanesOk, Owned, SnapshotDev, SnapshotSlot, WindowEnd, Consume;
    }
  }

  /** The windows a running prefill has left are the tail of the cold run's windows. */
  lemma WindowsAreColdTail(net: Network, cfg: Config, sts: seq<Sched>, es: seq<Event>, k: nat, coldCkpt: Option<nat>)
    requires IsRun(net, cfg, sts, es) && k <= |es| && cfg.prefixCache && sts[k].pf.Some?
    requires sts[k].pf.value.w0 < |sts[k].pf.value.req.prompt|
    ensures var c := sts[k].pf.value;
            var plen := |c.req.prompt|;
            && c.w0 / RING_STRIDE <= |Windows(cfg, 0, plen, coldCkpt)|
            && Windows(cfg, c.w0, plen, c.ckptAt) == Windows(cfg, 0, plen, coldCkpt)[c.w0 / RING_STRIDE..]
  {
    EveryRunIsSound(net, cfg, sts, es, k);
    var c := sts[k].pf.value;
    ReuseRunsColdTail(cfg, c.w0, |c.req.prompt|, c.ckptAt, coldCkpt);
  }

  /** In every reachable state each slot is owned exactly once, and an open gate has a slot. */
  lemma GateNeverFails(net: Network, cfg: Config, sts: seq<Sched>, es: seq<Event>, k: nat, prompt: seq<Token>)
    requires IsRun(net, cfg, sts, es) && k <= |es|
    ensures ShapeOk(cfg, sts[k])
    ensures var st := sts[k];
            && |st.free| + |st.lanes| + (if st.pf.Some? then 1 else 0) == cfg.maxBatch
            && (|st.lanes| + (if st.pf.Some? then 1 else 0) < cfg.maxBatch <==> Choice(cfg, st.free, st.slots, prompt).Some?)
  {
    EveryRunIsSound(net, cfg, sts, es, k);
    SlotsConserved(cfg, sts[k]);
    GateFindsSlot(cfg, sts[k], prompt);
  }

  /** No arrival is ever turned away for want of a slot. */
  lemma {:induction false} NeverDropped(net: Network, cfg: Config, sts: seq<Sched>, es: seq<Event>, k: nat)
    requires IsRun(net, cfg, sts, es) && k <= |es|
    ensures NoneDropped(sts[k].outcomes)
    decreases k
  {
    if k > 0 {
      NeverDropped(net, cfg, sts, es, k - 1);
      EveryRunIsSound(net, cfg, sts, es, k - 1);
      assert StepOk(net, cfg, sts, es, k - 1);
      NextDropsNone(net, cfg, sts[k - 1], es[k - 1]);
    }
  }

  lemma {:induction false} ServeFirstOutcomes(net: Network, cfg: Config, st: Sched, inp: StepIn, k: nat)
    requires DecodeOk(cfg, st, inp) && k <= |st.lanes|
    ensures ServeFirst(net, cfg, st, inp, k).st.outcomes == st.outcomes
    decreases k
  {
    if k > 0 {
      ServeFirstOutcomes(net, cfg, st, inp, k - 1);
      hide Serve, Update, LaneFits, ShapeOk;
    }
  }

  ghost predicate NoneDropped(os: seq<Outcome>) {
    forall i :: 0 <= i < |os| ==> os[i].reason != Capacity
  }

  lemma AdmitDropsNone(net: Network, cfg: Config, st: Sched, a: Arrival, spec: bool)
    requires ShapeOk(cfg, st) && Owned(cfg, st) && st.pf.None? && |st.lanes| < cfg.maxBatch && NoneDropped(st.outcomes)
    ensures NoneDropped(Admit(net, cfg, st, a, spec).outcomes)
  {
    GateFindsSlot(cfg, st, a.req.prompt);
    hide Choice, TooLong, Restore, Owned;
  }

  lemma StepDropsNone(net: Network, cfg: Config, st: Sched, inp: StepIn)
    requires DecodeOk(cfg, st, inp) && NoneDropped(st.outcomes)
    ensures NoneDropped(DecodeStep(net, cfg, st, inp).outcomes)
  {
    hide ServeFirst, Kept, Ended, ShapeOk, LaneFits, DecodeOk;
    ServeFirstOutcomes(net, cfg, st, inp, |st.lanes|);
  }

  lemma {:induction false} PackedOutcomes(net: Network, cfg: Config, st: Sched, packs: ForestIn, k: nat)
    requires PacksFit(cfg, st, packs) && k <= |Packed(st.lanes, packs)|
    ensures PackedFirst(net, cfg, st, packs, k).st.outcomes == st.outcomes
    decreases k
  {
    hide PackedDev, PackServed, PacksOf, Packed, Update, PacksFit;
    if k > 0 {
      hide PackedFirst;
      PackedOutcomes(net, cfg, st, packs, k - 1);
      var r := PackedUnroll(net, cfg, st, packs, k);
    }
  }

  lemma PackedDropsNone(net: Network, cfg: Config, st: Sched, packs: ForestIn)
    requires ForestOk(cfg, st, packs) && EachFits(cfg, PackedPass(net, cfg, st, packs), packs, Singles(st.lanes, packs))
    requires NoneDropped(st.outcomes)
    ensures NoneDropped(ForestStep(net, cfg, st, packs).outcomes)
  {
    hide PacksFit, EachFits, Singles, Packed, PackedFirst, ServeEach, Kept, Ended, ShapeOk;
    if |Packed(st.lanes, packs)| > 0 {
      PackedOutcomes(net, cfg, st, packs, |Packed(st.lanes, packs)|);
    }
  }

  lemma WindowDropsNone(net: Network, cfg: Config, st: Sched)
    requires ShapeOk(cfg, st) && CursorShape(cfg, st) && NoneDropped(st.outcomes)
    ensures NoneDropped(PfAdvance(net, cfg, st).outcomes)
  {
    hide SnapshotDev, SnapshotSlot, Consume, WindowEnd;
  }

  lemma NextDropsNone(net: Network, cfg: Config, st: Sched, e: Event)
    requires Inv(net, cfg, st) && Enabled(cfg, st, e) && InBounds(net, cfg, st, e) && NoneDropped(st.outcomes)
    ensures NoneDropped(Next(net, cfg, st, e).outcomes)
  {
    hide SlotsOk, LanesOk, Owned, CursorOk, NoneDropped, Admit, DecodeStep, ForestStep, ForestOk, EachFits, Singles, PackedPass, PfAdvance, ShapeOk, CursorShape, DecodeOk;
    match e
    case Arrive(a, spec) => AdmitDropsNone(net, cfg, st, a, spec);
    case Window => WindowDropsNone(net, cfg, st);
    case Step(inp) => StepDropsNone(net, cfg, st, inp);
    case PackedStep(packs) => PackedDropsNone(net, cfg, st, packs);
    case CancelLane(i) =>
  }
}
