// Which prefixes a prefill leaves to later requests: the ring holds the last sixteen boundaries it
// passed, newest first behind the ring's cursor.

module SchedRing {
  import opened Wrappers
  import opened Trunk
  import opened Device
  import opened GreedyLane
  import opened Slots
  import opened LaneSteps
  import opened Scheduler
  import opened SchedInvariant
  import opened SchedAdmit
  import opened SchedPrefill
  import opened SchedForest
  import opened SchedStreams
  import opened SchedRuns
  import opened SchedTurns
  import opened SchedAnswers

  /** Where the ring keeps the i-th newest entry. */
  function Behind(cursor: nat, i: nat): (j: nat)
    requires cursor < RING_K && i < RING_K
    ensures j < RING_K
  {
    if i < cursor then cursor - 1 - i else cursor + RING_K - 1 - i
  }

  /** The newest entries are `upTo` and the boundaries before it, down to what was reused. */
  ghost predicate HoldsBoundaries(sl: Slot, upTo: nat, reuse: nat) {
    && ShapedSlot(sl)
    && forall i: nat :: i < RING_K && reuse + i * RING_STRIDE < upTo ==> sl.ringLen[Behind(sl.ringCursor, i)] == upTo - i * RING_STRIDE
  }

  /** One more boundary. */
  lemma NextBoundary(cfg: Config, sl: Slot, c: Cursor)
    requires cfg.prefixCache && cfg.gridReuse && c.reuse <= c.w0 && c.w0 % RING_STRIDE == 0 && c.w0 + RING_STRIDE < |c.req.prompt|
    requires HoldsBoundaries(sl, c.w0, c.reuse)
    ensures HoldsBoundaries(SnapshotSlot(cfg, sl, c, c.w0 + RING_STRIDE), c.w0 + RING_STRIDE, c.reuse)
  {
    var w1 := c.w0 + RING_STRIDE;
    var r := SnapshotSlot(cfg, sl, c, w1);
    assert w1 % RING_STRIDE == 0;
    forall i: nat | i < RING_K && c.reuse + i * RING_STRIDE < w1 ensures r.ringLen[Behind(r.ringCursor, i)] == w1 - i * RING_STRIDE {
      if i > 0 {
        assert Behind(r.ringCursor, i) == Behind(sl.ringCursor, i - 1) != sl.ringCursor;
      }
    }
  }

  /** The last window, which ends with the prompt, leaves the ring alone. */
  lemma LastWindow(cfg: Config, sl: Slot, c: Cursor)
    requires HoldsBoundaries(sl, c.w0, c.reuse)
    ensures HoldsBoundaries(SnapshotSlot(cfg, sl, c, |c.req.prompt|), c.w0, c.reuse)
  {
  }

  /** A prefill under way has tokens left, and its slot's ring holds what it has passed. */
  ghost predicate CursorRing(cfg: Config, st: Sched) {
    cfg.prefixCache && st.pf.Some? ==>
      var c := st.pf.value;
      && (c.req.prompt == [] || c.w0 < |c.req.prompt|)
      && c.phys < |st.slots| && HoldsBoundaries(st.slots[c.phys], c.w0, c.reuse)
  }

  /** What a finished prefill leaves: `upTo` is the last boundary before the prompt's end. */
  lemma WindowRing(net: Network, cfg: Config, st: Sched)
    requires Inv(net, cfg, st) && cfg.prefixCache && CursorRing(cfg, st)
    ensures CursorRing(cfg, PfAdvance(net, cfg, st))
    ensures st.pf.Some? && PfAdvance(net, cfg, st).pf.None? && st.pf.value.w0 < |st.pf.value.req.prompt| ==>
              var c := st.pf.value;
              && |c.req.prompt| <= c.w0 + RING_STRIDE && c.phys < |PfAdvance(net, cfg, st).slots|
              && HoldsBoundaries(PfAdvance(net, cfg, st).slots[c.phys], c.w0, c.reuse)
  {
    hide SlotsOk, LanesOk, Owned, Consume, SnapshotDev, SnapshotSlot, Live, HoldsBoundaries, CopyCell, BudgetOk;
    if st.pf.Some? && st.pf.value.w0 < |st.pf.value.req.prompt| {
      var c := st.pf.value;
      var sl, plen := st.slots[c.phys], |c.req.prompt|;
      GridWindow(cfg, c.w0, plen, c.ckptAt);
      hide WindowEnd;
      if c.w0 + RING_STRIDE < plen {
        NextBoundary(cfg, sl, c);
      } else {
        LastWindow(cfg, sl, c);
        PromptKeepsRing(SnapshotSlot(cfg, sl, c, plen), c.req.prompt, c.w0, c.reuse);
      }
    }
  }

  lemma PromptKeepsRing(sl: Slot, prompt: seq<Token>, upTo: nat, reuse: nat)
    requires HoldsBoundaries(sl, upTo, reuse)
    ensures HoldsBoundaries(sl.(cache := prompt), upTo, reuse) && HoldsBoundaries(sl.(prompt := prompt, cache := prompt), upTo, reuse)
  {
  }

  // ------------------------------------------------------------------ over whole runs

  lemma SameRingHolds(sl: Slot, sl': Slot, upTo: nat, reuse: nat)
    requires HoldsBoundaries(sl, upTo, reuse) && sl' == sl.(cache := sl'.cache)
    ensures HoldsBoundaries(sl', upTo, reuse)
  {
  }

  lemma DecodedRing(cfg: Config, st: Sched, st': Sched, roles: Roles)
    requires CursorRing(cfg, st) && Decoded(cfg, st, st', roles)
    ensures CursorRing(cfg, st')
  {
    hide Decoded, HoldsBoundaries;
    OldOutcomes(cfg, st, st', roles);
    if cfg.prefixCache && st.pf.Some? {
      var c := st.pf.value;
      SameRingHolds(st.slots[c.phys], st'.slots[c.phys], c.w0, c.reuse);
    }
  }

  /** A started request has passed no boundary of its own yet. */
  lemma AdmitRing(net: Network, cfg: Config, st: Sched, a: Arrival, spec: bool)
    requires ShapeOk(cfg, st) && st.pf.None?
    ensures CursorRing(cfg, Admit(net, cfg, st, a, spec))
  {
    hide Choice, TooLong, Restore, ClampedBudget, Boundary;
    ChoiceIsFree(cfg, st.free, st.slots, a.req.prompt);
    ChoiceIsShort(cfg, st.free, st.slots, a.req.prompt);
    match Choice(cfg, st.free, st.slots, a.req.prompt)
    case None =>
    case Some(k) => assert k.phys in st.free;
  }

  lemma NextRing(net: Network, cfg: Config, st: Sched, e: Event)
    requires Inv(net, cfg, st) && Enabled(cfg, st, e) && InBounds(net, cfg, st, e) && cfg.prefixCache && CursorRing(cfg, st)
    ensures CursorRing(cfg, Next(net, cfg, st, e))
  {
    hide SlotsOk, LanesOk, Owned, CursorOk, CursorRing, Decoded, Admit, DecodeStep, ForestStep, ForestOk, EachFits, Singles, PackedPass,
         PfAdvance, DecodeOk, RolesIn, RolesPacked;
    match e
    case Arrive(a, spec) => AdmitRing(net, cfg, st, a, spec);
    case Window => WindowRing(net, cfg, st);
    case Step(inp) =>
      StepDecoded(net, cfg, st, inp);
      DecodedRing(cfg, st, DecodeStep(net, cfg, st, inp), RolesIn(st, inp));
    case PackedStep(packs) =>
      ForestDecoded(net, cfg, st, packs);
      DecodedRing(cfg, st, ForestStep(net, cfg, st, packs), RolesPacked(st, packs));
    case CancelLane(i) => CancelRing(cfg, st, i);
  }

  lemma CancelRing(cfg: Config, st: Sched, i: nat)
    requires i < |st.lanes| && CursorRing(cfg, st)
    ensures CursorRing(cfg, Cancel(st, i))
  {
    hide HoldsBoundaries;
  }

  /** In every reachable state the ring of a prefill's slot holds the last sixteen boundaries that the
      prefill has passed. */
  lemma {:induction false} RingHoldsLast(net: Network, cfg: Config, sts: seq<Sched>, es: seq<Event>, k: nat)
    requires IsRun(net, cfg, sts, es) && k <= |es| && cfg.prefixCache
    ensures CursorRing(cfg, sts[k])
    decreases k
  {
    hide Inv, Faithful, Enabled, InBounds, Next, CursorRing;
    if k == 0 {
      assert CursorRing(cfg, sts[0]) by { NoCursorRing(cfg, sts[0]); }
    } else {
      RingHoldsLast(net, cfg, sts, es, k - 1);
      EveryRunIsSound(net, cfg, sts, es, k - 1);
      assert StepOk(net, cfg, sts, es, k - 1);
      SoundInv(net, cfg, sts[k - 1]);
      NextRing(net, cfg, sts[k - 1], es[k - 1]);
    }
  }

  lemma NoCursorRing(cfg: Config, st: Sched)
    requires st.pf.None?
    ensures CursorRing(cfg, st)
  {
  }

  /** And when it ends, its slot offers the last sixteen boundaries of its prompt that it passed:
      multiples of 512 below the prompt's length and above what was reused. */
  lemma PrefillLeavesBoundaries(net: Network, cfg: Config, sts: seq<Sched>, es: seq<Event>, k: nat, b: nat)
    requires IsRun(net, cfg, sts, es) && k < |es| && cfg.prefixCache && es[k].Window?
    requires sts[k].pf.Some? && sts[k + 1].pf.None?
    requires var c := sts[k].pf.value;
             c.reuse < b < |c.req.prompt| <= b + RING_K * RING_STRIDE && b % RING_STRIDE == 0
    ensures var c := sts[k].pf.value;
            c.phys < |sts[k + 1].slots| && b in sts[k + 1].slots[c.phys].ringLen
  {
    hide Inv, Faithful, Enabled, InBounds, PfAdvance, HoldsBoundaries, Fresh;
    EveryRunIsSound(net, cfg, sts, es, k);
    RingHoldsLast(net, cfg, sts, es, k);
    assert StepOk(net, cfg, sts, es, k);
    SoundInv(net, cfg, sts[k]);
    var c := sts[k].pf.value;
    CursorOnGrid(net, cfg, sts[k]);
    WindowRing(net, cfg, sts[k]);
    BoundaryThere(sts[k + 1].slots[c.phys], c.w0, c.reuse, b);
  }

  lemma CursorOnGrid(net: Network, cfg: Config, st: Sched)
    requires Inv(net, cfg, st) && st.pf.Some? && cfg.prefixCache && 0 < |st.pf.value.req.prompt|
    ensures st.pf.value.w0 < |st.pf.value.req.prompt| ==> st.pf.value.w0 % RING_STRIDE == 0
  {
    hide SlotsOk, LanesOk, Owned, Live;
  }

  lemma BoundaryThere(sl: Slot, upTo: nat, reuse: nat, b: nat)
    requires HoldsBoundaries(sl, upTo, reuse) && upTo % RING_STRIDE == 0 && b % RING_STRIDE == 0
    requires reuse < b <= upTo < b + RING_K * RING_STRIDE
    ensures b in sl.ringLen
  {
    var i := (upTo - b) / RING_STRIDE;
    assert upTo - i * RING_STRIDE == b;
    assert sl.ringLen[Behind(sl.ringCursor, i)] == b;
  }

  /** A resume drops exactly the entries past it: the one it used is still there for the next. */
  lemma ResumeKeepsEntries(ringLen: seq<nat>, reuse: nat, j: nat)
    requires j < |ringLen|
    ensures var r := Invalidated(ringLen, reuse);
            && |r| == |ringLen|
            && (ringLen[j] <= reuse ==> r[j] == ringLen[j]) && (r[j] != 0 ==> r[j] == ringLen[j] <= reuse)
            && (reuse in ringLen ==> reuse in r)
  {
    var r := Invalidated(ringLen, reuse);
    if reuse in ringLen {
      var i :| 0 <= i < |ringLen| && ringLen[i] == reuse;
      assert r[i] == reuse;
    }
  }
}
