// Admission keeps the scheduler's invariant, and starts every request in the cold state.

module SchedAdmit {
  import opened Wrappers
  import opened Trunk
  import opened Device
  import opened GreedyLane
  import opened Slots
  import opened LaneSteps
  import opened Scheduler
  import opened SchedInvariant

  // ------------------------------------------------------------------ the prefix search

  /** A ring candidate: a used entry whose whole prefix matches, short of the prompt's end. */
  ghost predicate RingHitOk(free: seq<nat>, slots: seq<Slot>, prompt: seq<Token>, h: Hit) {
    && h.from.Ring? && h.idx < |free| && free[h.idx] == h.slot < |slots|
    && h.from.entry < |slots[h.slot].ringLen| && slots[h.slot].ringLen[h.from.entry] == h.len
    && 0 < h.len <= Lcp(slots[h.slot].cache, prompt) && h.len < |prompt|
  }

  lemma {:induction false} RingHitsAre(free: seq<nat>, slots: seq<Slot>, prompt: seq<Token>, idx: nat, n: nat, h: Hit)
    requires idx < |free| && free[idx] < |slots| && n <= |slots[free[idx]].ringLen|
    ensures var sl := slots[free[idx]];
            h in RingHits(sl.ringLen, Lcp(sl.cache, prompt), |prompt|, idx, free[idx], n)
            <==> (RingHitOk(free, slots, prompt, h) && h.idx == idx && h.from.entry < n)
    decreases n
  {
    hide Lcp;
    if n > 0 {
      RingHitsAre(free, slots, prompt, idx, n - 1, h);
    }
  }

  /** Under grid reuse the candidates are exactly the usable ring entries of free slots. */
  lemma {:induction false} GridHitsAre(cfg: Config, free: seq<nat>, slots: seq<Slot>, prompt: seq<Token>, n: nat, h: Hit)
    requires cfg.gridReuse && n <= |free| && forall p :: p in free ==> p < |slots|
    ensures h in Hits(cfg, free, slots, prompt, n) <==> RingHitOk(free, slots, prompt, h) && h.idx < n
    decreases n
  {
    hide Lcp, RingHits, RingHitOk;
    if n > 0 {
      GridHitsAre(cfg, free, slots, prompt, n - 1, h);
      var p := free[n - 1];
      assert p in free;
      RingHitsAre(free, slots, prompt, n - 1, |slots[p].ringLen|, h);
      EntryInRing(free, slots, prompt, h);
      GridSlotHits(cfg, slots[p], prompt, n - 1, p);
      hide SlotHits;
    } else {
      EntryInRing(free, slots, prompt, h);
    }
  }

  lemma EntryInRing(free: seq<nat>, slots: seq<Slot>, prompt: seq<Token>, h: Hit)
    ensures RingHitOk(free, slots, prompt, h) ==>
              h.idx < |free| && h.slot == free[h.idx] < |slots| && h.from.Ring? && h.from.entry < |slots[h.slot].ringLen|
  {
  }

  lemma GridSlotHits(cfg: Config, sl: Slot, prompt: seq<Token>, idx: nat, slot: nat)
    requires cfg.gridReuse
    ensures SlotHits(cfg, sl, prompt, idx, slot) == RingHits(sl.ringLen, Lcp(sl.cache, prompt), |prompt|, idx, slot, |sl.ringLen|)
  {
  }

  /** What the chosen slot and resume point guarantee. */
  ghost predicate PickOk(cfg: Config, free: seq<nat>, slots: seq<Slot>, prompt: seq<Token>, k: Pick) {
    && (exists i :: 0 <= i < |free| && k.phys == free[i] && k.free == free[..i] + free[i + 1..])
    && k.phys < |slots|
    && (k.from.None? ==> k.reuse == 0)
    && (k.from.Some? ==>
          && cfg.prefixCache && k.from.value.Ring?
          && k.from.value.entry < |slots[k.phys].ringLen| && slots[k.phys].ringLen[k.from.value.entry] == k.reuse
          && 0 < k.reuse < |prompt| && k.reuse <= |slots[k.phys].cache|
          && slots[k.phys].cache[..k.reuse] == prompt[..k.reuse])
  }

  lemma ChoiceOk(cfg: Config, free: seq<nat>, slots: seq<Slot>, prompt: seq<Token>)
    requires GridMode(cfg) && forall p :: p in free ==> p < |slots|
    ensures match Choice(cfg, free, slots, prompt)
            case None => free == []
            case Some(k) => PickOk(cfg, free, slots, prompt, k)
  {
    hide Hits, Longest, Lcp;
    var hs := Hits(cfg, free, slots, prompt, |free|);
    var best := if cfg.prefixCache then Longest(hs) else None;
    LongestIs(hs);
    if best.Some? {
      var h := best.value;
      GridHitsAre(cfg, free, slots, prompt, |free|, h);
      var sl := slots[h.slot];
      assert sl.cache[..Lcp(sl.cache, prompt)][..h.len] == sl.cache[..h.len];
      assert prompt[..Lcp(sl.cache, prompt)][..h.len] == prompt[..h.len];
    } else if free != [] {
      var i := |free| - 1;
      assert free[i] in free;
      assert free[..i] + free[i + 1..] == free[..i];
    }
  }

  /** The longest usable checkpoint of any free slot is the one that is resumed. */
  lemma ChoiceIsLongest(cfg: Config, free: seq<nat>, slots: seq<Slot>, prompt: seq<Token>, h: Hit)
    requires cfg.gridReuse && cfg.prefixCache && forall p :: p in free ==> p < |slots|
    requires RingHitOk(free, slots, prompt, h)
    ensures Choice(cfg, free, slots, prompt).Some? && Choice(cfg, free, slots, prompt).value.reuse >= h.len
  {
    GridHitsAre(cfg, free, slots, prompt, |free|, h);
    LongestIs(Hits(cfg, free, slots, prompt, |free|));
    var best := Longest(Hits(cfg, free, slots, prompt, |free|)).value;
    GridHitsAre(cfg, free, slots, prompt, |free|, best);
    hide Hits, Longest, Lcp;
  }

  // ------------------------------------------------------------------ ownership moves

  lemma RemoveOne(s: seq<nat>, i: nat)
    requires i < |s|
    ensures multiset(s) == multiset(s[..i] + s[i + 1..]) + multiset{s[i]}
  {
    assert s == s[..i] + [s[i]] + s[i + 1..];
  }

  // ------------------------------------------------------------------ one slot through admission

  /** Dropping the entries past the reuse point is sound for the new sequence. */
  lemma ReusedSlot(net: Network, cfg: Config, d: Dev, d': Dev, p: nat, sl: Slot, prompt: seq<Token>, reuse: nat)
    requires SlotOk(net, cfg, d, p, sl, sl.cache)
    requires reuse <= |sl.cache| && reuse <= |prompt| && sl.cache[..reuse] == prompt[..reuse]
    requires d'.kv == d.kv && |d'.cells| == |d.cells|
    requires forall i :: 0 <= i < |d.cells| && i != p ==> d'.cells[i] == d.cells[i]
    ensures var sl' := sl.(ringLen := Invalidated(sl.ringLen, reuse));
            SlotOk(net, cfg, d', p, sl', prompt[..reuse]) && SlotOk(net, cfg, d', p, sl', sl.cache)
  {
    var sl' := sl.(ringLen := Invalidated(sl.ringLen, reuse));
    hide Fold;
    forall j | 0 <= j < RING_K
      ensures RingEntryOk(net, cfg, d', p, sl', prompt[..reuse], j) && RingEntryOk(net, cfg, d', p, sl', sl.cache, j)
    {
      assert RingEntryOk(net, cfg, d, p, sl, sl.cache, j);
      RingCellBounds(cfg, p, j);
      if sl'.ringLen[j] > 0 {
        var n := sl.ringLen[j];
        assert prompt[..reuse][..n] == prompt[..n];
        assert sl.cache[..n] == sl.cache[..reuse][..n];
      }
    }
    RowsOfPrefix(net, sl.cache, reuse);
    assert d'.kv[p][..reuse] == d.kv[p][..|sl.cache|][..reuse];
  }

  /** A restored ring entry puts the slot exactly where cold prefill of the prefix would. */
  lemma ResumedCold(net: Network, cfg: Config, d: Dev, p: nat, sl: Slot, prompt: seq<Token>, j: nat)
    requires SlotOk(net, cfg, d, p, sl, sl.cache) && j < RING_K && sl.ringLen[j] > 0
    requires sl.ringLen[j] <= |prompt| && sl.ringLen[j] <= |sl.cache| && sl.cache[..sl.ringLen[j]] == prompt[..sl.ringLen[j]]
    ensures RingCell(cfg, p, j) < |d.cells|
    ensures Live(net, CopyCell(d, RingCell(cfg, p, j), p), p, prompt[..sl.ringLen[j]])
    ensures sl.ringLen[j] % RING_STRIDE == 0
  {
    var n := sl.ringLen[j];
    assert RingEntryOk(net, cfg, d, p, sl, sl.cache, j);
    RingCellBounds(cfg, p, j);
    RowsOfPrefix(net, sl.cache, n);
    hide Fold;
    assert d.kv[p][..n] == d.kv[p][..|sl.cache|][..n];
  }

  // ------------------------------------------------------------------ the step

  lemma LaneFrame(net: Network, cfg: Config, d: Dev, d': Dev, l: Lane, cache: seq<Token>)
    requires LaneOk(net, cfg, d, l, cache) && SameDims(d, d')
    requires l.phys < |d.kv| && d'.kv[l.phys] == d.kv[l.phys] && d'.cells[l.phys] == d.cells[l.phys]
    ensures LaneOk(net, cfg, d', l, cache)
  {
  }

  /** Every other slot and lane is untouched when only slot `p`'s live cell was rewritten. */
  lemma OthersKept(net: Network, cfg: Config, st: Sched, st': Sched, p: nat)
    requires Inv(net, cfg, st) && ShapeOk(cfg, st') && CursorShape(cfg, st') && p < cfg.maxBatch
    requires st.pf.None? && (st'.pf.Some? ==> st'.pf.value.phys == p)
    requires st'.lanes == st.lanes && st'.dev.kv == st.dev.kv
    requires forall i :: 0 <= i < |st.dev.cells| && i != p ==> st'.dev.cells[i] == st.dev.cells[i]
    requires st'.slots == st.slots[p := st'.slots[p]]
    requires forall i :: 0 <= i < |st.lanes| ==> st.lanes[i].phys != p
    requires SlotOk(net, cfg, st'.dev, p, st'.slots[p], Agreed(st', p))
    ensures SlotsOk(net, cfg, st') && LanesOk(net, cfg, st')
  {
    forall q | 0 <= q < cfg.maxBatch ensures SlotOk(net, cfg, st'.dev, q, st'.slots[q], Agreed(st', q)) {
      if q != p {
        forall j | 0 <= j < RING_K && cfg.prefixCache
          ensures st'.dev.cells[RingCell(cfg, q, j)] == st.dev.cells[RingCell(cfg, q, j)]
        {
          RingCellBounds(cfg, q, j);
        }
        SlotFrame(net, cfg, st.dev, st'.dev, q, st.slots[q], st.slots[q].cache);
      }
    }
    forall i | 0 <= i < |st.lanes|
      ensures LaneOk(net, cfg, st'.dev, st'.lanes[i], st'.slots[st'.lanes[i].phys].cache)
    {
      LaneFrame(net, cfg, st.dev, st'.dev, st.lanes[i], st.slots[st.lanes[i].phys].cache);
    }
  }

  lemma PickedFree(cfg: Config, st: Sched, k: Pick)
    requires ShapeOk(cfg, st) && Owned(cfg, st) && exists i :: 0 <= i < |st.free| && k.phys == st.free[i] && k.free == st.free[..i] + st.free[i + 1..]
    ensures multiset(st.free) == multiset(k.free) + multiset{k.phys}
    ensures k.phys < cfg.maxBatch && forall i :: 0 <= i < |st.lanes| ==> st.lanes[i].phys != k.phys
    ensures forall p :: p in k.free ==> p in st.free
  {
    var i :| 0 <= i < |st.free| && k.phys == st.free[i] && k.free == st.free[..i] + st.free[i + 1..];
    RemoveOne(st.free, i);
    FreeAlone(cfg, st, i);
  }

  lemma RejectedShape(net: Network, cfg: Config, st: Sched, a: Arrival, k: Pick)
    requires ShapeOk(cfg, st) && st.pf.None? && Owned(cfg, st) && PickOk(cfg, st.free, st.slots, a.req.prompt, k)
    ensures k.phys < cfg.maxBatch
    ensures ShapeOk(cfg, Rejected(cfg, st, a, k)) && Owned(cfg, Rejected(cfg, st, a, k))
  {
    PickedFree(cfg, st, k);
    assert k.phys in multiset(st.free);
    hide PickOk, Restore, ShapeOk, Invalidated;
    RejectedFits(cfg, st, a, k);
    assert k.phys < |st.slots| && k.phys < |st.dev.cells| by { PhysInRange(cfg, st, k.phys); }
    assert Owners(Rejected(cfg, st, a, k)) == Owners(st);
  }

  lemma PhysInRange(cfg: Config, st: Sched, p: nat)
    requires ShapeOk(cfg, st) && p < cfg.maxBatch
    ensures p < |st.slots| && p < |st.dev.cells|
  {
  }

  /** The slot's own checkpoints after a turned-away request. */
  lemma RejectedSlot(net: Network, cfg: Config, st: Sched, a: Arrival, k: Pick)
    requires Inv(net, cfg, st) && st.pf.None? && PickOk(cfg, st.free, st.slots, a.req.prompt, k) && k.phys < cfg.maxBatch
    ensures var st' := Rejected(cfg, st, a, k); SlotOk(net, cfg, st'.dev, k.phys, st'.slots[k.phys], st'.slots[k.phys].cache)
  {
    var p, sl := k.phys, st.slots[k.phys];
    assert SlotOk(net, cfg, st.dev, p, sl, Agreed(st, p));
    hide Fold, LanesOk, SlotsOk, Owned, SlotOk, ShapeOk;
    assert k.reuse == 0 ==> sl.cache[..k.reuse] == a.req.prompt[..k.reuse];
    ReusedSlot(net, cfg, st.dev, Rejected(cfg, st, a, k).dev, p, sl, a.req.prompt, k.reuse);
  }

  lemma RejectedKeepsInv(net: Network, cfg: Config, st: Sched, a: Arrival, k: Pick)
    requires Inv(net, cfg, st) && st.pf.None? && PickOk(cfg, st.free, st.slots, a.req.prompt, k)
    ensures Inv(net, cfg, Rejected(cfg, st, a, k))
  {
    RejectedShape(net, cfg, st, a, k);
    PickedFree(cfg, st, k);
    RejectedFrame(cfg, st, a, k);
    hide LanesOk, SlotsOk, Owned, SlotOk, ShapeOk, PickOk, CursorShape, Rejected;
    RejectedSlot(net, cfg, st, a, k);
    OthersKept(net, cfg, st, Rejected(cfg, st, a, k), k.phys);
  }

  lemma RejectedFrame(cfg: Config, st: Sched, a: Arrival, k: Pick)
    requires k.phys < |st.slots| && k.phys < |st.dev.cells| && st.pf.None?
    ensures var st' := Rejected(cfg, st, a, k);
            && st'.lanes == st.lanes && st'.dev.kv == st.dev.kv && |st'.dev.cells| == |st.dev.cells|
            && st'.slots == st.slots[k.phys := st'.slots[k.phys]] && st'.pf.None? && CursorShape(cfg, st')
            && (forall i :: 0 <= i < |st.dev.cells| && i != k.phys ==> st'.dev.cells[i] == st.dev.cells[i])
            && (k.phys < |st'.slots| ==> Agreed(st', k.phys) == st'.slots[k.phys].cache)
  {
  }

  lemma ResumePoint(net: Network, cfg: Config, st: Sched, a: Arrival, spec: bool, k: Pick)
    requires Inv(net, cfg, st) && st.pf.None? && PickOk(cfg, st.free, st.slots, a.req.prompt, k) && k.phys < cfg.maxBatch
    requires !TooLong(cfg, |a.req.prompt|, a.req.maxNew, spec)
    ensures var st' := Started(net, cfg, st, a, spec, k);
            && Live(net, st'.dev, k.phys, a.req.prompt[..k.reuse])
            && k.reuse % RING_STRIDE == 0 && k.reuse <= |a.req.prompt|
            && (k.reuse == |a.req.prompt| ==> a.req.prompt == [])
  {
    var p, sl := k.phys, st.slots[k.phys];
    assert SlotOk(net, cfg, st.dev, p, sl, Agreed(st, p));
    if k.from.Some? {
      ResumedCold(net, cfg, st.dev, p, sl, a.req.prompt, k.from.value.entry);
    } else {
      assert a.req.prompt[..0] == [];
    }
  }

  lemma StartedShape(net: Network, cfg: Config, st: Sched, a: Arrival, spec: bool, k: Pick)
    requires ShapeOk(cfg, st) && st.pf.None? && Owned(cfg, st) && PickOk(cfg, st.free, st.slots, a.req.prompt, k)
    requires !TooLong(cfg, |a.req.prompt|, a.req.maxNew, spec)
    ensures k.phys < cfg.maxBatch
    ensures ShapeOk(cfg, Started(net, cfg, st, a, spec, k)) && Owned(cfg, Started(net, cfg, st, a, spec, k))
    ensures CursorShape(cfg, Started(net, cfg, st, a, spec, k))
  {
    PickedFree(cfg, st, k);
    assert k.phys in multiset(st.free) && k.reuse <= |a.req.prompt|;
    hide PickOk, Restore, ShapeOk, Invalidated, TooLong, CursorShape, ClampedBudget;
    StartedFits(net, cfg, st, a, spec, k);
    assert k.phys < |st.slots| && k.phys < |st.dev.cells| by { PhysInRange(cfg, st, k.phys); }
    assert Owners(Started(net, cfg, st, a, spec, k)) == Owners(st);
  }

  lemma StartedSlot(net: Network, cfg: Config, st: Sched, a: Arrival, spec: bool, k: Pick)
    requires Inv(net, cfg, st) && st.pf.None? && PickOk(cfg, st.free, st.slots, a.req.prompt, k) && k.phys < cfg.maxBatch
    ensures k.reuse <= |a.req.prompt|
    ensures var st' := Started(net, cfg, st, a, spec, k);
            SlotOk(net, cfg, st'.dev, k.phys, st'.slots[k.phys], a.req.prompt[..k.reuse])
  {
    var p, sl := k.phys, st.slots[k.phys];
    assert SlotOk(net, cfg, st.dev, p, sl, Agreed(st, p));
    hide Fold, LanesOk, SlotsOk, Owned, SlotOk, ShapeOk;
    assert k.reuse == 0 ==> sl.cache[..k.reuse] == a.req.prompt[..k.reuse];
    ReusedSlot(net, cfg, st.dev, Started(net, cfg, st, a, spec, k).dev, p, sl, a.req.prompt, k.reuse);
  }

  lemma StartedCursor(net: Network, cfg: Config, st: Sched, a: Arrival, spec: bool, k: Pick)
    requires Inv(net, cfg, st) && st.pf.None? && PickOk(cfg, st.free, st.slots, a.req.prompt, k) && k.phys < cfg.maxBatch
    requires !TooLong(cfg, |a.req.prompt|, a.req.maxNew, spec)
    ensures var st' := Started(net, cfg, st, a, spec, k);
            st'.pf.Some? && CursorOk(net, cfg, st'.dev, st'.pf.value)
  {
    ResumePoint(net, cfg, st, a, spec, k);
    hide Inv, LanesOk, SlotsOk, Owned, SlotOk, Live, Invalidated, ShapeOk, PickOk;
  }

  /** Starting a request touches the picked slot's live cell and ring lengths, nothing else. */
  lemma StartedFrame(net: Network, cfg: Config, st: Sched, a: Arrival, spec: bool, k: Pick)
    requires k.phys < |st.slots| && k.phys < |st.dev.cells|
    ensures var st' := Started(net, cfg, st, a, spec, k);
            && st'.lanes == st.lanes && st'.dev.kv == st.dev.kv && |st'.dev.cells| == |st.dev.cells|
            && st'.slots == st.slots[k.phys := st'.slots[k.phys]]
            && st'.pf.Some? && st'.pf.value.phys == k.phys && st'.pf.value.req.prompt == a.req.prompt
            && st'.pf.value.w0 == k.reuse
            && forall i :: 0 <= i < |st.dev.cells| && i != k.phys ==> st'.dev.cells[i] == st.dev.cells[i]
  {
  }

  lemma StartedKeepsInv(net: Network, cfg: Config, st: Sched, a: Arrival, spec: bool, k: Pick)
    requires Inv(net, cfg, st) && st.pf.None? && PickOk(cfg, st.free, st.slots, a.req.prompt, k)
    requires !TooLong(cfg, |a.req.prompt|, a.req.maxNew, spec)
    ensures Inv(net, cfg, Started(net, cfg, st, a, spec, k))
  {
    StartedShape(net, cfg, st, a, spec, k);
    PickedFree(cfg, st, k);
    StartedFrame(net, cfg, st, a, spec, k);
    hide SlotsOk, LanesOk, Owned, SlotOk, CursorOk, ShapeOk, PickOk, TooLong, CursorShape, Started;
    StartedSlot(net, cfg, st, a, spec, k);
    StartedCursor(net, cfg, st, a, spec, k);
    var st' := Started(net, cfg, st, a, spec, k);
    assert Agreed(st', k.phys) == a.req.prompt[..k.reuse];
    OthersKept(net, cfg, st, st', k.phys);
  }

  /** A request is either turned away, or starts its prefill from the cold state. */
  lemma AdmitKeepsInv(net: Network, cfg: Config, st: Sched, a: Arrival, spec: bool)
    requires Inv(net, cfg, st) && st.pf.None?
    ensures Inv(net, cfg, Admit(net, cfg, st, a, spec))
  {
    ChoiceOk(cfg, st.free, st.slots, a.req.prompt);
    var c := Choice(cfg, st.free, st.slots, a.req.prompt);
    if c.Some? {
      if TooLong(cfg, |a.req.prompt|, a.req.maxNew, spec) {
        RejectedKeepsInv(net, cfg, st, a, c.value);
      } else {
        StartedKeepsInv(net, cfg, st, a, spec, c.value);
      }
    } else {
      hide Choice, SlotOk, LaneOk;
      var st' := Admit(net, cfg, st, a, spec);
      assert Owners(st') == Owners(st);
    }
  }
}
