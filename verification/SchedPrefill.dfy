// Prefill windows keep the scheduler's invariant, and depend only on the prompt's length.

module SchedPrefill {
  import opened Wrappers
  import opened Trunk
  import opened Device
  import opened GreedyLane
  import opened Slots
  import opened LaneSteps
  import opened Scheduler
  import opened SchedInvariant
  import opened SchedAdmit

  // ------------------------------------------------------------------ window decomposition

  lemma GridWindow(cfg: Config, w0: nat, plen: nat, ckptAt: Option<nat>)
    requires cfg.prefixCache && cfg.gridReuse && w0 < plen && w0 % RING_STRIDE == 0
    ensures WindowEnd(cfg, w0, plen, ckptAt) == Min(w0 + RING_STRIDE, plen)
  {
    assert (w0 / RING_STRIDE + 1) * RING_STRIDE == w0 + RING_STRIDE;
  }

  /** In either mode a window is as long as it may be: it ends at the prompt's end, after 8192 tokens,
      at the next multiple of 512 with the prefix cache on, or at the boundary the client named when
      reuse is token-exact, whichever comes first. */
  lemma WindowStops(cfg: Config, w0: nat, plen: nat, ckptAt: Option<nat>)
    requires w0 < plen
    ensures var w1 := WindowEnd(cfg, w0, plen, ckptAt);
            && w0 < w1 <= plen && w1 <= w0 + 8192
            && (cfg.prefixCache ==> forall m: nat :: w0 < m < w1 ==> m % 512 != 0)
            && (!cfg.gridReuse && ckptAt.Some? ==> !(w0 < ckptAt.value < w1))
            && (w1 == plen || w1 == w0 + 8192 || (cfg.prefixCache && w1 % 512 == 0) || (!cfg.gridReuse && ckptAt == Some(w1)))
  {
    var grid := (w0 / RING_STRIDE + 1) * RING_STRIDE;
    assert w0 < grid && grid % RING_STRIDE == 0;
    forall m: nat | w0 < m < grid ensures m % 512 != 0 {
      assert w0 / RING_STRIDE == m / RING_STRIDE;
    }
  }

  /** The windows a prompt of length `plen` runs from `w0`. */
  function Windows(cfg: Config, w0: nat, plen: nat, ckptAt: Option<nat>): (r: seq<(nat, nat)>)
    decreases Monus(plen, w0)
  {
    if w0 >= plen then []
    else
      var w1 := WindowEnd(cfg, w0, plen, ckptAt);
      [(w0, w1)] + Windows(cfg, w1, plen, ckptAt)
  }

  /** On the grid a run of windows is fixed by where it starts and the prompt's length alone. */
  lemma {:induction false} WindowAt(cfg: Config, k: nat, w0: nat, plen: nat, ckptAt: Option<nat>)
    requires cfg.prefixCache && cfg.gridReuse && w0 % RING_STRIDE == 0
    requires w0 + k * RING_STRIDE < plen
    ensures k < |Windows(cfg, w0, plen, ckptAt)|
    ensures Windows(cfg, w0, plen, ckptAt)[k] == (w0 + k * RING_STRIDE, Min(w0 + (k + 1) * RING_STRIDE, plen))
    ensures Windows(cfg, w0, plen, ckptAt)[k..] == Windows(cfg, w0 + k * RING_STRIDE, plen, ckptAt)
    decreases k
  {
    GridWindow(cfg, w0, plen, ckptAt);
    if k > 0 {
      WindowAt(cfg, k - 1, w0 + RING_STRIDE, plen, ckptAt);
    }
  }

  lemma {:induction false} WindowsIgnoreBoundary(cfg: Config, w0: nat, plen: nat, a: Option<nat>, b: Option<nat>)
    requires cfg.gridReuse
    ensures Windows(cfg, w0, plen, a) == Windows(cfg, w0, plen, b)
    decreases Monus(plen, w0)
  {
    if w0 < plen {
      WindowsIgnoreBoundary(cfg, WindowEnd(cfg, w0, plen, a), plen, a, b);
    }
  }

  /** Whatever was reused, the windows that run are exactly the tail of the cold run's windows. */
  lemma ReuseRunsColdTail(cfg: Config, reuse: nat, plen: nat, ckptAt: Option<nat>, coldCkpt: Option<nat>)
    requires cfg.prefixCache && cfg.gridReuse && reuse % RING_STRIDE == 0 && reuse < plen
    ensures reuse / RING_STRIDE <= |Windows(cfg, 0, plen, coldCkpt)|
    ensures Windows(cfg, reuse, plen, ckptAt) == Windows(cfg, 0, plen, coldCkpt)[reuse / RING_STRIDE..]
  {
    WindowAt(cfg, reuse / RING_STRIDE, 0, plen, coldCkpt);
    WindowsIgnoreBoundary(cfg, reuse, plen, ckptAt, coldCkpt);
  }

  /** Windows tile what they cover, and each ends on the grid or at the prompt's end. */
  lemma {:induction false} WindowsTile(cfg: Config, w0: nat, plen: nat, ckptAt: Option<nat>)
    requires cfg.prefixCache && cfg.gridReuse && w0 % RING_STRIDE == 0 && w0 < plen
    ensures var ws := Windows(cfg, w0, plen, ckptAt);
            && ws != [] && ws[0].0 == w0 && ws[|ws| - 1].1 == plen
            && (forall k :: 0 <= k < |ws| ==> ws[k].0 < ws[k].1 && (ws[k].1 % RING_STRIDE == 0 || ws[k].1 == plen))
            && (forall k :: 0 <= k < |ws| - 1 ==> ws[k].1 == ws[k + 1].0)
    decreases plen - w0
  {
    GridWindow(cfg, w0, plen, ckptAt);
    var w1 := WindowEnd(cfg, w0, plen, ckptAt);
    var rest := Windows(cfg, w1, plen, ckptAt);
    var ws := Windows(cfg, w0, plen, ckptAt);
    assert ws == [(w0, w1)] + rest;
    if w1 < plen {
      WindowsTile(cfg, w1, plen, ckptAt);
      forall k | 0 <= k < |ws| - 1 ensures ws[k].1 == ws[k + 1].0 {
        if k > 0 {
          assert ws[k] == rest[k - 1] && ws[k + 1] == rest[k];
        }
      }
    }
  }

  // ------------------------------------------------------------------ one window on the device

  lemma WindowLive(net: Network, d: Dev, p: nat, prompt: seq<Token>, w0: nat, w1: nat)
    requires w0 <= w1 <= |prompt| && InPlane(d, p, w1) && Live(net, d, p, prompt[..w0])
    ensures Live(net, Consume(net, d, p, w0, prompt[w0..w1]), p, prompt[..w1])
  {
    ConsumeFeeds(net, d, p, w0, prompt[w0..w1]);
    FoldAppend(net, prompt[..w0], prompt[w0..w1]);
    assert prompt[..w0] + prompt[w0..w1] == prompt[..w1];
  }

  /** Snapshots go only to the slot's own checkpoint cells. */
  lemma SnapshotFrame(cfg: Config, d: Dev, sl: Slot, c: Cursor, w1: nat, i: nat)
    requires |d.cells| == CellCount(cfg) && c.phys < cfg.maxBatch && sl.ringCursor < RING_K
    requires c.ckptAt.Some? ==> cfg.prefixCache
    requires i < |d.cells| && i != PromptCell(cfg, c.phys) && i != RingCell(cfg, c.phys, sl.ringCursor)
    ensures SnapshotDev(cfg, d, sl, c, w1).cells[i] == d.cells[i]
  {
    RingCellBounds(cfg, c.phys, sl.ringCursor);
  }

  lemma SnapshotRing(cfg: Config, d: Dev, sl: Slot, c: Cursor, w1: nat, j: nat)
    requires |d.cells| == CellCount(cfg) && c.phys < cfg.maxBatch && ShapedSlot(sl) && j < RING_K && cfg.prefixCache
    requires w1 <= |c.req.prompt|
    ensures RingCell(cfg, c.phys, j) < |d.cells|
    ensures var sl' := SnapshotSlot(cfg, sl, c, w1);
            var d' := SnapshotDev(cfg, d, sl, c, w1);
            if w1 < |c.req.prompt| && w1 % RING_STRIDE == 0 && j == sl.ringCursor
            then sl'.ringLen[j] == w1 && d'.cells[RingCell(cfg, c.phys, j)] == d.cells[c.phys]
            else sl'.ringLen[j] == sl.ringLen[j] && d'.cells[RingCell(cfg, c.phys, j)] == d.cells[RingCell(cfg, c.phys, j)]
  {
    RingCellBounds(cfg, c.phys, j);
    RingCellBounds(cfg, c.phys, sl.ringCursor);
  }

  lemma SnapshotEntry(net: Network, cfg: Config, d: Dev, sl: Slot, c: Cursor, w1: nat, j: nat)
    requires c.w0 < w1 <= |c.req.prompt| && SlotOk(net, cfg, d, c.phys, sl, c.req.prompt[..w1]) && j < RING_K
    requires c.ckptAt.Some? ==> cfg.prefixCache
    requires d.cells[c.phys] == Fold(net, c.req.prompt[..w1]).gdn
    ensures RingEntryOk(net, cfg, SnapshotDev(cfg, d, sl, c, w1), c.phys, SnapshotSlot(cfg, sl, c, w1), c.req.prompt[..w1], j)
    ensures SnapshotSlot(cfg, sl, c, w1).ringLen[j] == (
              if cfg.prefixCache && w1 < |c.req.prompt| && w1 % RING_STRIDE == 0 && j == sl.ringCursor then w1
              else sl.ringLen[j])
  {
    assert RingEntryOk(net, cfg, d, c.phys, sl, c.req.prompt[..w1], j);
    assert c.req.prompt[..w1][..w1] == c.req.prompt[..w1];
    hide Fold;
    if cfg.prefixCache {
      SnapshotRing(cfg, d, sl, c, w1, j);
    }
  }

  /** A window's snapshots: the new entry is the cold state at w1, longer than every other. */
  lemma SnapshotOk(net: Network, cfg: Config, d: Dev, sl: Slot, c: Cursor, w1: nat)
    requires c.w0 < w1 <= |c.req.prompt| && SlotOk(net, cfg, d, c.phys, sl, c.req.prompt[..w1])
    requires c.ckptAt.Some? ==> cfg.prefixCache
    requires d.cells[c.phys] == Fold(net, c.req.prompt[..w1]).gdn
    requires forall j :: 0 <= j < RING_K ==> sl.ringLen[j] <= c.w0
    ensures SlotOk(net, cfg, SnapshotDev(cfg, d, sl, c, w1), c.phys, SnapshotSlot(cfg, sl, c, w1), c.req.prompt[..w1])
  {
    forall j | 0 <= j < RING_K
      ensures RingEntryOk(net, cfg, SnapshotDev(cfg, d, sl, c, w1), c.phys, SnapshotSlot(cfg, sl, c, w1), c.req.prompt[..w1], j)
      ensures SnapshotSlot(cfg, sl, c, w1).ringLen[j] == sl.ringLen[j]
           || (j == sl.ringCursor && SnapshotSlot(cfg, sl, c, w1).ringLen[j] == w1)
    {
      SnapshotEntry(net, cfg, d, sl, c, w1, j);
    }
    hide Fold, SnapshotSlot, SnapshotDev;
    assert DistinctLengths(SnapshotSlot(cfg, sl, c, w1).ringLen) by { assert SnapshotSlot(cfg, sl, c, w1).ringLen[0] >= 0; }
  }

  // ------------------------------------------------------------------ the step

  /** The cursor's own slot changed; every other slot and lane kept its cells and rows. */
  lemma CursorOthersKept(net: Network, cfg: Config, st: Sched, st': Sched, p: nat)
    requires ShapeOk(cfg, st) && CursorShape(cfg, st) && ShapeOk(cfg, st') && CursorShape(cfg, st') && p < cfg.maxBatch
    requires SlotsOk(net, cfg, st) && LanesOk(net, cfg, st)
    requires st.pf.Some? && st.pf.value.phys == p && (st'.pf.Some? ==> st'.pf.value.phys == p)
    requires |st'.lanes| >= |st.lanes| && st'.lanes[..|st.lanes|] == st.lanes
    requires st'.slots == st.slots[p := st'.slots[p]]
    requires forall i :: 0 <= i < |st.lanes| ==> st.lanes[i].phys != p
    requires forall i :: 0 <= i < |st.dev.kv| && i != p ==> st'.dev.kv[i] == st.dev.kv[i]
    requires forall i :: 0 <= i < cfg.maxBatch && i != p ==> st'.dev.cells[i] == st.dev.cells[i]
    requires forall q, j :: 0 <= q < cfg.maxBatch && q != p && 0 <= j < RING_K && cfg.prefixCache ==>
               st'.dev.cells[RingCell(cfg, q, j)] == st.dev.cells[RingCell(cfg, q, j)]
    requires SlotOk(net, cfg, st'.dev, p, st'.slots[p], Agreed(st', p))
    requires forall i :: |st.lanes| <= i < |st'.lanes| ==>
               LaneOk(net, cfg, st'.dev, st'.lanes[i], st'.slots[st'.lanes[i].phys].cache)
    ensures SlotsOk(net, cfg, st') && LanesOk(net, cfg, st')
  {
    forall q | 0 <= q < cfg.maxBatch ensures SlotOk(net, cfg, st'.dev, q, st'.slots[q], Agreed(st', q)) {
      if q != p {
        SlotFrame(net, cfg, st.dev, st'.dev, q, st.slots[q], st.slots[q].cache);
      }
    }
    forall i | 0 <= i < |st'.lanes|
      ensures LaneOk(net, cfg, st'.dev, st'.lanes[i], st'.slots[st'.lanes[i].phys].cache)
    {
      if i < |st.lanes| {
        assert st'.lanes[i] == st.lanes[i];
        LaneFrame(net, cfg, st.dev, st'.dev, st.lanes[i], st.slots[st.lanes[i].phys].cache);
      }
    }
  }

  /** One window moves the slot from the cold state at w0 to the cold state at w1. */
  lemma WindowSlot(net: Network, cfg: Config, d: Dev, sl: Slot, c: Cursor, w1: nat)
    requires c.w0 < w1 <= |c.req.prompt| && SlotOk(net, cfg, d, c.phys, sl, c.req.prompt[..c.w0])
    requires (c.ckptAt.Some? ==> cfg.prefixCache) && InPlane(d, c.phys, w1) && Live(net, d, c.phys, c.req.prompt[..c.w0])
    ensures var d1 := Consume(net, d, c.phys, c.w0, c.req.prompt[c.w0..w1]);
            var d2 := SnapshotDev(cfg, d1, sl, c, w1);
            && SlotOk(net, cfg, d2, c.phys, SnapshotSlot(cfg, sl, c, w1), c.req.prompt[..w1])
            && MemAt(d1, c.phys, w1) == Fold(net, c.req.prompt[..w1])
            && Live(net, d2, c.phys, c.req.prompt[..w1])
  {
    var p, prompt := c.phys, c.req.prompt;
    WindowLive(net, d, p, prompt, c.w0, w1);
    var d1 := Consume(net, d, p, c.w0, prompt[c.w0..w1]);
    hide Consume, Fold;
    forall j | 0 <= j < RING_K
      ensures sl.ringLen[j] <= c.w0
      ensures cfg.prefixCache ==> d1.cells[RingCell(cfg, p, j)] == d.cells[RingCell(cfg, p, j)]
    {
      assert RingEntryOk(net, cfg, d, p, sl, prompt[..c.w0], j);
      RingCellBounds(cfg, p, j);
    }
    SlotExtends(net, cfg, d, d1, p, sl, prompt[..c.w0], prompt[..w1]);
    SnapshotOk(net, cfg, d1, sl, c, w1);
    hide SlotOk;
    SnapshotFrame(cfg, d1, sl, c, w1, p);
  }

  lemma WindowFrame(net: Network, cfg: Config, st: Sched, c: Cursor)
    requires ShapeOk(cfg, st) && CursorShape(cfg, st) && st.pf == Some(c) && c.w0 < |c.req.prompt|
    ensures var d := RunWindow(net, cfg, st, c).dev;
            && (forall i :: 0 <= i < |st.dev.kv| && i != c.phys ==> d.kv[i] == st.dev.kv[i])
            && (forall i :: 0 <= i < cfg.maxBatch && i != c.phys ==> d.cells[i] == st.dev.cells[i])
            && (forall q, j :: 0 <= q < cfg.maxBatch && q != c.phys && 0 <= j < RING_K && cfg.prefixCache ==>
                  d.cells[RingCell(cfg, q, j)] == st.dev.cells[RingCell(cfg, q, j)])
  {
    var w1 := WindowEnd(cfg, c.w0, |c.req.prompt|, c.ckptAt);
    var d1 := Consume(net, st.dev, c.phys, c.w0, c.req.prompt[c.w0..w1]);
    var sl := st.slots[c.phys];
    hide Consume, WindowEnd;
    forall i | 0 <= i < cfg.maxBatch && i != c.phys ensures SnapshotDev(cfg, d1, sl, c, w1).cells[i] == st.dev.cells[i] {
      SnapshotFrame(cfg, d1, sl, c, w1, i);
    }
    forall q, j | 0 <= q < cfg.maxBatch && q != c.phys && 0 <= j < RING_K && cfg.prefixCache
      ensures SnapshotDev(cfg, d1, sl, c, w1).cells[RingCell(cfg, q, j)] == st.dev.cells[RingCell(cfg, q, j)]
    {
      RingCellBounds(cfg, q, j);
      if RingCell(cfg, q, j) == RingCell(cfg, c.phys, sl.ringCursor) {
        RingCellsApart(cfg, q, j, c.phys, sl.ringCursor);
      }
      SnapshotFrame(cfg, d1, sl, c, w1, RingCell(cfg, q, j));
    }
  }

  lemma WindowEdge(cfg: Config, c: Cursor)
    requires GridMode(cfg) && c.w0 < |c.req.prompt| && (cfg.prefixCache ==> c.w0 % RING_STRIDE == 0)
    ensures var w1 := WindowEnd(cfg, c.w0, |c.req.prompt|, c.ckptAt);
            c.w0 < w1 <= |c.req.prompt| && (cfg.prefixCache && w1 < |c.req.prompt| ==> w1 % RING_STRIDE == 0)
  {
    if cfg.prefixCache {
      GridWindow(cfg, c.w0, |c.req.prompt|, c.ckptAt);
    }
  }

  lemma WindowCursor(net: Network, cfg: Config, st: Sched, c: Cursor)
    requires Inv(net, cfg, st) && st.pf == Some(c) && c.w0 < |c.req.prompt|
    ensures var r := RunWindow(net, cfg, st, c);
            && CursorShape(cfg, r) && CursorOk(net, cfg, r.dev, r.pf.value)
            && SlotOk(net, cfg, r.dev, c.phys, r.slots[c.phys], Agreed(r, c.phys))
  {
    assert SlotOk(net, cfg, st.dev, c.phys, st.slots[c.phys], Agreed(st, c.phys));
    WindowEdge(cfg, c);
    hide Consume, Fold, SlotsOk, LanesOk, Owned, WindowEnd, SlotOk, SnapshotDev, SnapshotSlot, Live;
    var w1 := WindowEnd(cfg, c.w0, |c.req.prompt|, c.ckptAt);
    WindowSlot(net, cfg, st.dev, st.slots[c.phys], c, w1);
    assert c.req.prompt[..|c.req.prompt|] == c.req.prompt;
  }

  lemma WindowKeepsInv(net: Network, cfg: Config, st: Sched, c: Cursor)
    requires Inv(net, cfg, st) && st.pf == Some(c) && c.w0 < |c.req.prompt|
    ensures Inv(net, cfg, RunWindow(net, cfg, st, c))
  {
    WindowCursor(net, cfg, st, c);
    WindowFrame(net, cfg, st, c);
    CursorAlone(cfg, st);
    var r := RunWindow(net, cfg, st, c);
    assert Owners(r) == Owners(st);
    assert r.slots == st.slots[c.phys := r.slots[c.phys]] && r.lanes == st.lanes;
    hide SlotOk, LaneOk, CursorOk, RunWindow, SlotsOk, LanesOk, ShapeOk;
    CursorOthersKept(net, cfg, st, r, c.phys);
  }

  // ------------------------------------------------------------------ installation

  lemma InstalledLane(net: Network, cfg: Config, st: Sched, c: Cursor)
    requires Inv(net, cfg, st) && st.pf == Some(c) && c.w0 >= |c.req.prompt|
    ensures var r := PfFinish(cfg, st, c);
            && LaneOk(net, cfg, r.dev, Install(c), r.slots[c.phys].cache)
            && SlotOk(net, cfg, r.dev, c.phys, r.slots[c.phys], r.slots[c.phys].cache)
  {
    var r := PfFinish(cfg, st, c);
    assert c.req.prompt[..c.w0] == c.req.prompt;
    assert SlotOk(net, cfg, st.dev, c.phys, st.slots[c.phys], Agreed(st, c.phys));
    hide Fold, SlotsOk, LanesOk, Owned;
    forall j | 0 <= j < RING_K && cfg.prefixCache
      ensures r.dev.cells[RingCell(cfg, c.phys, j)] == st.dev.cells[RingCell(cfg, c.phys, j)]
    {
      RingCellBounds(cfg, c.phys, j);
    }
    SlotFrame(net, cfg, st.dev, r.dev, c.phys, st.slots[c.phys], c.req.prompt);
    hide SlotOk;
    SameRing(net, cfg, r.dev, c.phys, st.slots[c.phys], r.slots[c.phys], c.req.prompt);
  }

  lemma FinishOwners(cfg: Config, st: Sched, c: Cursor)
    requires ShapeOk(cfg, st) && st.pf == Some(c) && Owned(cfg, st)
    ensures Owned(cfg, PfFinish(cfg, st, c)) && ShapeOk(cfg, PfFinish(cfg, st, c))
  {
    var r := PfFinish(cfg, st, c);
    assert PhysOf(r.lanes) == PhysOf(st.lanes) + [c.phys];
    assert Owners(r) == Owners(st);
  }

  lemma FinishKeepsInv(net: Network, cfg: Config, st: Sched, c: Cursor)
    requires Inv(net, cfg, st) && st.pf == Some(c) && c.w0 >= |c.req.prompt|
    ensures Inv(net, cfg, PfFinish(cfg, st, c))
  {
    hide SlotOk, LaneOk, SlotsOk, LanesOk, CursorOk, Owned;
    InstalledLane(net, cfg, st, c);
    FinishOwners(cfg, st, c);
    CursorAlone(cfg, st);
    var r := PfFinish(cfg, st, c);
    forall q, j | 0 <= q < cfg.maxBatch && q != c.phys && 0 <= j < RING_K && cfg.prefixCache
      ensures r.dev.cells[RingCell(cfg, q, j)] == st.dev.cells[RingCell(cfg, q, j)]
    {
      RingCellBounds(cfg, q, j);
    }
    CursorOthersKept(net, cfg, st, r, c.phys);
  }

  lemma PfAdvanceKeepsInv(net: Network, cfg: Config, st: Sched)
    requires Inv(net, cfg, st)
    ensures Inv(net, cfg, PfAdvance(net, cfg, st))
  {
    if st.pf.Some? {
      var c := st.pf.value;
      if c.w0 >= |c.req.prompt| {
        FinishKeepsInv(net, cfg, st, c);
      } else {
        WindowKeepsInv(net, cfg, st, c);
        var r := RunWindow(net, cfg, st, c);
        if r.pf.value.w0 >= |c.req.prompt| {
          hide Inv, RunWindow;
          FinishKeepsInv(net, cfg, r, r.pf.value);
        }
      }
    }
  }

  // ------------------------------------------------------------------ the prompt checkpoint

  /** The prompt checkpoint, once taken, is the cold state after the recorded prompt prefix. */
  ghost predicate PromptOk(net: Network, cfg: Config, d: Dev, p: nat, sl: Slot) {
    cfg.prefixCache && sl.prompt != [] ==>
      PromptCell(cfg, p) < |d.cells| && d.cells[PromptCell(cfg, p)] == Fold(net, sl.prompt).gdn
  }

  /** A window snapshots the message boundary when it ends there, and otherwise leaves it alone. */
  lemma SnapshotPrompt(net: Network, cfg: Config, d: Dev, sl: Slot, c: Cursor, w1: nat)
    requires |d.cells| == CellCount(cfg) && c.phys < cfg.maxBatch && ShapedSlot(sl) && w1 <= |c.req.prompt|
    requires c.ckptAt.Some? ==> cfg.prefixCache
    requires d.cells[c.phys] == Fold(net, c.req.prompt[..w1]).gdn && PromptOk(net, cfg, d, c.phys, sl)
    ensures PromptOk(net, cfg, SnapshotDev(cfg, d, sl, c, w1), c.phys, SnapshotSlot(cfg, sl, c, w1))
    ensures c.ckptAt == Some(w1) ==> SnapshotSlot(cfg, sl, c, w1).prompt == c.req.prompt[..w1]
  {
    hide Fold;
    RingCellBounds(cfg, c.phys, sl.ringCursor);
  }

  /** Installing the lane snapshots the whole prompt when no boundary snapshot is due. */
  lemma FinishPrompt(net: Network, cfg: Config, st: Sched, c: Cursor)
    requires Inv(net, cfg, st) && st.pf == Some(c) && c.w0 >= |c.req.prompt|
    requires PromptOk(net, cfg, st.dev, c.phys, st.slots[c.phys])
    ensures PromptOk(net, cfg, PfFinish(cfg, st, c).dev, c.phys, PfFinish(cfg, st, c).slots[c.phys])
    ensures cfg.prefixCache && (c.ckptAt.None? || cfg.gridReuse) ==> PfFinish(cfg, st, c).slots[c.phys].prompt == c.req.prompt
  {
    assert c.req.prompt[..c.w0] == c.req.prompt;
    hide Fold, SlotsOk, LanesOk, Owned;
  }
}
