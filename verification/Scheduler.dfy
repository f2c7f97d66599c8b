// The scheduler's operations as functions on its state: admission with prefix reuse, one
// prefill window, lane installation, one decode step with compaction, and client cancels.

module Scheduler {
  import opened Wrappers
  import opened Trunk
  import opened Device
  import opened GreedyLane
  import opened Slots
  import opened LaneSteps
  import Penalty

  // ------------------------------------------------------------------ prefix search

  function Lcp(a: seq<Token>, b: seq<Token>): (n: nat)
    ensures n <= |a| && n <= |b| && a[..n] == b[..n]
    ensures n < |a| && n < |b| ==> a[n] != b[n]
  {
    if a == [] || b == [] || a[0] != b[0] then 0
    else
      assert forall k :: 0 <= k <= Lcp(a[1..], b[1..]) && 0 < |a| && 0 < |b| ==> a[..k + 1] == [a[0]] + a[1..][..k];
      1 + Lcp(a[1..], b[1..])
  }

  datatype From = LiveState | PromptState | Ring(entry: nat)

  /** A usable resume point: free-list index, slot, reused length, and where the state is kept. */
  datatype Hit = Hit(idx: nat, slot: nat, len: nat, from: From)

  /** Usable ring entries among the first `n` of a slot. */
  function RingHits(ringLen: seq<nat>, live: nat, plen: nat, idx: nat, slot: nat, n: nat): seq<Hit>
    requires n <= |ringLen|
  {
    if n == 0 then []
    else
      var rest := RingHits(ringLen, live, plen, idx, slot, n - 1);
      if 0 < ringLen[n - 1] <= live && ringLen[n - 1] < plen
      then rest + [Hit(idx, slot, ringLen[n - 1], Ring(n - 1))] else rest
  }

  /** The live state and the prompt checkpoint sit at the end of their sequences, so all of it
      must match; they are candidates only with token-exact reuse. */
  function ExactHits(cfg: Config, sl: Slot, prompt: seq<Token>, idx: nat, slot: nat): seq<Hit> {
    if cfg.gridReuse then []
    else
      var live, ckpt := Lcp(sl.cache, prompt), Lcp(sl.prompt, prompt);
      (if live > 0 && live == |sl.cache| && live < |prompt| then [Hit(idx, slot, live, LiveState)] else [])
      + (if ckpt > 0 && ckpt == |sl.prompt| && ckpt < |prompt| then [Hit(idx, slot, ckpt, PromptState)] else [])
  }

  function SlotHits(cfg: Config, sl: Slot, prompt: seq<Token>, idx: nat, slot: nat): seq<Hit> {
    ExactHits(cfg, sl, prompt, idx, slot)
    + RingHits(sl.ringLen, Lcp(sl.cache, prompt), |prompt|, idx, slot, |sl.ringLen|)
  }

  /** Candidates of the first `n` free slots, in search order. */
  function Hits(cfg: Config, free: seq<nat>, slots: seq<Slot>, prompt: seq<Token>, n: nat): seq<Hit>
    requires n <= |free| && forall p :: p in free ==> p < |slots|
  {
    if n == 0 then []
    else
      var p := free[n - 1];
      assert p in free;
      Hits(cfg, free, slots, prompt, n - 1) + SlotHits(cfg, slots[p], prompt, n - 1, p)
  }

  /** The longest candidate; the last one wins a tie. */
  function Longest(hs: seq<Hit>): Option<Hit> {
    if hs == [] then None
    else match Longest(hs[..|hs| - 1])
      case None => Some(hs[|hs| - 1])
      case Some(b) => if hs[|hs| - 1].len >= b.len then Some(hs[|hs| - 1]) else Some(b)
  }

  lemma {:induction false} LongestIs(hs: seq<Hit>)
    ensures Longest(hs).None? <==> hs == []
    ensures Longest(hs).Some? ==> Longest(hs).value in hs && forall h :: h in hs ==> h.len <= Longest(hs).value.len
    ensures Longest(hs).Some? ==>
              exists i :: 0 <= i < |hs| && hs[i] == Longest(hs).value && forall k :: i < k < |hs| ==> hs[k].len < hs[i].len
  {
    if hs != [] {
      LongestIs(hs[..|hs| - 1]);
      assert hs == hs[..|hs| - 1] + [hs[|hs| - 1]];
    }
  }

  datatype Pick = Pick(phys: nat, reuse: nat, from: Option<From>, free: seq<nat>)

  /** The slot a request gets: the best resume point, else the top of the free list. */
  function Choice(cfg: Config, free: seq<nat>, slots: seq<Slot>, prompt: seq<Token>): (r: Option<Pick>)
    requires forall p :: p in free ==> p < |slots|
  {
    var best := if cfg.prefixCache then Longest(Hits(cfg, free, slots, prompt, |free|)) else None;
    if best.Some? && best.value.idx < |free|
    then Some(Pick(best.value.slot, best.value.len, Some(best.value.from),
                   free[..best.value.idx] + free[best.value.idx + 1..]))
    else if free != [] then Some(Pick(free[|free| - 1], 0, None, free[..|free| - 1]))
    else None
  }

  lemma {:induction false} HitsAreFree(cfg: Config, free: seq<nat>, slots: seq<Slot>, prompt: seq<Token>, n: nat, h: Hit)
    requires n <= |free| && forall p :: p in free ==> p < |slots|
    requires h in Hits(cfg, free, slots, prompt, n)
    ensures h.idx < n && h.slot == free[h.idx]
    decreases n
  {
    hide SlotHits;
    if n > 0 {
      var p := free[n - 1];
      assert p in free;
      if h in Hits(cfg, free, slots, prompt, n - 1) {
        HitsAreFree(cfg, free, slots, prompt, n - 1, h);
      } else {
        SlotHitsNamed(cfg, slots[p], prompt, n - 1, p, h);
      }
    }
  }

  lemma SlotHitsNamed(cfg: Config, sl: Slot, prompt: seq<Token>, idx: nat, slot: nat, h: Hit)
    requires h in SlotHits(cfg, sl, prompt, idx, slot)
    ensures h.idx == idx && h.slot == slot
  {
    hide Lcp, RingHits;
    RingHitsNamed(sl.ringLen, Lcp(sl.cache, prompt), |prompt|, idx, slot, |sl.ringLen|, h);
  }

  lemma {:induction false} RingHitsNamed(ringLen: seq<nat>, live: nat, plen: nat, idx: nat, slot: nat, n: nat, h: Hit)
    requires n <= |ringLen|
    ensures h in RingHits(ringLen, live, plen, idx, slot, n) ==> h.idx == idx && h.slot == slot
    decreases n
  {
    if n > 0 {
      RingHitsNamed(ringLen, live, plen, idx, slot, n - 1, h);
    }
  }

  /** Some request gets a slot exactly when one is free, and it is one of those. */
  lemma ChoiceIsFree(cfg: Config, free: seq<nat>, slots: seq<Slot>, prompt: seq<Token>)
    requires forall p :: p in free ==> p < |slots|
    ensures match Choice(cfg, free, slots, prompt)
            case None => free == []
            case Some(k) => exists i :: 0 <= i < |free| && k.phys == free[i] && k.free == free[..i] + free[i + 1..]
  {
    hide Hits, Longest;
    var hs := Hits(cfg, free, slots, prompt, |free|);
    var best := if cfg.prefixCache then Longest(hs) else None;
    LongestIs(hs);
    if best.Some? {
      HitsAreFree(cfg, free, slots, prompt, |free|, best.value);
    } else if free != [] {
      var i := |free| - 1;
      assert free[..i] + free[i + 1..] == free[..i];
    }
  }

  // ------------------------------------------------------------------ admission

  function Headroom(spec: bool): nat { if spec then SPEC_HEADROOM else 1 }

  predicate ShapeOk(cfg: Config, st: Sched) {
    && |st.slots| == cfg.maxBatch && |st.dev.cells| == CellCount(cfg) && |st.dev.kv| == cfg.maxBatch
    && (forall p :: 0 <= p < cfg.maxBatch ==>
          |st.slots[p].ringLen| == RING_K && st.slots[p].ringCursor < RING_K && |st.dev.kv[p]| == cfg.kvStride)
    && (forall p :: p in st.free ==> p < cfg.maxBatch)
    && (forall i :: 0 <= i < |st.lanes| ==> st.lanes[i].phys < cfg.maxBatch)
    && (st.pf.Some? ==> st.pf.value.phys < cfg.maxBatch)
  }

  /** Wind the slot's recurrent state back to the chosen point. */
  function Restore(cfg: Config, d: Dev, pick: Pick): (r: Dev)
    requires pick.phys < |d.cells|
    ensures |r.cells| == |d.cells| && r.kv == d.kv
  {
    match pick.from
    case Some(PromptState) =>
      if PromptCell(cfg, pick.phys) < |d.cells| then CopyCell(d, PromptCell(cfg, pick.phys), pick.phys) else d
    case Some(Ring(j)) =>
      if RingCell(cfg, pick.phys, j) < |d.cells| then CopyCell(d, RingCell(cfg, pick.phys, j), pick.phys) else d
    case _ => d
  }

  function Invalidated(ringLen: seq<nat>, reuse: nat): (r: seq<nat>)
    ensures |r| == |ringLen|
  {
    seq(|ringLen|, j requires 0 <= j < |ringLen| => if ringLen[j] > reuse then 0 else ringLen[j])
  }

  function ClampedBudget(cfg: Config, plen: nat, maxNew: nat, spec: bool): nat {
    Min(maxNew, Monus(cfg.kvStride, plen + Headroom(spec)))
  }

  predicate TooLong(cfg: Config, plen: nat, maxNew: nat, spec: bool) {
    plen >= cfg.kvStride || ClampedBudget(cfg, plen, maxNew, spec) == 0
  }

  /** A request that does not fit gives its slot back; after a prompt restore the slot's cache
      follows its state. */
  function Rejected(cfg: Config, st: Sched, a: Arrival, k: Pick): Sched
    requires k.phys < |st.slots| && k.phys < |st.dev.cells|
  {
    var sl := st.slots[k.phys];
    var sl1 := sl.(ringLen := Invalidated(sl.ringLen, k.reuse),
                   cache := if k.from == Some(PromptState) then sl.prompt else sl.cache);
    st.(slots := st.slots[k.phys := sl1], dev := Restore(cfg, st.dev, k), free := k.free + [k.phys],
        outcomes := st.outcomes + [Refusal(a.id, ContextLength)])
  }

  /** The boundary snapshot the request asked for, if the prefill will pass it. */
  function Boundary(cfg: Config, a: Arrival, reuse: nat): Option<nat> {
    if cfg.prefixCache && a.ckptAt.Some? && reuse < a.ckptAt.value < |a.req.prompt| then a.ckptAt else None
  }

  function Started(net: Network, cfg: Config, st: Sched, a: Arrival, spec: bool, k: Pick): Sched
    requires k.phys < |st.slots| && k.phys < |st.dev.cells|
  {
    var sl := st.slots[k.phys];
    var d := Restore(cfg, st.dev, k);
    var req := a.req.(maxNew := ClampedBudget(cfg, |a.req.prompt|, a.req.maxNew, spec));
    st.(slots := st.slots[k.phys := sl.(ringLen := Invalidated(sl.ringLen, k.reuse))],
        dev := if k.reuse == 0 then ZeroSlot(net, d, k.phys) else d,
        free := k.free,
        pf := Some(Cursor(a.id, req, k.phys, k.reuse, k.reuse, Boundary(cfg, a, k.reuse), 0, spec)))
  }

  /** `spec` says whether speculation is active when the request is admitted. */
  function Admit(net: Network, cfg: Config, st: Sched, a: Arrival, spec: bool): Sched
    requires ShapeOk(cfg, st)
  {
    match Choice(cfg, st.free, st.slots, a.req.prompt)
    case None => st.(outcomes := st.outcomes + [Refusal(a.id, Capacity)])
    case Some(k) =>
      ChoiceIsFree(cfg, st.free, st.slots, a.req.prompt);
      assert k.phys in st.free;
      if TooLong(cfg, |a.req.prompt|, a.req.maxNew, spec) then Rejected(cfg, st, a, k)
      else Started(net, cfg, st, a, spec, k)
  }

  // ------------------------------------------------------------------ prefill

  /** End of the window that starts at `w0`. */
  function WindowEnd(cfg: Config, w0: nat, plen: nat, ckptAt: Option<nat>): (w1: nat)
    requires w0 < plen
    ensures w0 < w1 <= plen
  {
    var a := Min(w0 + PREFILL_CHUNK, plen);
    var b := if !cfg.gridReuse && ckptAt.Some? && w0 < ckptAt.value < a then ckptAt.value else a;
    var grid := (w0 / RING_STRIDE + 1) * RING_STRIDE;
    if cfg.prefixCache && grid < b then grid else b
  }

  /** The slot after a window that ended at `w1`: boundary and ring snapshots. */
  function SnapshotSlot(cfg: Config, sl: Slot, c: Cursor, w1: nat): Slot
    requires |sl.ringLen| == RING_K && sl.ringCursor < RING_K && w1 <= |c.req.prompt|
  {
    var sl1 := if c.ckptAt == Some(w1) then sl.(prompt := c.req.prompt[..w1]) else sl;
    if cfg.prefixCache && w1 < |c.req.prompt| && w1 % RING_STRIDE == 0 then
      sl1.(ringLen := sl1.ringLen[sl1.ringCursor := w1], ringCursor := (sl1.ringCursor + 1) % RING_K)
    else sl1
  }

  function SnapshotDev(cfg: Config, d: Dev, sl: Slot, c: Cursor, w1: nat): (r: Dev)
    requires |d.cells| == CellCount(cfg) && c.phys < cfg.maxBatch && sl.ringCursor < RING_K
    requires c.ckptAt.Some? ==> cfg.prefixCache
    ensures |r.cells| == |d.cells| && r.kv == d.kv
  {
    var d1 := if c.ckptAt == Some(w1) then CopyCell(d, c.phys, PromptCell(cfg, c.phys)) else d;
    if cfg.prefixCache && w1 < |c.req.prompt| && w1 % RING_STRIDE == 0 then
      RingCellBounds(cfg, c.phys, sl.ringCursor);
      CopyCell(d1, c.phys, RingCell(cfg, c.phys, sl.ringCursor))
    else d1
  }

  predicate CursorShape(cfg: Config, st: Sched) {
    st.pf.Some? ==>
      && st.pf.value.w0 <= |st.pf.value.req.prompt| <= cfg.kvStride
      && (st.pf.value.ckptAt.Some? ==> cfg.prefixCache)
  }

  function RunWindow(net: Network, cfg: Config, st: Sched, c: Cursor): (r: Sched)
    requires ShapeOk(cfg, st) && CursorShape(cfg, st) && st.pf == Some(c) && c.w0 < |c.req.prompt|
    ensures ShapeOk(cfg, r) && r.pf.Some? && r.pf.value.phys == c.phys && r.pf.value.req == c.req
  {
    var plen := |c.req.prompt|;
    var w1 := WindowEnd(cfg, c.w0, plen, c.ckptAt);
    var d := Consume(net, st.dev, c.phys, c.w0, c.req.prompt[c.w0..w1]);
    var tok := net.pick(MemAt(d, c.phys, w1), multiset{}, None);
    var sl := st.slots[c.phys];
    st.(dev := SnapshotDev(cfg, d, sl, c, w1),
        slots := st.slots[c.phys := SnapshotSlot(cfg, sl, c, w1)],
        pf := Some(c.(w0 := w1, firstTok := tok)))
  }

  /** Run one window of the cursor, and install the lane once the prompt is consumed. */
  function PfAdvance(net: Network, cfg: Config, st: Sched): Sched
    requires ShapeOk(cfg, st) && CursorShape(cfg, st)
  {
    match st.pf
    case None => st
    case Some(c) =>
      if c.w0 >= |c.req.prompt| then PfFinish(cfg, st, c)
      else
        var st' := RunWindow(net, cfg, st, c);
        if st'.pf.value.w0 >= |c.req.prompt| then PfFinish(cfg, st', st'.pf.value) else st'
  }

  /** The lane becomes visible and the prefix-cache entry is written here, and only here. */
  function PfFinish(cfg: Config, st: Sched, c: Cursor): Sched
    requires ShapeOk(cfg, st) && c.phys < cfg.maxBatch
  {
    var snap := cfg.prefixCache && (c.ckptAt.None? || cfg.gridReuse);
    var sl := st.slots[c.phys];
    var sl1 := if snap then sl.(prompt := c.req.prompt) else sl;
    st.(dev := if snap then CopyCell(st.dev, c.phys, PromptCell(cfg, c.phys)) else st.dev,
        slots := st.slots[c.phys := sl1.(cache := c.req.prompt)],
        lanes := st.lanes + [Install(c)],
        pf := None)
  }

  /** A schema lane keeps its prefill token to itself and starts counting from 0. */
  function Install(c: Cursor): Lane {
    var schema := c.req.schema;
    Lane(c.id, c.req, c.phys, |c.req.prompt|, c.firstTok,
         if schema.Some? then 0 else 1,
         [c.firstTok],
         if schema.Some? then schema.value.start else 0,
         if schema.Some? then [] else [c.firstTok],
         c.primed, false, false)
  }

  // ------------------------------------------------------------------ decode

  /** Everything a decode step draws from outside the host: the policy's verdict, the draft
      round's proposal for a lone lane, and the sampler's tokens for batched sampled lanes. */
  datatype StepIn = StepIn(active: bool, draft: Draft, draws: nat -> Token)

  /** Speculation serves a lone trusted lane; everyone else shares one batched forward. */
  predicate Speculates(st: Sched, inp: StepIn) {
    |st.lanes| == 1 && UsesMtp(st.lanes[0], inp.active)
  }

  function Rows(spec: bool): nat { if spec then Penalty.MAX_VERIFY else 1 }

  function Serve(net: Network, cfg: Config, d: Dev, l: Lane, cache: seq<Token>, spec: bool, draft: Draft, draw: Token): (r: Served)
    requires spec ==> LegalDraft(cfg, l.req, draft)
    requires Fits(d, cfg, l.phys, l.pos, Rows(spec))
    ensures SameDims(d, r.dev)
  {
    if spec then SpecStep(net, cfg, d, l, cache, draft) else PlainStep(net, cfg, d, l, cache, draw)
  }

  predicate LaneFits(cfg: Config, l: Lane, spec: bool, draft: Draft) {
    l.pos + Rows(spec) <= cfg.kvStride && (spec ==> LegalDraft(cfg, l.req, draft))
  }

  predicate DecodeOk(cfg: Config, st: Sched, inp: StepIn) {
    && ShapeOk(cfg, st)
    && forall i :: 0 <= i < |st.lanes| ==> LaneFits(cfg, st.lanes[i], Speculates(st, inp), inp.draft)
  }

  /** Scheduler state with the first `k` lanes served, and which of those are over. */
  datatype Progress = Progress(st: Sched, over: seq<bool>)

  function ApplyServed(st: Sched, k: nat, r: Served, spec: bool): (st': Sched)
    requires k < |st.lanes| && st.lanes[k].phys < |st.slots|
  {
    var l := st.lanes[k];
    st.(lanes := st.lanes[k := Update(l, r.stream, r.pos).(stale := l.stale || !spec)],
        slots := st.slots[l.phys := st.slots[l.phys].(cache := r.stream.cache)],
        dev := r.dev)
  }

  function ServeNext(net: Network, cfg: Config, p: Progress, inp: StepIn, spec: bool, k: nat): (r: Progress)
    requires ShapeOk(cfg, p.st) && k < |p.st.lanes| && LaneFits(cfg, p.st.lanes[k], spec, inp.draft)
  {
    var l := p.st.lanes[k];
    var r := Serve(net, cfg, p.st.dev, l, p.st.slots[l.phys].cache, spec, inp.draft, inp.draws(k));
    Progress(ApplyServed(p.st, k, r, spec), p.over + [r.stream.finished || l.cancelled])
  }

  /** The first k lanes are served; the rest wait untouched. */
  ghost predicate Ahead(cfg: Config, st: Sched, r: Progress, k: nat) {
    && ShapeOk(cfg, r.st) && |r.st.lanes| == |st.lanes| && |r.over| == k
    && forall i :: k <= i < |st.lanes| ==> r.st.lanes[i] == st.lanes[i]
  }

  lemma ServeNextFits(net: Network, cfg: Config, p: Progress, inp: StepIn, spec: bool, k: nat)
    requires ShapeOk(cfg, p.st) && k < |p.st.lanes| && LaneFits(cfg, p.st.lanes[k], spec, inp.draft)
    ensures ShapeOk(cfg, ServeNext(net, cfg, p, inp, spec, k).st)
  {
    hide Serve, LegalDraft;
  }

  lemma AheadNext(net: Network, cfg: Config, st: Sched, p: Progress, inp: StepIn, spec: bool, k: nat)
    requires k < |st.lanes| && Ahead(cfg, st, p, k) && LaneFits(cfg, st.lanes[k], spec, inp.draft)
    ensures ShapeOk(cfg, p.st) && k < |p.st.lanes| && p.st.lanes[k] == st.lanes[k]
    ensures Ahead(cfg, st, ServeNext(net, cfg, p, inp, spec, k), k + 1)
  {
    ServeNextFits(net, cfg, p, inp, spec, k);
    hide ShapeOk, LaneFits, Serve, Update;
  }

  lemma ServesAhead(net: Network, cfg: Config, st: Sched, p: Progress, inp: StepIn, k: nat)
    requires DecodeOk(cfg, st, inp) && k < |st.lanes| && Ahead(cfg, st, p, k)
    ensures ShapeOk(cfg, p.st) && k < |p.st.lanes| && LaneFits(cfg, p.st.lanes[k], Speculates(st, inp), inp.draft)
    ensures Ahead(cfg, st, ServeNext(net, cfg, p, inp, Speculates(st, inp), k), k + 1)
  {
    hide ShapeOk, LaneFits, Ahead, ServeNext, Speculates;
    AheadNext(net, cfg, st, p, inp, Speculates(st, inp), k);
  }

  lemma NoneAhead(cfg: Config, st: Sched, inp: StepIn)
    requires DecodeOk(cfg, st, inp)
    ensures Ahead(cfg, st, Progress(st, []), 0)
  {
  }

  function ServeFirst(net: Network, cfg: Config, st: Sched, inp: StepIn, k: nat): (r: Progress)
    requires DecodeOk(cfg, st, inp) && k <= |st.lanes|
    ensures Ahead(cfg, st, r, k)
  {
    hide *;
    if k == 0 then
      NoneAhead(cfg, st, inp);
      Progress(st, [])
    else
      var before := ServeFirst(net, cfg, st, inp, k - 1);
      var spec := Speculates(st, inp);
      ServesAhead(net, cfg, st, before, inp, k - 1);
      ServeNext(net, cfg, before, inp, spec, k - 1)
  }

  /** The token lane `k` gets from the shared forward. */
  function BatchToken(net: Network, cfg: Config, st: Sched, inp: StepIn, k: nat): Token
    requires DecodeOk(cfg, st, inp) && !Speculates(st, inp) && k < |st.lanes|
  {
    var l, d := st.lanes[k], ServeFirst(net, cfg, st, inp, k).st.dev;
    PlainToken(net, Consume(net, d, l.phys, l.pos, [l.last]), l, inp.draws(k))
  }

  /** A batched lane's forward and bookkeeping, one after the other. */
  lemma BatchNext(net: Network, cfg: Config, st: Sched, inp: StepIn, k: nat)
    requires DecodeOk(cfg, st, inp) && !Speculates(st, inp) && k < |st.lanes|
    ensures var p, l := ServeFirst(net, cfg, st, inp, k), st.lanes[k];
            && l.phys < cfg.maxBatch && InPlane(p.st.dev, l.phys, l.pos + 1)
            && var d := Consume(net, p.st.dev, l.phys, l.pos, [l.last]);
               var s := Take(cfg.eos, l.req, View(l, p.st.slots[l.phys].cache, false), BatchToken(net, cfg, st, inp, k));
               ServeFirst(net, cfg, st, inp, k + 1)
                 == Progress(ApplyServed(p.st, k, Served(s, l.pos + 1, d), false), p.over + [s.finished || l.cancelled])
  {
    var p, l := ServeFirst(net, cfg, st, inp, k), st.lanes[k];
    assert p.st.lanes[k] == l && LaneFits(cfg, l, false, inp.draft);
    hide Take, Consume, Update;
  }

  /** Lane k's column of the shared forward: the device after it, and the token it yields. */
  lemma ForwardIs(net: Network, cfg: Config, st: Sched, inp: StepIn, k: nat)
    requires DecodeOk(cfg, st, inp) && !Speculates(st, inp) && k < |st.lanes|
    ensures var l, d := st.lanes[k], ServeFirst(net, cfg, st, inp, k).st.dev;
            && InPlane(d, l.phys, l.pos + 1)
            && var d1 := Consume(net, d, l.phys, l.pos, [l.last]);
               && SameDims(d, d1) && SameDims(st.dev, d) && InPlane(d1, l.phys, l.pos + 1)
               && ServeFirst(net, cfg, st, inp, k + 1).st.dev == d1
               && BatchToken(net, cfg, st, inp, k) == PlainToken(net, d1, l, inp.draws(k))
  {
    BatchNext(net, cfg, st, inp, k);
    ServedDims(net, cfg, st, inp, k);
    hide ServeFirst, DecodeOk, Speculates, Take, ShapeOk;
  }

  lemma ServedDims(net: Network, cfg: Config, st: Sched, inp: StepIn, k: nat)
    requires DecodeOk(cfg, st, inp) && k <= |st.lanes|
    ensures SameDims(st.dev, ServeFirst(net, cfg, st, inp, k).st.dev)
  {
    hide ServeFirst, LaneFits;
  }

  lemma ServeNone(net: Network, cfg: Config, st: Sched, inp: StepIn)
    requires DecodeOk(cfg, st, inp)
    ensures ServeFirst(net, cfg, st, inp, 0) == Progress(st, [])
  {
  }

  lemma BatchInRange(net: Network, cfg: Config, st: Sched, inp: StepIn, k: nat)
    requires DecodeOk(cfg, st, inp) && k < |st.lanes|
    ensures st.lanes[k].phys < |ServeFirst(net, cfg, st, inp, k).st.slots|
    ensures ServeFirst(net, cfg, st, inp, k).st.lanes[k] == st.lanes[k]
  {
    hide ServeFirst, LaneFits;
  }

  /** The same bookkeeping done after the whole forward: only the device runs ahead. */
  lemma BatchLater(net: Network, cfg: Config, st: Sched, inp: StepIn, k: nat, d: Dev, before: Sched, after: Sched, done: bool)
    requires DecodeOk(cfg, st, inp) && !Speculates(st, inp) && k < |st.lanes|
    requires before == ServeFirst(net, cfg, st, inp, k).st.(dev := d) && st.lanes[k].phys < |before.slots|
    requires var l := st.lanes[k];
             var s := Take(cfg.eos, l.req, View(l, before.slots[l.phys].cache, false), BatchToken(net, cfg, st, inp, k));
             done == s.finished && after == ApplyServed(before, k, Served(s, l.pos + 1, d), false)
    ensures after == ServeFirst(net, cfg, st, inp, k + 1).st.(dev := d)
    ensures ServeFirst(net, cfg, st, inp, k + 1).over == ServeFirst(net, cfg, st, inp, k).over + [done || st.lanes[k].cancelled]
  {
    BatchNext(net, cfg, st, inp, k);
    hide ServeFirst, Take, Consume, Update, DecodeOk, ShapeOk;
  }

  /** Lanes that go on, in order. */
  function Kept(lanes: seq<Lane>, over: seq<bool>): seq<Lane>
    requires |lanes| == |over|
  {
    if lanes == [] then []
    else
      var n := |lanes| - 1;
      Kept(lanes[..n], over[..n]) + (if over[n] then [] else [lanes[n]])
  }

  function Ended(lanes: seq<Lane>, over: seq<bool>): seq<Lane>
    requires |lanes| == |over|
  {
    if lanes == [] then []
    else
      var n := |lanes| - 1;
      Ended(lanes[..n], over[..n]) + (if over[n] then [lanes[n]] else [])
  }

  function PhysOf(lanes: seq<Lane>): (r: seq<nat>)
    ensures |r| == |lanes|
  {
    seq(|lanes|, i requires 0 <= i < |lanes| => lanes[i].phys)
  }

  function OutcomeOf(l: Lane): Outcome {
    Answer(l.id, l.req, l.sent, if l.generated >= l.req.maxNew then Length else Stop, l.cancelled, l.primed)
  }

  function OutcomesOf(lanes: seq<Lane>): (r: seq<Outcome>)
    ensures |r| == |lanes|
  {
    seq(|lanes|, i requires 0 <= i < |lanes| => OutcomeOf(lanes[i]))
  }

  function Compacted(st: Sched, over: seq<bool>): Sched
    requires |st.lanes| == |over|
  {
    var gone := Ended(st.lanes, over);
    st.(lanes := Kept(st.lanes, over), free := st.free + PhysOf(gone), outcomes := st.outcomes + OutcomesOf(gone))
  }

  function DecodeStep(net: Network, cfg: Config, st: Sched, inp: StepIn): Sched
    requires DecodeOk(cfg, st, inp)
  {
    var p := ServeFirst(net, cfg, st, inp, |st.lanes|);
    Compacted(p.st, p.over)
  }

  function Cancel(st: Sched, i: nat): Sched
    requires i < |st.lanes|
  {
    st.(lanes := st.lanes[i := st.lanes[i].(cancelled := true)])
  }

  // ------------------------------------------------------------------ shapes are kept

  /** A lone lane's speculative step is the whole pass over the lanes. */
  lemma ServeOne(net: Network, cfg: Config, st: Sched, inp: StepIn)
    requires DecodeOk(cfg, st, inp) && Speculates(st, inp)
    ensures st.lanes[0].phys < cfg.maxBatch && LaneFits(cfg, st.lanes[0], true, inp.draft)
    ensures var l := st.lanes[0];
            var r := SpecStep(net, cfg, st.dev, l, st.slots[l.phys].cache, inp.draft);
            ServeFirst(net, cfg, st, inp, |st.lanes|)
              == Progress(ApplyServed(st, 0, r, true), [r.stream.finished || l.cancelled])
  {
    ServeNone(net, cfg, st, inp);
    hide SpecStep;
  }

  lemma {:induction false} KeptFits(lanes: seq<Lane>, over: seq<bool>, n: nat)
    requires |lanes| == |over| && forall i :: 0 <= i < |lanes| ==> lanes[i].phys < n
    ensures forall i :: 0 <= i < |Kept(lanes, over)| ==> Kept(lanes, over)[i].phys < n
    ensures forall i :: 0 <= i < |Ended(lanes, over)| ==> Ended(lanes, over)[i].phys < n
    decreases |lanes|
  {
    if lanes != [] {
      KeptFits(lanes[..|lanes| - 1], over[..|lanes| - 1], n);
    }
  }

  lemma CompactedFits(cfg: Config, st: Sched, over: seq<bool>)
    requires ShapeOk(cfg, st) && CursorShape(cfg, st) && |st.lanes| == |over|
    ensures ShapeOk(cfg, Compacted(st, over)) && CursorShape(cfg, Compacted(st, over))
  {
    KeptFits(st.lanes, over, cfg.maxBatch);
    hide Kept, Ended;
  }

  lemma RejectedFits(cfg: Config, st: Sched, a: Arrival, k: Pick)
    requires ShapeOk(cfg, st) && st.pf.None? && k.phys in st.free && forall p :: p in k.free ==> p in st.free
    ensures ShapeOk(cfg, Rejected(cfg, st, a, k)) && CursorShape(cfg, Rejected(cfg, st, a, k))
  {
    hide Restore;
  }

  lemma StartedFits(net: Network, cfg: Config, st: Sched, a: Arrival, spec: bool, k: Pick)
    requires ShapeOk(cfg, st) && st.pf.None? && k.phys in st.free && forall p :: p in k.free ==> p in st.free
    requires k.reuse <= |a.req.prompt| && !TooLong(cfg, |a.req.prompt|, a.req.maxNew, spec)
    ensures ShapeOk(cfg, Started(net, cfg, st, a, spec, k)) && CursorShape(cfg, Started(net, cfg, st, a, spec, k))
  {
    hide Restore;
  }

  lemma FinishFits(cfg: Config, st: Sched, c: Cursor)
    requires ShapeOk(cfg, st) && st.pf == Some(c)
    ensures ShapeOk(cfg, PfFinish(cfg, st, c)) && CursorShape(cfg, PfFinish(cfg, st, c))
  {
  }

  lemma WindowFits(net: Network, cfg: Config, st: Sched, c: Cursor)
    requires ShapeOk(cfg, st) && CursorShape(cfg, st) && st.pf == Some(c) && c.w0 < |c.req.prompt|
    ensures CursorShape(cfg, RunWindow(net, cfg, st, c))
  {
    hide ShapeOk, SnapshotDev, SnapshotSlot;
  }

  lemma SlotHitsShort(cfg: Config, sl: Slot, prompt: seq<Token>, idx: nat, slot: nat, h: Hit)
    ensures h in SlotHits(cfg, sl, prompt, idx, slot) ==> 0 < h.len < |prompt|
  {
    RingHitsShort(sl.ringLen, Lcp(sl.cache, prompt), |prompt|, idx, slot, |sl.ringLen|, h);
    hide Lcp, RingHits;
  }

  lemma {:induction false} HitsShort(cfg: Config, free: seq<nat>, slots: seq<Slot>, prompt: seq<Token>, n: nat, h: Hit)
    requires n <= |free| && forall p :: p in free ==> p < |slots|
    ensures h in Hits(cfg, free, slots, prompt, n) ==> 0 < h.len < |prompt|
    decreases n
  {
    hide SlotHits;
    if n > 0 {
      var p := free[n - 1];
      assert p in free;
      HitsShort(cfg, free, slots, prompt, n - 1, h);
      SlotHitsShort(cfg, slots[p], prompt, n - 1, p, h);
    }
  }

  lemma {:induction false} RingHitsShort(ringLen: seq<nat>, live: nat, plen: nat, idx: nat, slot: nat, n: nat, h: Hit)
    requires n <= |ringLen|
    ensures h in RingHits(ringLen, live, plen, idx, slot, n) ==> 0 < h.len < plen
    decreases n
  {
    if n > 0 {
      RingHitsShort(ringLen, live, plen, idx, slot, n - 1, h);
    }
  }

  /** Whatever is resumed, at least one prompt token is left to prefill. */
  lemma ChoiceIsShort(cfg: Config, free: seq<nat>, slots: seq<Slot>, prompt: seq<Token>)
    requires forall p :: p in free ==> p < |slots|
    ensures var c := Choice(cfg, free, slots, prompt);
            c.Some? ==> if c.value.from.Some? then 0 < c.value.reuse < |prompt| else c.value.reuse == 0
  {
    var hs := Hits(cfg, free, slots, prompt, |free|);
    LongestIs(hs);
    if cfg.prefixCache && Longest(hs).Some? {
      HitsShort(cfg, free, slots, prompt, |free|, Longest(hs).value);
    }
  }
}
