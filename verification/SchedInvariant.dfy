// The scheduler's invariant: who owns which slot, what every slot's checkpoints hold, and where
// every lane and the prefill cursor stand.

module SchedInvariant {
  import opened Wrappers
  import opened Trunk
  import opened Device
  import opened GreedyLane
  import opened Slots
  import opened LaneSteps
  import opened Scheduler

  // ------------------------------------------------------------------ slot ownership

  function AllSlots(n: nat): multiset<nat> {
    if n == 0 then multiset{} else AllSlots(n - 1) + multiset{n - 1}
  }

  lemma {:induction false} AllSlotsOnce(n: nat, p: nat)
    ensures AllSlots(n)[p] == (if p < n then 1 else 0)
  {
    if n > 0 {
      AllSlotsOnce(n - 1, p);
    }
  }

  function CursorSlot(pf: Option<Cursor>): multiset<nat> {
    if pf.Some? then multiset{pf.value.phys} else multiset{}
  }

  function Owners(st: Sched): multiset<nat> {
    multiset(st.free) + multiset(PhysOf(st.lanes)) + CursorSlot(st.pf)
  }

  /** Free list, active lanes and the cursor own every physical slot exactly once. */
  ghost predicate Owned(cfg: Config, st: Sched) {
    Owners(st) == AllSlots(cfg.maxBatch)
  }

  // ------------------------------------------------------------------ slots, lanes, cursor

  /** The tokens slot `p` has consumed: the cursor's progress, or the recorded cache. */
  function Agreed(st: Sched, p: nat): seq<Token>
    requires p < |st.slots| && (st.pf.Some? ==> st.pf.value.w0 <= |st.pf.value.req.prompt|)
  {
    if st.pf.Some? && st.pf.value.phys == p then st.pf.value.req.prompt[..st.pf.value.w0] else st.slots[p].cache
  }

  ghost predicate SlotsOk(net: Network, cfg: Config, st: Sched)
    requires ShapeOk(cfg, st) && CursorShape(cfg, st)
  {
    forall p :: 0 <= p < cfg.maxBatch ==> SlotOk(net, cfg, st.dev, p, st.slots[p], Agreed(st, p))
  }

  /** Output tokens still fit: the clamp of admission, as an invariant. */
  ghost predicate BudgetOk(cfg: Config, req: Request, spec: bool) {
    req.maxNew > 0 && |req.prompt| + req.maxNew + Headroom(spec) <= cfg.kvStride
  }

  /** Tokens the client was sent before the first decode step. */
  function Given(req: Request): nat { if req.schema.Some? then 0 else 1 }

  ghost predicate LaneOk(net: Network, cfg: Config, d: Dev, l: Lane, cache: seq<Token>) {
    && |cache| == l.pos && Live(net, d, l.phys, cache)
    && BudgetOk(cfg, l.req, l.primed)
    && l.pos + Given(l.req) == |l.req.prompt| + l.generated
    && (l.generated < l.req.maxNew || l.generated == l.req.maxNew == 1)
  }

  ghost predicate LanesOk(net: Network, cfg: Config, st: Sched)
    requires ShapeOk(cfg, st)
  {
    forall i :: 0 <= i < |st.lanes| ==> LaneOk(net, cfg, st.dev, st.lanes[i], st.slots[st.lanes[i].phys].cache)
  }

  /** The token a cold prefill of the whole prompt predicts; an empty prompt predicts nothing. */
  function FirstToken(net: Network, prompt: seq<Token>): Token {
    if prompt == [] then 0 else net.pick(Fold(net, prompt), multiset{}, None)
  }

  ghost predicate CursorOk(net: Network, cfg: Config, d: Dev, c: Cursor) {
    && c.reuse <= c.w0 <= |c.req.prompt|
    && (c.w0 == |c.req.prompt| ==> c.firstTok == FirstToken(net, c.req.prompt))
    && Live(net, d, c.phys, c.req.prompt[..c.w0])
    && BudgetOk(cfg, c.req, c.primed)
    && (c.ckptAt.Some? ==> cfg.prefixCache)
    && (cfg.prefixCache ==> c.reuse % RING_STRIDE == 0 && (c.w0 < |c.req.prompt| ==> c.w0 % RING_STRIDE == 0))
  }

  /** The modes the promises are made for: reuse on the 512 grid, or no prefix cache. */
  ghost predicate GridMode(cfg: Config) {
    cfg.gridReuse || !cfg.prefixCache
  }

  ghost predicate Inv(net: Network, cfg: Config, st: Sched) {
    && GridMode(cfg) && ShapeOk(cfg, st) && CursorShape(cfg, st) && Owned(cfg, st)
    && SlotsOk(net, cfg, st) && LanesOk(net, cfg, st)
    && (st.pf.Some? ==> CursorOk(net, cfg, st.dev, st.pf.value))
  }

  // ------------------------------------------------------------------ consequences of ownership

  lemma TwiceInSeq(s: seq<nat>, i: nat, k: nat)
    requires i < k < |s| && s[i] == s[k]
    ensures multiset(s)[s[i]] >= 2
  {
    assert s == s[..k] + [s[k]] + s[k + 1..];
    assert s[i] in multiset(s[..k]);
  }

  lemma OwnedOnce(cfg: Config, st: Sched, p: nat)
    requires Owned(cfg, st)
    ensures Owners(st)[p] == (if p < cfg.maxBatch then 1 else 0)
  {
    AllSlotsOnce(cfg.maxBatch, p);
  }

  lemma LanesApart(cfg: Config, st: Sched, i: nat, k: nat)
    requires Owned(cfg, st) && i < |st.lanes| && k < |st.lanes| && i != k
    ensures st.lanes[i].phys != st.lanes[k].phys
  {
    var ps := PhysOf(st.lanes);
    OwnedOnce(cfg, st, ps[i]);
    if ps[i] == ps[k] {
      TwiceInSeq(ps, if i < k then i else k, if i < k then k else i);
    }
  }

  lemma LaneAlone(cfg: Config, st: Sched, i: nat)
    requires Owned(cfg, st) && i < |st.lanes|
    ensures st.lanes[i].phys < cfg.maxBatch && st.lanes[i].phys !in st.free
    ensures st.pf.Some? ==> st.pf.value.phys != st.lanes[i].phys
  {
    var ps := PhysOf(st.lanes);
    OwnedOnce(cfg, st, ps[i]);
    assert ps[i] in multiset(ps);
  }

  lemma FreeAlone(cfg: Config, st: Sched, k: nat)
    requires Owned(cfg, st) && k < |st.free|
    ensures st.free[k] < cfg.maxBatch
    ensures forall i :: 0 <= i < |st.lanes| ==> st.lanes[i].phys != st.free[k]
    ensures st.pf.Some? ==> st.pf.value.phys != st.free[k]
  {
    OwnedOnce(cfg, st, st.free[k]);
    assert st.free[k] in multiset(st.free);
    forall i | 0 <= i < |st.lanes| ensures st.lanes[i].phys != st.free[k] {
      LaneAlone(cfg, st, i);
    }
  }

  lemma CursorAlone(cfg: Config, st: Sched)
    requires Owned(cfg, st) && st.pf.Some?
    ensures st.pf.value.phys < cfg.maxBatch && st.pf.value.phys !in st.free
    ensures forall i :: 0 <= i < |st.lanes| ==> st.lanes[i].phys != st.pf.value.phys
  {
    OwnedOnce(cfg, st, st.pf.value.phys);
    assert st.pf.value.phys in CursorSlot(st.pf);
    forall i | 0 <= i < |st.lanes| ensures st.lanes[i].phys != st.pf.value.phys {
      LaneAlone(cfg, st, i);
    }
  }

  lemma {:induction false} AllSlotsSize(n: nat)
    ensures |AllSlots(n)| == n
  {
    if n > 0 {
      AllSlotsSize(n - 1);
    }
  }

  /** Counting owners: nothing is lost and nothing is shared. */
  lemma SlotsConserved(cfg: Config, st: Sched)
    requires Owned(cfg, st)
    ensures |st.free| + |st.lanes| + (if st.pf.Some? then 1 else 0) == cfg.maxBatch
  {
    AllSlotsSize(cfg.maxBatch);
    assert |Owners(st)| == |st.free| + |PhysOf(st.lanes)| + |CursorSlot(st.pf)|;
  }

  /** The callers' gate, active lanes plus cursor below the batch width, guarantees a slot. */
  lemma GateFindsSlot(cfg: Config, st: Sched, prompt: seq<Token>)
    requires ShapeOk(cfg, st) && Owned(cfg, st)
    ensures |st.lanes| + (if st.pf.Some? then 1 else 0) < cfg.maxBatch <==> Choice(cfg, st.free, st.slots, prompt).Some?
  {
    SlotsConserved(cfg, st);
  }
}
