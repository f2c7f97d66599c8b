// Token-exact reuse (--prefix-grid-reuse=0): a slot's live state must stand at the end of its
// recorded cache, and exactly one kind of rejected admission breaks that.

module ExactReuse {
  import opened Wrappers
  import opened Trunk
  import opened Device
  import opened GreedyLane
  import opened Slots
  import opened Scheduler

  /** Everything token-exact reuse relies on for one free slot: ring entries, live state, and
      the prompt checkpoint. */
  ghost predicate ExactOk(net: Network, cfg: Config, d: Dev, p: nat, sl: Slot) {
    && cfg.prefixCache && SlotOk(net, cfg, d, p, sl, sl.cache)
    && Live(net, d, p, sl.cache)
    && PromptCell(cfg, p) < |d.cells| && d.cells[PromptCell(cfg, p)] == Fold(net, sl.prompt).gdn
    && RowsOk(net, d, p, sl.prompt)
  }

  /** A pick names a point this slot really has. */
  ghost predicate Offers(sl: Slot, k: Pick) {
    match k.from
    case None => k.reuse == 0
    case Some(LiveState) => k.reuse == |sl.cache|
    case Some(PromptState) => k.reuse == |sl.prompt|
    case Some(Ring(j)) => j < |sl.ringLen| && sl.ringLen[j] == k.reuse && 0 < k.reuse <= |sl.cache|
  }

  /** The cache recorded for a slot after its admission was rejected. */
  function CacheAfter(sl: Slot, k: Pick): seq<Token> {
    if k.from == Some(PromptState) then sl.prompt else sl.cache
  }

  // ------------------------------------------------------------------ the state that is kept

  lemma KeptUnlessShortRing(net: Network, cfg: Config, d: Dev, sl: Slot, k: Pick)
    requires ExactOk(net, cfg, d, k.phys, sl) && Offers(sl, k)
    requires !(k.from.Some? && k.from.value.Ring? && k.reuse < |sl.cache|)
    ensures Live(net, Restore(cfg, d, k), k.phys, CacheAfter(sl, k))
  {
    if k.from.Some? && k.from.value.Ring? {
      assert RingEntryOk(net, cfg, d, k.phys, sl, sl.cache, k.from.value.entry);
      RingCellBounds(cfg, k.phys, k.from.value.entry);
      assert sl.cache[..k.reuse] == sl.cache;
    }
  }

  /** The sequence whose end the resume point stands at. */
  function ResumesFrom(sl: Slot, k: Pick): seq<Token>
    requires Offers(sl, k)
  {
    match k.from
    case None => []
    case Some(LiveState) => sl.cache
    case Some(PromptState) => sl.prompt
    case Some(Ring(_)) => sl.cache[..k.reuse]
  }

  /** While the slot's record is true, every kind of hit resumes in the cold state. */
  lemma ExactHitIsCold(net: Network, cfg: Config, d: Dev, sl: Slot, k: Pick, prompt: seq<Token>)
    requires ExactOk(net, cfg, d, k.phys, sl) && Offers(sl, k) && k.from.Some?
    requires k.reuse <= |prompt| && prompt[..k.reuse] == ResumesFrom(sl, k)
    ensures Live(net, Restore(cfg, d, k), k.phys, prompt[..k.reuse])
  {
    if k.from.value.Ring? {
      assert RingEntryOk(net, cfg, d, k.phys, sl, sl.cache, k.from.value.entry);
      RingCellBounds(cfg, k.phys, k.from.value.entry);
      RowsOfPrefix(net, sl.cache, k.reuse);
      hide Fold;
      assert d.kv[k.phys][..k.reuse] == d.kv[k.phys][..|sl.cache|][..k.reuse];
    }
  }

  // ------------------------------------------------------------------ a network that notices

  /** Counts the tokens it has consumed. */
  function Counter(): Network {
    Network(0, (g, r, t) => g + 1, (g, r, t) => 0, (m, pen, mask) => 0)
  }

  lemma {:induction false} CounterCounts(toks: seq<Token>)
    ensures Fold(Counter(), toks).gdn == |toks|
    ensures Fold(Counter(), toks).rows == seq(|toks|, i => 0)
    decreases |toks|
  {
    if toks != [] {
      CounterCounts(toks[..|toks| - 1]);
    }
  }

  /** The counter's device, holding everything the slot's record claims. */
  function CounterCell(cfg: Config, p: nat, sl: Slot, i: nat): Gdn
    requires |sl.ringLen| == RING_K
  {
    var ring := RingCell(cfg, p, 0);
    if i == p then |sl.cache|
    else if i == PromptCell(cfg, p) then |sl.prompt|
    else if ring <= i < ring + RING_K then sl.ringLen[i - ring]
    else 0
  }

  function CounterDev(cfg: Config, p: nat, sl: Slot): Dev
    requires |sl.ringLen| == RING_K
  {
    Dev(seq(CellCount(cfg), i requires 0 <= i < CellCount(cfg) => CounterCell(cfg, p, sl, i)),
        seq(cfg.maxBatch, q => seq(|sl.cache| + |sl.prompt|, i => 0)))
  }

  /** A host record that some history could have left: what ring bookkeeping guarantees. */
  ghost predicate Plausible(cfg: Config, p: nat, sl: Slot) {
    && cfg.prefixCache && p < cfg.maxBatch && ShapedSlot(sl) && DistinctLengths(sl.ringLen)
    && forall j :: 0 <= j < RING_K ==> sl.ringLen[j] <= |sl.cache| && sl.ringLen[j] % RING_STRIDE == 0
  }

  lemma CounterHolds(cfg: Config, p: nat, sl: Slot)
    requires Plausible(cfg, p, sl)
    ensures ExactOk(Counter(), cfg, CounterDev(cfg, p, sl), p, sl)
  {
    var d := CounterDev(cfg, p, sl);
    RingCellBounds(cfg, p, 0);
    CounterCounts(sl.cache);
    CounterCounts(sl.prompt);
    hide Fold;
    forall j | 0 <= j < RING_K ensures RingEntryOk(Counter(), cfg, d, p, sl, sl.cache, j) {
      RingCellBounds(cfg, p, j);
      CounterCounts(sl.cache[..sl.ringLen[j]]);
    }
    assert d.kv[p][..|sl.cache|] == seq(|sl.cache|, i => 0);
    assert d.kv[p][..|sl.prompt|] == seq(|sl.prompt|, i => 0);
  }

  lemma CounterLost(cfg: Config, sl: Slot, k: Pick)
    requires Plausible(cfg, k.phys, sl) && Offers(sl, k)
    requires k.from.Some? && k.from.value.Ring? && k.reuse < |sl.cache|
    ensures !Live(Counter(), Restore(cfg, CounterDev(cfg, k.phys, sl), k), k.phys, CacheAfter(sl, k))
  {
    var d, p, j := CounterDev(cfg, k.phys, sl), k.phys, k.from.value.entry;
    RingCellBounds(cfg, p, j);
    CounterCounts(sl.cache);
    hide Fold;
    assert d.cells[RingCell(cfg, p, j)] == sl.ringLen[j];
    assert Restore(cfg, d, k).cells[p] == k.reuse;
  }

  /** A rejected admission leaves the slot's live state at the end of its recorded cache, for
      every network, exactly when it had not been wound back to a ring entry short of that end. */
  lemma RejectKeepsLiveExactly(cfg: Config, sl: Slot, k: Pick)
    requires Plausible(cfg, k.phys, sl) && Offers(sl, k)
    ensures (forall net, d :: ExactOk(net, cfg, d, k.phys, sl) ==> Live(net, Restore(cfg, d, k), k.phys, CacheAfter(sl, k)))
       <==> !(k.from.Some? && k.from.value.Ring? && k.reuse < |sl.cache|)
  {
    if k.from.Some? && k.from.value.Ring? && k.reuse < |sl.cache| {
      CounterHolds(cfg, k.phys, sl);
      CounterLost(cfg, sl, k);
    } else {
      forall net, d | ExactOk(net, cfg, d, k.phys, sl) ensures Live(net, Restore(cfg, d, k), k.phys, CacheAfter(sl, k)) {
        KeptUnlessShortRing(net, cfg, d, sl, k);
      }
    }
  }

  lemma SlotHitOffers(cfg: Config, sl: Slot, prompt: seq<Token>, idx: nat, slot: nat, h: Hit, free: seq<nat>)
    requires h in SlotHits(cfg, sl, prompt, idx, slot)
    ensures h.slot == slot && Offers(sl, Pick(slot, h.len, Some(h.from), free))
  {
    if h !in ExactHits(cfg, sl, prompt, idx, slot) {
      RingHitIs(sl.ringLen, Lcp(sl.cache, prompt), |prompt|, idx, slot, |sl.ringLen|, h);
    }
  }

  lemma {:induction false} HitOffers(cfg: Config, free: seq<nat>, slots: seq<Slot>, prompt: seq<Token>, n: nat, h: Hit)
    requires n <= |free| && (forall p :: p in free ==> p < |slots|) && h in Hits(cfg, free, slots, prompt, n)
    ensures h.slot < |slots| && Offers(slots[h.slot], Pick(h.slot, h.len, Some(h.from), free))
    decreases n
  {
    hide SlotHits, Offers;
    var p := free[n - 1];
    assert p in free;
    if h in Hits(cfg, free, slots, prompt, n - 1) {
      HitOffers(cfg, free, slots, prompt, n - 1, h);
    } else {
      SlotHitOffers(cfg, slots[p], prompt, n - 1, p, h, free);
    }
  }

  lemma {:induction false} RingHitIs(ringLen: seq<nat>, live: nat, plen: nat, idx: nat, slot: nat, n: nat, h: Hit)
    requires n <= |ringLen| && h in RingHits(ringLen, live, plen, idx, slot, n)
    ensures h.slot == slot && h.from.Ring? && h.from.entry < n && 0 < h.len == ringLen[h.from.entry] <= live
    decreases n
  {
    if h in RingHits(ringLen, live, plen, idx, slot, n - 1) {
      RingHitIs(ringLen, live, plen, idx, slot, n - 1, h);
    }
  }

  // ------------------------------------------------------------------ what the search offers

  /** A resume point of a slot, in either reuse mode: a recorded sequence, or with the grid only a ring
      entry, that the prompt extends. */
  ghost predicate Usable(cfg: Config, sl: Slot, prompt: seq<Token>, from: From, len: nat) {
    && 0 < len < |prompt|
    && match from
       case LiveState => !cfg.gridReuse && prompt[..len] == sl.cache
       case PromptState => !cfg.gridReuse && prompt[..len] == sl.prompt
       case Ring(j) => j < |sl.ringLen| && sl.ringLen[j] == len <= |sl.cache| && prompt[..len] == sl.cache[..len]
  }

  lemma LcpReaches(a: seq<Token>, b: seq<Token>, len: nat)
    requires len <= |a| && len <= |b|
    ensures Lcp(a, b) >= len <==> a[..len] == b[..len]
  {
    var l := Lcp(a, b);
    if l >= len {
      assert a[..len] == a[..l][..len] && b[..len] == b[..l][..len];
    } else {
      assert a[..len][l] == a[l] && b[..len][l] == b[l];
    }
  }

  lemma {:induction false} RingHitsUsable(ringLen: seq<nat>, live: nat, plen: nat, idx: nat, slot: nat, n: nat, h: Hit)
    requires n <= |ringLen|
    ensures h in RingHits(ringLen, live, plen, idx, slot, n)
       <==> h.from.Ring? && h.from.entry < n && h == Hit(idx, slot, ringLen[h.from.entry], h.from) && 0 < h.len <= live && h.len < plen
    decreases n
  {
    if n > 0 {
      RingHitsUsable(ringLen, live, plen, idx, slot, n - 1, h);
    }
  }

  lemma ExactHitsAre(cfg: Config, sl: Slot, prompt: seq<Token>, idx: nat, slot: nat, h: Hit)
    ensures h in ExactHits(cfg, sl, prompt, idx, slot)
       <==> h.idx == idx && h.slot == slot && !h.from.Ring? && Usable(cfg, sl, prompt, h.from, h.len)
  {
    if |sl.cache| <= |prompt| {
      LcpReaches(sl.cache, prompt, |sl.cache|);
    }
    if |sl.prompt| <= |prompt| {
      LcpReaches(sl.prompt, prompt, |sl.prompt|);
    }
    hide Lcp;
    assert sl.cache[..|sl.cache|] == sl.cache && sl.prompt[..|sl.prompt|] == sl.prompt;
  }

  lemma RingHitsOf(cfg: Config, sl: Slot, prompt: seq<Token>, idx: nat, slot: nat, h: Hit)
    ensures h in RingHits(sl.ringLen, Lcp(sl.cache, prompt), |prompt|, idx, slot, |sl.ringLen|)
       <==> h.idx == idx && h.slot == slot && h.from.Ring? && Usable(cfg, sl, prompt, h.from, h.len)
  {
    RingHitsUsable(sl.ringLen, Lcp(sl.cache, prompt), |prompt|, idx, slot, |sl.ringLen|, h);
    hide RingHits;
    if h.len <= |prompt| && h.len <= |sl.cache| {
      LcpReaches(sl.cache, prompt, h.len);
    }
    hide Lcp;
  }

  /** A slot's candidates are exactly its usable resume points. */
  lemma SlotHitsAre(cfg: Config, sl: Slot, prompt: seq<Token>, idx: nat, slot: nat, h: Hit)
    ensures h in SlotHits(cfg, sl, prompt, idx, slot) <==> h.idx == idx && h.slot == slot && Usable(cfg, sl, prompt, h.from, h.len)
  {
    hide Usable, RingHits, ExactHits, Lcp;
    ExactHitsAre(cfg, sl, prompt, idx, slot, h);
    RingHitsOf(cfg, sl, prompt, idx, slot, h);
  }

  lemma {:induction false} HitsAreUsable(cfg: Config, free: seq<nat>, slots: seq<Slot>, prompt: seq<Token>, n: nat, h: Hit)
    requires n <= |free| && forall p :: p in free ==> p < |slots|
    ensures h in Hits(cfg, free, slots, prompt, n)
       <==> h.idx < n && h.slot == free[h.idx] && h.slot < |slots| && Usable(cfg, slots[h.slot], prompt, h.from, h.len)
    decreases n
  {
    hide SlotHits, Usable;
    if n > 0 {
      HitsAreUsable(cfg, free, slots, prompt, n - 1, h);
      var p := free[n - 1];
      assert p in free;
      SlotHitsAre(cfg, slots[p], prompt, n - 1, p, h);
    }
  }

  /** In either mode, if any free slot offers a usable point, an admission resumes a usable point at
      least as long. */
  lemma LongestOffer(cfg: Config, free: seq<nat>, slots: seq<Slot>, prompt: seq<Token>, i: nat, from: From, len: nat)
    requires cfg.prefixCache && forall p :: p in free ==> p < |slots|
    requires i < |free| && free[i] < |slots| && Usable(cfg, slots[free[i]], prompt, from, len)
    ensures var c := Choice(cfg, free, slots, prompt);
            && c.Some? && c.value.from.Some? && c.value.phys in free && c.value.phys < |slots| && c.value.reuse >= len
            && Usable(cfg, slots[c.value.phys], prompt, c.value.from.value, c.value.reuse)
  {
    hide Usable, Hits, Longest;
    HitsAreUsable(cfg, free, slots, prompt, |free|, Hit(i, free[i], len, from));
    LongestIs(Hits(cfg, free, slots, prompt, |free|));
    HitsAreUsable(cfg, free, slots, prompt, |free|, Longest(Hits(cfg, free, slots, prompt, |free|)).value);
  }

  /** What the search picks is a point the slot really has. */
  lemma ChoiceOffers(cfg: Config, free: seq<nat>, slots: seq<Slot>, prompt: seq<Token>)
    requires (forall p :: p in free ==> p < |slots|) && Choice(cfg, free, slots, prompt).Some?
    ensures var k := Choice(cfg, free, slots, prompt).value; k.phys < |slots| && Offers(slots[k.phys], k)
  {
    var hs := Hits(cfg, free, slots, prompt, |free|);
    LongestIs(hs);
    if cfg.prefixCache && Longest(hs).Some? {
      HitOffers(cfg, free, slots, prompt, |free|, Longest(hs).value);
      HitsAreFree(cfg, free, slots, prompt, |free|, Longest(hs).value);
    } else {
      assert free[|free| - 1] in free;
    }
  }

  /** So it is for the scheduler: a request turned away for its length leaves the slot that was
      picked for it true to its record, for every network and device that the record is true of,
      exactly when the pick was not a ring entry short of the recorded cache. */
  lemma TurnedAwayExactly(cfg: Config, st: Sched, a: Arrival, spec: bool)
    requires ShapeOk(cfg, st) && Choice(cfg, st.free, st.slots, a.req.prompt).Some?
    requires TooLong(cfg, |a.req.prompt|, a.req.maxNew, spec)
    requires var k := Choice(cfg, st.free, st.slots, a.req.prompt).value;
             k.phys < |st.slots| && Plausible(cfg, k.phys, st.slots[k.phys])
    ensures var k := Choice(cfg, st.free, st.slots, a.req.prompt).value;
            && k.phys < |st.dev.cells|
            && (forall net :: Admit(net, cfg, st, a, spec) == Rejected(cfg, st, a, k))
            && ((forall net, d :: ExactOk(net, cfg, d, k.phys, st.slots[k.phys]) ==> TrueTo(net, cfg, st.(dev := d), a, k))
                <==> !(k.from.Some? && k.from.value.Ring? && k.reuse < |st.slots[k.phys].cache|))
  {
    var k := Choice(cfg, st.free, st.slots, a.req.prompt).value;
    ChoiceIsFree(cfg, st.free, st.slots, a.req.prompt);
    ChoiceOffers(cfg, st.free, st.slots, a.req.prompt);
    RejectKeepsLiveExactly(cfg, st.slots[k.phys], k);
    forall net, d | ExactOk(net, cfg, d, k.phys, st.slots[k.phys])
      ensures TrueTo(net, cfg, st.(dev := d), a, k) <==> Live(net, Restore(cfg, d, k), k.phys, CacheAfter(st.slots[k.phys], k))
    {
    }
    hide ExactOk, Live, Restore, Rejected, TrueTo, Choice, Offers;
  }

  /** After the refusal the picked slot's live state stands at the end of its recorded cache. */
  ghost predicate TrueTo(net: Network, cfg: Config, st: Sched, a: Arrival, k: Pick) {
    && k.phys < |st.slots| && k.phys < |st.dev.cells|
    && var r := Rejected(cfg, st, a, k);
       Live(net, r.dev, k.phys, r.slots[k.phys].cache)
  }

  /** A later live-state hit trusts that state: it starts cold exactly if the claim was true. */
  lemma LiveHitTrusts(net: Network, cfg: Config, st: Sched, a: Arrival, spec: bool, k: Pick)
    requires ShapeOk(cfg, st) && k.phys < cfg.maxBatch && k.from == Some(LiveState) && 0 < k.reuse
    requires k.reuse <= |a.req.prompt| && st.slots[k.phys].cache == a.req.prompt[..k.reuse]
    ensures Live(net, Started(net, cfg, st, a, spec, k).dev, k.phys, a.req.prompt[..k.reuse])
       <==> Live(net, st.dev, k.phys, st.slots[k.phys].cache)
  {
  }
}
