// The scheduler's inner loops: prefix search, accept, emit, and the front-packed lane table,
// each proved to compute the function the scheduler's specification uses.

module ServeLoops {
  import opened Wrappers
  import opened Trunk
  import opened GreedyLane
  import opened Slots
  import opened Scheduler

  // ------------------------------------------------------------------ the lane table

  /** Length of the front-packed part of the lane table. */
  function Lead(lanes: seq<Option<Lane>>): (n: nat)
    ensures n <= |lanes| && (forall i :: 0 <= i < n ==> lanes[i].Some?) && (n < |lanes| ==> lanes[n].None?)
  {
    if lanes == [] || lanes[0].None? then 0 else 1 + Lead(lanes[1..])
  }

  function Unpack(lanes: seq<Option<Lane>>): (r: seq<Lane>)
    ensures |r| == Lead(lanes)
  {
    seq(Lead(lanes), i requires 0 <= i < Lead(lanes) => lanes[i].value)
  }

  /** `lanes` holds exactly `ls`, packed at the front. */
  ghost predicate Packs(lanes: seq<Option<Lane>>, ls: seq<Lane>) {
    && |ls| <= |lanes|
    && (forall i :: 0 <= i < |ls| ==> lanes[i] == Some(ls[i]))
    && (forall i :: |ls| <= i < |lanes| ==> lanes[i].None?)
  }

  lemma {:induction false} PacksLead(lanes: seq<Option<Lane>>, ls: seq<Lane>)
    requires Packs(lanes, ls)
    ensures Lead(lanes) == |ls|
    decreases |ls|
  {
    if ls != [] {
      PacksLead(lanes[1..], ls[1..]);
    }
  }

  lemma PacksUnpack(lanes: seq<Option<Lane>>, ls: seq<Lane>)
    requires Packs(lanes, ls)
    ensures Unpack(lanes) == ls
  {
    PacksLead(lanes, ls);
  }

  lemma PacksAppend(lanes: seq<Option<Lane>>, ls: seq<Lane>, l: Lane)
    requires Packs(lanes, ls) && |ls| < |lanes|
    ensures Packs(lanes[|ls| := Some(l)], ls + [l]) && Unpack(lanes[|ls| := Some(l)]) == ls + [l]
  {
    PacksUnpack(lanes[|ls| := Some(l)], ls + [l]);
  }

  // ------------------------------------------------------------------ accept and emit loops

  /** Longest agreeing prefix, clamped to the schema-valid drafts. */
  method AcceptPrefix(preds: seq<Token>, drafts: seq<Token>, valid: nat) returns (nacc: nat)
    requires |preds| == |drafts| + 1
    ensures nacc == Min(AcceptLen(preds, drafts), valid)
  {
    nacc := 0;
    while nacc < |drafts| && preds[nacc] == drafts[nacc]
      invariant nacc <= |drafts| && nacc <= AcceptLen(preds, drafts)
    {
      nacc := nacc + 1;
    }
    if valid < nacc {
      nacc := valid;
    }
  }

  /** Emit accepted drafts and the bonus under the budget and end rules. */
  method EmitTokens(eos: set<Token>, req: Request, g: nat, ds: seq<Token>, bonus: Token)
    returns (toks: seq<Token>, hit: bool)
    ensures (toks, hit) == Emit(eos, req, g, ds, bonus)
  {
    toks, hit := [], false;
    var k := 0;
    ghost var all := EmitDrafts(eos, req, g, ds);
    assert ds[0..] == ds && [] + all.0 == all.0;
    while k < |ds| && g + |toks| < req.maxNew && !hit
      invariant 0 <= k <= |ds| && |toks| == k
      invariant hit ==> all == (toks, true)
      invariant !hit ==> all == (toks + EmitDrafts(eos, req, g + k, ds[k..]).0, EmitDrafts(eos, req, g + k, ds[k..]).1)
    {
      assert ds[k..][0] == ds[k] && ds[k..][1..] == ds[k + 1..];
      ghost var before, rest := toks, EmitDrafts(eos, req, g + k + 1, ds[k + 1..]).0;
      assert before + ([ds[k]] + rest) == before + [ds[k]] + rest;
      toks := toks + [ds[k]];
      hit := EosHit(eos, req, g + |toks|, ds[k]);
      k := k + 1;
    }
    assert toks + [] == toks;
    if !hit && g + |toks| < req.maxNew {
      toks := toks + [bonus];
      hit := EosHit(eos, req, g + |toks|, bonus);
    }
  }

  /** Send `toks` one by one, draining the history when it outgrows its cap. */
  method SendAll(history0: seq<Token>, sent0: seq<Token>, toks: seq<Token>) returns (history: seq<Token>, sent: seq<Token>)
    ensures history == RememberAll(history0, toks) && sent == sent0 + toks
  {
    history, sent := history0, sent0;
    var k := 0;
    while k < |toks|
      invariant 0 <= k <= |toks|
      invariant RememberAll(history, toks[k..]) == RememberAll(history0, toks)
      invariant sent == sent0 + toks[..k]
    {
      assert toks[k..][0] == toks[k] && toks[k..][1..] == toks[k + 1..];
      sent := sent + [toks[k]];
      history := history + [toks[k]];
      if |history| > HISTORY_CAP {
        history := history[HISTORY_DRAIN..];
      }
      k := k + 1;
    }
    assert toks[..k] == toks;
  }

  /** The sampled emit loop: push, then check the end rules. */
  method CutTokens(eos: set<Token>, req: Request, g: nat, emitted: seq<Token>) returns (toks: seq<Token>, stopped: bool)
    ensures toks == Cut(eos, req, g, emitted)
    ensures stopped <==> toks != [] && Stops(eos, req, g + |toks|, toks[|toks| - 1])
  {
    toks, stopped := [], false;
    var k := 0;
    ghost var n := |Cut(eos, req, g, emitted)|;
    assert emitted[0..] == emitted;
    while k < |emitted| && !stopped
      invariant 0 <= k <= |emitted| && toks == emitted[..k]
      invariant n == if stopped then k else k + |Cut(eos, req, g + k, emitted[k..])|
      invariant stopped <==> k > 0 && Stops(eos, req, g + k, toks[k - 1])
    {
      assert emitted[k..][0] == emitted[k] && emitted[k..][1..] == emitted[k + 1..];
      toks := toks + [emitted[k]];
      k := k + 1;
      stopped := Stops(eos, req, g + k, toks[k - 1]);
    }
    assert Cut(eos, req, g, emitted) == emitted[..n] && n == k;
  }

  // ------------------------------------------------------------------ prefix search loops

  lemma {:induction false} LcpIs(a: seq<Token>, b: seq<Token>, n: nat)
    requires n <= |a| && n <= |b| && (forall k :: 0 <= k < n ==> a[k] == b[k])
    requires n == |a| || n == |b| || a[n] != b[n]
    ensures Lcp(a, b) == n
    decreases n
  {
    if n > 0 {
      LcpIs(a[1..], b[1..], n - 1);
    }
  }

  method CommonPrefix(a: seq<Token>, b: seq<Token>) returns (n: nat)
    ensures n == Lcp(a, b)
  {
    n := 0;
    while n < |a| && n < |b| && a[n] == b[n]
      invariant n <= |a| && n <= |b|
      invariant forall k :: 0 <= k < n ==> a[k] == b[k]
    {
      n := n + 1;
    }
    LcpIs(a, b, n);
  }

  function Better(best: Option<Hit>, h: Hit): Option<Hit> {
    if best.Some? && h.len < best.value.len then best else Some(h)
  }

  lemma LongestSnoc(hs: seq<Hit>, h: Hit)
    ensures Longest(hs + [h]) == Better(Longest(hs), h)
  {
    assert (hs + [h])[..|hs|] == hs;
  }

  /** Weigh one slot's live state and prompt checkpoint. */
  method ConsiderExact(cfg: Config, sl: Slot, prompt: seq<Token>, idx: nat, slot: nat, live: nat,
                       best0: Option<Hit>, ghost seen: seq<Hit>) returns (best: Option<Hit>)
    requires best0 == Longest(seen) && live == Lcp(sl.cache, prompt)
    ensures best == Longest(seen + ExactHits(cfg, sl, prompt, idx, slot))
  {
    best := best0;
    assert seen + [] == seen;
    if !cfg.gridReuse {
      var ckpt := CommonPrefix(sl.prompt, prompt);
      ghost var sofar := seen;
      hide Lcp, Longest;
      if live > 0 && live == |sl.cache| && live < |prompt| {
        LongestSnoc(sofar, Hit(idx, slot, live, LiveState));
        best := Better(best, Hit(idx, slot, live, LiveState));
        sofar := sofar + [Hit(idx, slot, live, LiveState)];
      }
      if ckpt > 0 && ckpt == |sl.prompt| && ckpt < |prompt| {
        LongestSnoc(sofar, Hit(idx, slot, ckpt, PromptState));
        best := Better(best, Hit(idx, slot, ckpt, PromptState));
        sofar := sofar + [Hit(idx, slot, ckpt, PromptState)];
      }
      assert sofar == seen + ExactHits(cfg, sl, prompt, idx, slot);
    }
  }

  lemma RingNext(ringLen: seq<nat>, live: nat, plen: nat, idx: nat, slot: nat, j: nat)
    requires j < |ringLen|
    ensures RingHits(ringLen, live, plen, idx, slot, j + 1)
         == RingHits(ringLen, live, plen, idx, slot, j)
            + if 0 < ringLen[j] <= live && ringLen[j] < plen then [Hit(idx, slot, ringLen[j], Ring(j))] else []
  {
  }

  /** Weigh one slot's ring entries. */
  method ConsiderRing(ringLen: seq<nat>, live: nat, plen: nat, idx: nat, slot: nat,
                      best0: Option<Hit>, ghost seen: seq<Hit>) returns (best: Option<Hit>)
    requires best0 == Longest(seen)
    ensures best == Longest(seen + RingHits(ringLen, live, plen, idx, slot, |ringLen|))
  {
    best := best0;
    var j := 0;
    assert seen + RingHits(ringLen, live, plen, idx, slot, 0) == seen;
    hide Longest, Better, RingHits;
    while j < |ringLen|
      invariant 0 <= j <= |ringLen|
      invariant best == Longest(seen + RingHits(ringLen, live, plen, idx, slot, j))
    {
      ghost var sofar := RingHits(ringLen, live, plen, idx, slot, j);
      RingNext(ringLen, live, plen, idx, slot, j);
      if 0 < ringLen[j] <= live && ringLen[j] < plen {
        var h := Hit(idx, slot, ringLen[j], Ring(j));
        LongestSnoc(seen + sofar, h);
        assert seen + sofar + [h] == seen + (sofar + [h]);
        best := Better(best, h);
      }
      j := j + 1;
    }
  }

  method ConsiderSlot(cfg: Config, sl: Slot, prompt: seq<Token>, idx: nat, slot: nat,
                      best0: Option<Hit>, ghost seen: seq<Hit>) returns (best: Option<Hit>)
    requires best0 == Longest(seen)
    ensures best == Longest(seen + SlotHits(cfg, sl, prompt, idx, slot))
  {
    hide Lcp, Longest, ExactHits, RingHits;
    var live := CommonPrefix(sl.cache, prompt);
    best := ConsiderExact(cfg, sl, prompt, idx, slot, live, best0, seen);
    ghost var exact := ExactHits(cfg, sl, prompt, idx, slot);
    best := ConsiderRing(sl.ringLen, live, |prompt|, idx, slot, best, seen + exact);
    ghost var ring := RingHits(sl.ringLen, live, |prompt|, idx, slot, |sl.ringLen|);
    assert seen + exact + ring == seen + (exact + ring);
  }

  /** Search every free slot for the longest usable resume point, the last one on a tie. */
  method FindBest(cfg: Config, free: seq<nat>, slots: seq<Slot>, prompt: seq<Token>) returns (best: Option<Hit>)
    requires forall p :: p in free ==> p < |slots|
    ensures best == Longest(Hits(cfg, free, slots, prompt, |free|))
  {
    best := None;
    assert best == Longest(Hits(cfg, free, slots, prompt, 0));
    hide Longest, SlotHits, ExactHits, RingHits, Lcp;
    var i := 0;
    while i < |free|
      invariant 0 <= i <= |free|
      invariant best == Longest(Hits(cfg, free, slots, prompt, i))
    {
      var p := free[i];
      assert p in free;
      best := ConsiderSlot(cfg, slots[p], prompt, i, p, best, Hits(cfg, free, slots, prompt, i));
      i := i + 1;
    }
  }

  /** Zero the ring entries past the reuse point. */
  method InvalidateRing(ringLen: seq<nat>, reuse: nat) returns (r: seq<nat>)
    ensures r == Invalidated(ringLen, reuse)
  {
    r := ringLen;
    var j := 0;
    while j < |r|
      invariant 0 <= j <= |r| == |ringLen|
      invariant forall k :: 0 <= k < |r| ==> r[k] == if k < j then Invalidated(ringLen, reuse)[k] else ringLen[k]
    {
      if r[j] > reuse {
        r := r[j := 0];
      }
      j := j + 1;
    }
  }

  /** Schema masks along the drafts: how many of them the machine accepts in a row. */
  method ValidDrafts(req: Request, st: nat, drafts: seq<Token>) returns (valid: nat)
    ensures valid == ValidLen(req, st, drafts)
  {
    if req.schema.None? {
      return |drafts|;
    }
    var cur, broken := st, false;
    valid := 0;
    assert drafts[0..] == drafts;
    while valid < |drafts| && !broken
      invariant 0 <= valid <= |drafts|
      invariant !broken ==> ValidLen(req, st, drafts) == valid + ValidLen(req, cur, drafts[valid..])
      invariant broken ==> ValidLen(req, st, drafts) == valid
      decreases |drafts| - valid, !broken
    {
      assert drafts[valid..][0] == drafts[valid] && drafts[valid..][1..] == drafts[valid + 1..];
      match req.schema.value.step(cur, drafts[valid]) {
        case None => broken := true;
        case Some(next) =>
          cur := next;
          valid := valid + 1;
      }
    }
  }

  /** Advance the schema machine over the emitted tokens. */
  method AdvanceSchema(req: Request, st: nat, toks: seq<Token>) returns (st': nat, done: bool)
    ensures (st', done) == SchemaAdvance(req, st, toks)
  {
    if req.schema.None? {
      return st, false;
    }
    var sm := req.schema.value;
    st' := st;
    var k := 0;
    assert toks[0..] == toks;
    while k < |toks|
      invariant 0 <= k <= |toks|
      invariant SchemaAdvance(req, st', toks[k..]) == SchemaAdvance(req, st, toks)
    {
      assert toks[k..][0] == toks[k] && toks[k..][1..] == toks[k + 1..];
      match sm.step(st', toks[k]) {
        case None => return st', true;
        case Some(next) => st' := next;
      }
      k := k + 1;
    }
    done := sm.complete(st');
  }
}
