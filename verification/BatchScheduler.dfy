// The scheduler object: the operations of module Scheduler done in place on its fields, each
// proved to take the object exactly where the specification says.

module BatchScheduling {
  import opened Wrappers
  import opened Trunk
  import opened Device
  import opened GreedyLane
  import opened Slots
  import opened LaneSteps
  import opened Scheduler
  import opened SchedInvariant
  import opened ServeLoops
  import opened SchedForest
  import Forest
  import Lossless
  import SchedRuns
  import TreeWalk
  import Penalty

  lemma OverNext(done: seq<bool>, over0: seq<bool>, k: nat, d: bool)
    requires |done| == k < |over0|
    ensures var over := done + over0[k..];
            over[k := over[k] || d] == done + [d || over0[k]] + over0[k + 1..]
  {
  }

  lemma KeptNext(ls: seq<Lane>, over: seq<bool>, i: nat)
    requires |ls| == |over| && i < |ls|
    ensures Kept(ls[..i + 1], over[..i + 1]) == Kept(ls[..i], over[..i]) + (if over[i] then [] else [ls[i]])
    ensures PhysOf(Ended(ls[..i + 1], over[..i + 1])) == PhysOf(Ended(ls[..i], over[..i])) + (if over[i] then [ls[i].phys] else [])
    ensures OutcomesOf(Ended(ls[..i + 1], over[..i + 1])) == OutcomesOf(Ended(ls[..i], over[..i])) + (if over[i] then [OutcomeOf(ls[i])] else [])
  {
    assert ls[..i + 1][..i] == ls[..i] && over[..i + 1][..i] == over[..i];
  }

  /** Lanes below `i` are kept and packed below `write`, or gone; the rest are where they were. */
  ghost predicate MidCompaction(lanes: seq<Option<Lane>>, ls: seq<Lane>, over: seq<bool>, i: nat, write: nat) {
    && write <= i <= |ls| == |over| <= |lanes|
    && write == |Kept(ls[..i], over[..i])|
    && (forall j :: 0 <= j < write ==> lanes[j] == Some(Kept(ls[..i], over[..i])[j]))
    && (forall j :: write <= j < i ==> lanes[j].None?)
    && (forall j :: i <= j < |ls| ==> lanes[j] == Some(ls[j]))
    && (forall j :: |ls| <= j < |lanes| ==> lanes[j].None?)
  }

  lemma CompactionStarts(lanes: seq<Option<Lane>>, ls: seq<Lane>, over: seq<bool>)
    requires Packs(lanes, ls) && |over| == |ls|
    ensures MidCompaction(lanes, ls, over, 0, 0)
    ensures PhysOf(Ended(ls[..0], over[..0])) == [] && OutcomesOf(Ended(ls[..0], over[..0])) == []
  {
  }

  lemma CompactionNext(lanes: seq<Option<Lane>>, ls: seq<Lane>, over: seq<bool>, i: nat, write: nat)
    requires MidCompaction(lanes, ls, over, i, write) && i < |ls|
    ensures lanes[i] == Some(ls[i])
    ensures MidCompaction(if over[i] then lanes[i := None] else lanes[i := None][write := Some(ls[i])],
                          ls, over, i + 1, if over[i] then write else write + 1)
  {
    KeptNext(ls, over, i);
    hide Kept, Ended;
  }

  lemma CompactionDone(lanes: seq<Option<Lane>>, ls: seq<Lane>, over: seq<bool>, write: nat)
    requires MidCompaction(lanes, ls, over, |ls|, write)
    ensures Packs(lanes, Kept(ls, over)) && ls[..|ls|] == ls && over[..|ls|] == over
  {
    assert ls[..|ls|] == ls && over[..|ls|] == over;
    hide Kept;
  }

  /** A cursor's slot is not a lane's, so there is room for the lane it will become. */
  lemma SoundGate(net: Network, cfg: Config, st: Sched)
    requires SchedRuns.Sound(net, cfg, st)
    ensures st.pf.Some? ==> |st.lanes| < cfg.maxBatch
  {
    SlotsConserved(cfg, st);
  }

  /** Emit, advance the schema machine, send: the lane's record after a verified step. */
  method BookTokens(eos: set<Token>, l: Lane, cache: seq<Token>, path: seq<Token>, bonus: Token) returns (s: Stream)
    ensures s == Commit(eos, l.req, View(l, cache, false), path, bonus)
  {
    var toks, hit := EmitTokens(eos, l.req, l.generated, path, bonus);
    var schemaState, schemaDone := AdvanceSchema(l.req, l.schemaState, toks);
    var done := hit || l.generated + |toks| >= l.req.maxNew || schemaDone;
    var history, sent := SendAll(l.history, l.sent, toks);
    var last := if !done then bonus else if toks == [] then l.last else toks[|toks| - 1];
    s := Stream(cache + [l.last] + path, last, l.generated + |toks|, history, schemaState, sent, done);
    Lossless.SchemaNone(l.req, l.schemaState, toks);
    hide Emit, SchemaAdvance, RememberAll;
  }

  /** The same after a step that leaves the schema machine alone. */
  method BookUnmasked(eos: set<Token>, l: Lane, cache: seq<Token>, path: seq<Token>, bonus: Token) returns (s: Stream)
    ensures s == Commit(eos, Unmasked(l.req), View(l, cache, false), path, bonus)
  {
    var toks, hit := EmitTokens(eos, Unmasked(l.req), l.generated, path, bonus);
    var done := hit || l.generated + |toks| >= l.req.maxNew;
    var history, sent := SendAll(l.history, l.sent, toks);
    var last := if !done then bonus else if toks == [] then l.last else toks[|toks| - 1];
    s := Stream(cache + [l.last] + path, last, l.generated + |toks|, history, l.schemaState, sent, done);
    Lossless.SchemaNone(Unmasked(l.req), l.schemaState, toks);
    hide Emit, SchemaAdvance, RememberAll;
  }

  class BatchScheduler {
    const net: Network
    const cfg: Config
    var lanes: seq<Option<Lane>>
    var free: seq<nat>
    var pf: Option<Cursor>
    var slots: seq<Slot>
    var dev: Dev
    var outcomes: seq<Outcome>

    function State(): Sched
      reads this
    {
      Sched(Unpack(lanes), free, pf, slots, dev, outcomes)
    }

    /** The lane table is front-packed, and every index the state holds is in range. */
    ghost predicate Valid()
      reads this
    {
      && |lanes| == cfg.maxBatch && Packs(lanes, Unpack(lanes))
      && ShapeOk(cfg, State()) && CursorShape(cfg, State())
    }

    constructor (net: Network, cfg: Config, dev: Dev)
      requires |dev.cells| == CellCount(cfg) && |dev.kv| == cfg.maxBatch
      requires forall p :: 0 <= p < cfg.maxBatch ==> |dev.kv[p]| == cfg.kvStride
      ensures Valid() && this.net == net && this.cfg == cfg
      ensures SchedRuns.Fresh(cfg, State())
    {
      this.net, this.cfg, this.dev := net, cfg, dev;
      lanes := seq(cfg.maxBatch, i => None);
      free := SchedRuns.Descending(cfg.maxBatch);
      pf := None;
      slots := seq(cfg.maxBatch, p => Slot([], [], seq(RING_K, j => 0), 0));
      outcomes := [];
      new;
      PacksUnpack(lanes, []);
      assert forall p :: p in free ==> p < cfg.maxBatch;
    }

    method NumActive() returns (n: nat)
      requires Valid()
      ensures n == |State().lanes| == Lead(lanes)
    {
      n := 0;
      while n < |lanes| && lanes[n].Some?
        invariant n <= Lead(lanes)
      {
        n := n + 1;
      }
    }

    // ---------------------------------------------------------------- admission

    /** The best resume point's slot, else the top of the free list. */
    method FindSlot(prompt: seq<Token>) returns (k: Option<Pick>)
      requires Valid()
      ensures k == Choice(cfg, free, slots, prompt)
    {
      assert forall p :: p in free ==> p < |slots|;
      hide Valid, ShapeOk, CursorShape, Packs, Unpack, Lead, Hits, Longest, State;
      var best := None;
      if cfg.prefixCache {
        best := FindBest(cfg, free, slots, prompt);
      }
      if best.Some? && best.value.idx < |free| {
        var h := best.value;
        k := Some(Pick(h.slot, h.len, Some(h.from), free[..h.idx] + free[h.idx + 1..]));
      } else if free != [] {
        k := Some(Pick(free[|free| - 1], 0, None, free[..|free| - 1]));
      } else {
        k := None;
      }
    }

    /** Wind the slot's recurrent state back to the chosen point. */
    method RestoreState(k: Pick)
      requires k.phys < |dev.cells|
      modifies this`dev
      ensures dev == Restore(cfg, old(dev), k)
    {
      match k.from {
        case Some(PromptState) =>
          if PromptCell(cfg, k.phys) < |dev.cells| {
            dev := CopyCell(dev, PromptCell(cfg, k.phys), k.phys);
          }
        case Some(Ring(j)) =>
          if RingCell(cfg, k.phys, j) < |dev.cells| {
            dev := CopyCell(dev, RingCell(cfg, k.phys, j), k.phys);
          }
        case _ =>
      }
    }

    /** Restore the resume point and drop the ring entries past it. */
    method WindBack(k: Pick)
      requires Valid() && k.phys < cfg.maxBatch
      modifies this`dev, this`slots
      ensures dev == Restore(cfg, old(dev), k)
      ensures slots == old(slots)[k.phys := old(slots)[k.phys].(ringLen := Invalidated(old(slots)[k.phys].ringLen, k.reuse))]
    {
      RestoreState(k);
      var ringLen := InvalidateRing(slots[k.phys].ringLen, k.reuse);
      slots := slots[k.phys := slots[k.phys].(ringLen := ringLen)];
    }

    /** Return the slot of a request that does not fit. */
    method TurnAway(a: Arrival, k: Pick)
      requires Valid() && k.phys < cfg.maxBatch
      modifies this
      ensures State() == Rejected(cfg, old(State()), a, k) && lanes == old(lanes)
    {
      var prompt := slots[k.phys].prompt;
      WindBack(k);
      if k.from == Some(PromptState) {
        slots := slots[k.phys := slots[k.phys].(cache := prompt)];
      }
      free := k.free + [k.phys];
      outcomes := outcomes + [Refusal(a.id, ContextLength)];
    }

    /** Arm the prefill cursor of a request that fits. */
    method Arm(a: Arrival, spec: bool, k: Pick)
      requires Valid() && k.phys < cfg.maxBatch
      modifies this
      ensures State() == Started(net, cfg, old(State()), a, spec, k) && lanes == old(lanes)
    {
      WindBack(k);
      if k.reuse == 0 {
        dev := ZeroSlot(net, dev, k.phys);
      }
      var req := a.req.(maxNew := ClampedBudget(cfg, |a.req.prompt|, a.req.maxNew, spec));
      free := k.free;
      pf := Some(Cursor(a.id, req, k.phys, k.reuse, k.reuse, Boundary(cfg, a, k.reuse), 0, spec));
    }

    method Admit(a: Arrival, spec: bool)
      requires Valid() && pf.None?
      modifies this
      ensures State() == Scheduler.Admit(net, cfg, old(State()), a, spec)
      ensures Valid()
    {
      hide Choice, Rejected, Started;
      ghost var st := State();
      ChoiceIsFree(cfg, free, slots, a.req.prompt);
      ChoiceIsShort(cfg, free, slots, a.req.prompt);
      var choice := FindSlot(a.req.prompt);
      if choice.None? {
        outcomes := outcomes + [Refusal(a.id, Capacity)];
        return;
      }
      var k := choice.value;
      assert k.phys in st.free && forall p :: p in k.free ==> p in st.free;
      var plen := |a.req.prompt|;
      if plen >= cfg.kvStride || ClampedBudget(cfg, plen, a.req.maxNew, spec) == 0 {
        RejectedFits(cfg, st, a, k);
        TurnAway(a, k);
      } else {
        StartedFits(net, cfg, st, a, spec, k);
        Arm(a, spec, k);
      }
    }

    // ---------------------------------------------------------------- prefill

    /** One window of the in-flight prefill; a no-op when nothing is prefilling. */
    method PfAdvance()
      requires Valid()
      requires pf.Some? ==> Lead(lanes) < cfg.maxBatch
      modifies this
      ensures State() == Scheduler.PfAdvance(net, cfg, old(State()))
      ensures Valid()
    {
      if pf.None? {
        return;
      }
      var c := pf.value;
      var plen := |c.req.prompt|;
      if c.w0 >= plen {
        PfFinish(c);
        return;
      }
      WindowPass(c);
      if pf.value.w0 >= plen {
        PfFinish(pf.value);
      }
    }

    /** Prefill one window and take the snapshots due at its end. */
    method WindowPass(c: Cursor)
      requires Valid() && pf == Some(c) && c.w0 < |c.req.prompt|
      modifies this`dev, this`slots, this`pf
      ensures State() == RunWindow(net, cfg, old(State()), c)
      ensures Valid()
    {
      ghost var st := State();
      WindowFits(net, cfg, st, c);
      RingCellBounds(cfg, c.phys, slots[c.phys].ringCursor);
      hide ShapeOk, CursorShape, Packs, Unpack, Consume, WindowEnd, MemAt;
      var plen := |c.req.prompt|;
      var w1 := WindowEnd(cfg, c.w0, plen, c.ckptAt);
      dev := Consume(net, dev, c.phys, c.w0, c.req.prompt[c.w0..w1]);
      var tok := net.pick(MemAt(dev, c.phys, w1), multiset{}, None);
      var sl := slots[c.phys];
      if c.ckptAt == Some(w1) {
        dev := CopyCell(dev, c.phys, PromptCell(cfg, c.phys));
        sl := sl.(prompt := c.req.prompt[..w1]);
      }
      if cfg.prefixCache && w1 < plen && w1 % RING_STRIDE == 0 {
        var j := sl.ringCursor;
        dev := CopyCell(dev, c.phys, RingCell(cfg, c.phys, j));
        sl := sl.(ringLen := sl.ringLen[j := w1], ringCursor := (j + 1) % RING_K);
      }
      slots := slots[c.phys := sl];
      pf := Some(c.(w0 := w1, firstTok := tok));
    }

    method PfFinish(c: Cursor)
      requires Valid() && pf == Some(c) && Lead(lanes) < cfg.maxBatch
      modifies this
      ensures State() == Scheduler.PfFinish(cfg, old(State()), c)
      ensures Valid()
    {
      ghost var st := State();
      FinishFits(cfg, st, c);
      PacksAppend(lanes, st.lanes, Install(c));
      hide Install, ShapeOk, CursorShape, Packs, Unpack;
      var sl := slots[c.phys];
      if cfg.prefixCache && (c.ckptAt.None? || cfg.gridReuse) {
        dev := CopyCell(dev, c.phys, PromptCell(cfg, c.phys));
        sl := sl.(prompt := c.req.prompt);
      }
      slots := slots[c.phys := sl.(cache := c.req.prompt)];
      var slot := NumActive();
      lanes := lanes[slot := Some(Install(c))];
      pf := None;
    }

    // ---------------------------------------------------------------- one lane's step

    /** Write a served lane back: its table entry, its slot's cache. */
    method WriteBack(i: nat, s: Stream, pos: nat, spec: bool)
      requires Valid() && i < Lead(lanes)
      modifies this`lanes, this`slots
      ensures State() == ApplyServed(old(State()), i, Served(s, pos, dev), spec)
      ensures Valid()
    {
      ghost var st := State();
      var l := lanes[i].value;
      slots := slots[l.phys := slots[l.phys].(cache := s.cache)];
      lanes := lanes[i := Some(Update(l, s, pos).(stale := l.stale || !spec))];
      PacksUnpack(lanes, st.lanes[i := Update(l, s, pos).(stale := l.stale || !spec)]);
    }

    /** Emit, advance the schema machine, send, and record what was fed. */
    method CommitStep(i: nat, path: seq<Token>, bonus: Token) returns (done: bool)
      requires Valid() && i < Lead(lanes)
      modifies this`lanes, this`slots
      ensures Valid()
      ensures var l := old(State()).lanes[i];
              var s := Commit(cfg.eos, l.req, View(l, old(slots)[l.phys].cache, false), path, bonus);
              done == s.finished && State() == ApplyServed(old(State()), i, Served(s, PosAfter(l, s, |path|), dev), true)
    {
      var l := lanes[i].value;
      var s := BookTokens(cfg.eos, l, slots[l.phys].cache, path, bonus);
      hide Commit, Valid;
      done := s.finished;
      WriteBack(i, s, PosAfter(l, s, |path|), true);
    }

    /** One forward over all columns of a draft tree. */
    method VerifyColumns(i: nat, parent: seq<int>, tokens: seq<Token>)
      requires Valid() && i < Lead(lanes) && IsTree(parent) && |tokens| == |parent| <= cfg.checkpoints + 1
      requires State().lanes[i].pos + |parent| <= cfg.kvStride
      modifies this`dev
      ensures Valid() && SameDims(old(dev), dev)
      ensures var l := State().lanes[i];
              dev == Verify(net, old(dev), l.phys, l.pos, parent, tokens, VerifyCell(cfg))
    {
      var l := lanes[i].value;
      dev := Verify(net, dev, l.phys, l.pos, parent, tokens, VerifyCell(cfg));
      hide Verify, IsTree;
    }

    method CopyGdnSlot(src: nat, dst: nat)
      requires Valid() && src < |dev.cells| && dst < |dev.cells|
      modifies this`dev
      ensures Valid() && dev == CopyCell(old(dev), src, dst)
    {
      dev := CopyCell(dev, src, dst);
    }

    method CompactKv(i: nat, path: seq<nat>)
      requires Valid() && i < Lead(lanes) && State().lanes[i].pos + |path| <= cfg.kvStride
      requires forall k :: 0 <= k < |path| ==> State().lanes[i].pos + path[k] < cfg.kvStride
      modifies this`dev
      ensures Valid() && dev == Compact(old(dev), State().lanes[i].phys, State().lanes[i].pos, path)
      ensures SameDims(old(dev), dev)
    {
      var l := lanes[i].value;
      dev := Compact(dev, l.phys, l.pos, path);
    }

    /** The device half of a greedy chain step: verify, accept, wind back to the accepted column. */
    method ChainForward(i: nat, drafts: seq<Token>) returns (nacc: nat, bonus: Token)
      requires Valid() && i < Lead(lanes) && |drafts| <= cfg.checkpoints
      requires State().lanes[i].pos + |drafts| + 1 <= cfg.kvStride
      modifies this`dev
      ensures Valid() && nacc <= |drafts|
      ensures var l := State().lanes[i];
              var preds := ChainPreds(net, MemAt(old(dev), l.phys, l.pos), l, drafts);
              && nacc == Min(AcceptLen(preds, drafts), ValidLen(l.req, l.schemaState, drafts)) && bonus == preds[nacc]
              && dev == ChainDevice(net, cfg, old(dev), l.phys, l.pos, [l.last] + drafts, nacc)
    {
      var l := lanes[i].value;
      var preds := ChainPreds(net, MemAt(dev, l.phys, l.pos), l, drafts);
      var valid := ValidDrafts(l.req, l.schemaState, drafts);
      hide Verify, ChainPreds, AcceptLen, ValidLen, Valid;
      VerifyColumns(i, ChainParent(|drafts| + 1), [l.last] + drafts);
      nacc := AcceptPrefix(preds, drafts, valid);
      if nacc + 1 != |drafts| + 1 {
        CopyGdnSlot(VerifyCell(cfg) + nacc, l.phys);
      }
      bonus := preds[nacc];
    }

    /** Greedy chain step: verify all drafts in one forward, keep the agreed prefix plus one. */
    method MtpLaneStep(i: nat, drafts: seq<Token>) returns (done: bool)
      requires Valid() && i < Lead(lanes) && |drafts| <= cfg.checkpoints
      requires State().lanes[i].pos + |drafts| + 1 <= cfg.kvStride
      modifies this`lanes, this`slots, this`dev
      ensures Valid()
      ensures var l := old(State()).lanes[i];
              var r := ChainStep(net, cfg, old(dev), l, old(slots)[l.phys].cache, drafts);
              done == r.stream.finished && State() == ApplyServed(old(State()), i, r, true)
    {
      ghost var l := lanes[i].value;
      assert Fits(dev, cfg, l.phys, l.pos, |drafts| + 1) && l.phys < |slots|;
      hide ChainPreds, AcceptLen, ValidLen, Commit, Valid, ApplyServed, ChainDevice, Fits;
      var nacc, bonus := ChainForward(i, drafts);
      assert |drafts[..nacc]| == nacc;
      done := CommitStep(i, drafts[..nacc], bonus);
    }

    /** Sampled chain step; the accept draws kept `accepted` drafts and then chose `tail`. */
    method MtpLaneStepSample(i: nat, drafts: seq<Token>, accepted: nat, tail: Token) returns (done: bool)
      requires Valid() && i < Lead(lanes) && accepted <= |drafts| <= cfg.checkpoints
      requires State().lanes[i].pos + |drafts| + 1 <= cfg.kvStride
      modifies this`lanes, this`slots, this`dev
      ensures Valid()
      ensures var l := old(State()).lanes[i];
              var r := SampledStep(net, cfg, old(dev), l, old(slots)[l.phys].cache, drafts, accepted, tail);
              done == r.stream.finished && State() == ApplyServed(old(State()), i, r, true)
    {
      var l := lanes[i].value;
      var n, snapshot := |drafts| + 1, VerifyCell(cfg);
      hide Verify, Cut, Valid, ApplyServed;
      VerifyColumns(i, ChainParent(n), [l.last] + drafts);
      if accepted + 1 != n {
        CopyGdnSlot(snapshot + accepted, l.phys);
      }
      done := CommitSampled(i, drafts[..accepted], tail);
    }

    /** The sampled lane's emit and bookkeeping. */
    method CommitSampled(i: nat, path: seq<Token>, tail: Token) returns (done: bool)
      requires Valid() && i < Lead(lanes)
      modifies this`lanes, this`slots
      ensures Valid()
      ensures var l := old(State()).lanes[i];
              var s := SampledStream(cfg, l, old(slots)[l.phys].cache, path, tail);
              done == s.finished && State() == ApplyServed(old(State()), i, Served(s, PosAfter(l, s, |path|), dev), true)
    {
      hide Cut, RememberAll, Stops;
      var l := lanes[i].value;
      var toks, stopped := CutTokens(cfg.eos, l.req, l.generated, path + [tail]);
      var history, sent := SendAll(l.history, l.sent, toks);
      done := stopped;
      var s := Stream(slots[l.phys].cache + [l.last] + path,
                      if toks == [] then l.last else toks[|toks| - 1],
                      l.generated + |toks|, history, l.schemaState, sent, done);
      WriteBack(i, s, if !done then l.pos + |path| + 1 else l.pos + |toks|, true);
    }

    /** The accept walk over a verified tree, and the facts the commit needs of it. */
    method WalkTree(parent: seq<int>, tokens: seq<Token>, preds: seq<Token>) returns (path: seq<nat>, emitted: seq<Token>)
      requires IsTree(parent) && |tokens| == |preds| == |parent|
      ensures path == TreeWalk.Walk(parent, tokens, preds, 0) && emitted == TreeWalk.PredsAlong(preds, path)
      ensures 0 < |path| <= |parent|
    {
      path, emitted := TreeWalk.TreeAcceptWalk(parent, tokens, preds);
      TreeWalk.WalkIsTheWalk(parent, tokens, preds, path);
      TreeWalk.WalkIsRootPath(parent, tokens, preds, path);
    }

    /** The device half of a tree step: verify, walk, compact the path, adopt its leaf. */
    method TreeForward(i: nat, parent: seq<int>, tokens: seq<Token>) returns (emitted: seq<Token>)
      requires Valid() && i < Lead(lanes) && IsTree(parent) && |tokens| == |parent| <= cfg.checkpoints + 1
      requires State().lanes[i].pos + |parent| <= cfg.kvStride
      modifies this`dev
      ensures Valid()
      ensures var l := State().lanes[i];
              var preds := NodePreds(net, MemAt(old(dev), l.phys, l.pos), l, parent, tokens);
              var path := TreeWalk.Walk(parent, tokens, preds, 0);
              && 0 < |path| <= |parent| && emitted == TreeWalk.PredsAlong(preds, path)
              && dev == Adopt(Verify(net, old(dev), l.phys, l.pos, parent, tokens, VerifyCell(cfg)),
                              l.phys, l.pos, path, |parent|, VerifyCell(cfg))
    {
      var l := lanes[i].value;
      var preds := NodePreds(net, MemAt(dev, l.phys, l.pos), l, parent, tokens);
      var path;
      path, emitted := WalkTree(parent, tokens, preds);
      hide NodePreds, TreeWalk.Walk, Valid;
      VerifyColumns(i, parent, tokens);
      AdoptPath(i, path, |parent|);
    }

    /** Compact the path's rows to consecutive positions and adopt its leaf's checkpoint. */
    method AdoptPath(i: nat, path: seq<nat>, width: nat)
      requires Valid() && i < Lead(lanes) && State().lanes[i].pos + |path| <= cfg.kvStride && path != []
      requires width <= cfg.checkpoints + 1
      requires forall k :: 0 <= k < |path| ==> path[k] < width && State().lanes[i].pos + path[k] < cfg.kvStride
      modifies this`dev
      ensures Valid()
      ensures var l := State().lanes[i]; dev == Adopt(old(dev), l.phys, l.pos, path, width, VerifyCell(cfg))
    {
      var l := lanes[i].value;
      var leaf := path[|path| - 1];
      CompactKv(i, path);
      if leaf != width - 1 {
        CopyGdnSlot(VerifyCell(cfg) + leaf, l.phys);
      }
    }

    /** Greedy tree step. */
    method Df2TreeStep(i: nat, parent: seq<int>, nodes: seq<Token>) returns (done: bool)
      requires Valid() && i < Lead(lanes) && IsTree(parent) && |nodes| + 1 == |parent| <= cfg.checkpoints + 1
      requires State().lanes[i].pos + |parent| <= cfg.kvStride
      modifies this`lanes, this`slots, this`dev
      ensures Valid()
      ensures var l := old(State()).lanes[i];
              var r := TreeStep(net, cfg, old(dev), l, old(slots)[l.phys].cache, parent, nodes);
              done == r.stream.finished && State() == ApplyServed(old(State()), i, r, true)
    {
      var l := lanes[i].value;
      hide Verify, Adopt, NodePreds, TreeWalk.Walk, Commit, Valid, ApplyServed, IsTree;
      var emitted := TreeForward(i, parent, [l.last] + nodes);
      var nacc := |emitted| - 1;
      done := CommitUnmasked(i, emitted[..nacc], emitted[nacc]);
    }

    // ---------------------------------------------------------------- the packed step

    /** Bookkeeping of a tree or packed step: the emit loop and the record, but no schema machine. */
    method CommitUnmasked(i: nat, path: seq<Token>, bonus: Token) returns (done: bool)
      requires Valid() && i < Lead(lanes)
      modifies this`lanes, this`slots
      ensures Valid()
      ensures var l := old(State()).lanes[i];
              var s := Commit(cfg.eos, Unmasked(l.req), View(l, old(slots)[l.phys].cache, false), path, bonus);
              done == s.finished && State() == ApplyServed(old(State()), i, Served(s, PosAfter(l, s, |path|), dev), true)
    {
      var l := lanes[i].value;
      var s := BookUnmasked(cfg.eos, l, slots[l.phys].cache, path, bonus);
      hide Commit, Valid;
      done := s.finished;
      WriteBack(i, s, PosAfter(l, s, |path|), true);
    }

    /** How much of a pack's drafts the verify agreed with, and the token after that. */
    method PackAccept(d: Dev, packs: seq<Forest.Pack>, k: nat) returns (nacc: nat, bonus: Token)
      requires k < |packs| && forall q :: 0 <= q < |packs| ==> InPlane(d, packs[q].l.phys, packs[q].l.pos)
      ensures nacc == AcceptedOf(net, d, packs)[k] && bonus == Forest.ForestPreds(net, d, packs[k])[nacc]
    {
      var preds := Forest.ForestPreds(net, d, packs[k]);
      nacc := AcceptPrefix(preds, packs[k].drafts, |packs[k].drafts|);
      bonus := preds[nacc];
    }

    /** The slots' cells and the verify band are all there. */
    lemma CellsThere()
      requires Valid()
      ensures VerifyCell(cfg) + cfg.checkpoints <= |dev.cells| && cfg.maxBatch <= |dev.cells|
    {
    }

    /** Accept a pack's agreed prefix and wind its lane back to the last accepted column. */
    method PackForward(d: Dev, packs: seq<Forest.Pack>, start: nat, k: nat) returns (nacc: nat, bonus: Token)
      requires Valid() && k < |packs| && forall q :: 0 <= q < |packs| ==> InPlane(d, packs[q].l.phys, packs[q].l.pos)
      requires start == Forest.StartOf(packs, k) && dev == PackedDev(net, cfg, d, packs, k)
      requires packs[k].l.phys < cfg.maxBatch && |d.cells| == |dev.cells|
      requires AcceptedOf(net, d, packs)[k] < |packs[k].drafts| ==> start + AcceptedOf(net, d, packs)[k] < cfg.checkpoints
      modifies this`dev
      ensures Valid() && nacc == AcceptedOf(net, d, packs)[k] && bonus == Forest.ForestPreds(net, d, packs[k])[nacc]
      ensures dev == PackedDev(net, cfg, d, packs, k + 1)
    {
      hide *;
      CellsThere();
      PackedDevNext(net, cfg, d, packs, k);
      nacc, bonus := PackAccept(d, packs, k);
      if nacc != |packs[k].drafts| {
        CopyGdnSlot(VerifyCell(cfg) + start + nacc, packs[k].l.phys);
      }
    }

    /** Pack k's roll-back and bookkeeping. */
    method PackLane(d: Dev, packs: seq<Forest.Pack>, i: nat, start: nat, k: nat) returns (done: bool)
      requires Valid() && k < |packs| && forall q :: 0 <= q < |packs| ==> InPlane(d, packs[q].l.phys, packs[q].l.pos)
      requires i < Lead(lanes) && start == Forest.StartOf(packs, k) && dev == PackedDev(net, cfg, d, packs, k)
      requires packs[k].l.phys < cfg.maxBatch && |d.cells| == |dev.cells|
      requires AcceptedOf(net, d, packs)[k] < |packs[k].drafts| ==> start + AcceptedOf(net, d, packs)[k] < cfg.checkpoints
      requires State().lanes[i] == packs[k].l && slots[packs[k].l.phys].cache == packs[k].cache
      modifies this`lanes, this`slots, this`dev
      ensures Valid()
      ensures var r := PackServed(net, cfg, d, packs, k, PackedDev(net, cfg, d, packs, k + 1));
              done == r.stream.finished && State() == ApplyServed(old(State()), i, r, true)
    {
      ghost var p := packs[k];
      assert Forest.ForestStream(net, cfg, d, p)
          == Commit(cfg.eos, Unmasked(p.l.req), View(p.l, p.cache, false), p.drafts[..AcceptedOf(net, d, packs)[k]],
                    Forest.ForestPreds(net, d, p)[AcceptedOf(net, d, packs)[k]]);
      hide PackedDev, Forest.ForestPreds, Commit, Forest.StartOf, Valid, AcceptedOf, Forest.ForestStream;
      var nacc, bonus := PackForward(d, packs, start, k);
      assert |p.drafts[..nacc]| == nacc;
      done := CommitUnmasked(i, packs[k].drafts[..nacc], bonus);
    }

    /** Pack k's turn in the pass, given that the packs before it are done. */
    method PackTurn(ghost st: Sched, inp: ForestIn, d: Dev, packs: seq<Forest.Pack>, i: nat, start: nat, k: nat)
      returns (done: bool)
      requires Valid() && PacksFit(cfg, st, inp) && d == st.dev && packs == PacksOf(cfg, st, inp) && k < |packs|
      requires i == Packed(st.lanes, inp)[k] && i < Lead(lanes) && start == Forest.StartOf(packs, k)
      requires State() == PackedFirst(net, cfg, st, inp, k).st
      requires State().lanes[i] == packs[k].l && slots[packs[k].l.phys].cache == packs[k].cache
      modifies this`lanes, this`slots, this`dev
      ensures Valid()
      ensures State() == PackedFirst(net, cfg, st, inp, k + 1).st
      ensures i < |PackedFirst(net, cfg, st, inp, k).over|
      ensures PackedFirst(net, cfg, st, inp, k + 1).over
           == PackedFirst(net, cfg, st, inp, k).over[i := done || packs[k].l.cancelled]
    {
      PackedNext(net, cfg, st, inp, k);
      PackBounds(net, cfg, st, inp, k);
      hide PackedFirst, PacksOf, Packed, PackedDev, AcceptedOf, Forest.StartOf, Valid, PackServed, ApplyServed, PacksFit;
      done := PackLane(d, packs, i, start, k);
    }

    /** One forward over every pack's columns. */
    method VerifyPacks(packs: seq<Forest.Pack>)
      requires Valid() && forall q :: 0 <= q < |packs| ==> InPlane(dev, packs[q].l.phys, packs[q].l.pos)
      modifies this`dev
      ensures Valid() && dev == Forest.ForestVerify(net, cfg, old(dev), packs)
    {
      dev := Forest.ForestVerify(net, cfg, dev, packs);
      hide Forest.ForestVerify, InPlane;
    }

    /** Settle the verified packs in order. */
    method SettlePacks(ghost st: Sched, inp: ForestIn, d: Dev, packs: seq<Forest.Pack>, order: seq<nat>) returns (over: seq<bool>)
      requires Valid() && Inv(net, cfg, st) && PacksFit(cfg, st, inp) && d == st.dev
      requires order == Packed(st.lanes, inp) && packs == PacksOf(cfg, st, inp)
      requires Progress(State(), Falses(|st.lanes|)) == PackedFirst(net, cfg, st, inp, 0) && Lead(lanes) == |st.lanes|
      modifies this`lanes, this`slots, this`dev
      ensures Valid()
      ensures Progress(State(), over) == PackedFirst(net, cfg, st, inp, |order|)
    {
      hide *;
      over := Falses(Lead(lanes));
      var start, k := 0, 0;
      StartsAtZero(packs);
      while k < |order|
        invariant k <= |order| && start == Forest.StartOf(packs, k) && Valid()
        invariant Progress(State(), over) == PackedFirst(net, cfg, st, inp, k)
      {
        PassWaits(net, cfg, st, inp, k);
        StartsNext(packs, k);
        WaitsHere(order[k], packs[k], over);
        var done := PackTurn(st, inp, d, packs, order[k], start, k);
        over := over[order[k] := done || packs[k].l.cancelled];
        start := start + |packs[k].drafts| + 1;
        k := k + 1;
      }
    }

    lemma WaitsHere(i: nat, p: Forest.Pack, over: seq<bool>)
      requires Valid() && Waits(Progress(State(), over), i, p)
      ensures i < Lead(lanes) && i < |over| && State().lanes[i] == p.l
      ensures p.l.phys < |slots| && slots[p.l.phys].cache == p.cache
    {
    }

    /** Two or more greedy trusted lanes verified in one forward, then settled pack by pack. */
    method MtpForestStep(inp: ForestIn) returns (over: seq<bool>)
      requires Valid() && Inv(net, cfg, State()) && PacksFit(cfg, State(), inp)
      modifies this`lanes, this`slots, this`dev
      ensures Valid()
      ensures Progress(State(), over) == PackedPass(net, cfg, old(State()), inp)
    {
      hide Packed, PacksOf, PacksFit, PackedFirst, Inv, Valid, Forest.ForestVerify;
      ghost var st := State();
      var d, order, packs := dev, Packed(Unpack(lanes), inp), PacksOf(cfg, State(), inp);
      if |order| == 0 {
        over := Falses(|Unpack(lanes)|);
      } else {
        PassStarts(net, cfg, st, inp);
        VerifyPacks(packs);
        over := SettlePacks(st, inp, d, packs, order);
      }
    }

    // ---------------------------------------------------------------- the batched step

    /** Lane `k`'s column of the shared forward. */
    method ForwardLane(ghost st: Sched, inp: StepIn, k: nat) returns (t: Token)
      requires Valid() && k < Lead(lanes) == |st.lanes| && DecodeOk(cfg, st, inp) && !Speculates(st, inp)
      requires State() == st.(dev := ServeFirst(net, cfg, st, inp, k).st.dev)
      modifies this`dev
      ensures State() == st.(dev := ServeFirst(net, cfg, st, inp, k + 1).st.dev)
      ensures t == BatchToken(net, cfg, st, inp, k)
      ensures Valid()
    {
      hide ServeFirst, DecodeOk, Speculates, PlainToken, Consume, BatchToken;
      var l := lanes[k].value;
      ForwardIs(net, cfg, st, inp, k);
      dev := Consume(net, dev, l.phys, l.pos, [l.last]);
      t := PlainToken(net, dev, l, inp.draws(k));
    }

    /** One shared forward: every lane consumes its last token and gets its next one. */
    method BatchedDecode(inp: StepIn) returns (toks: seq<Token>)
      requires Valid() && DecodeOk(cfg, State(), inp) && !Speculates(State(), inp)
      modifies this`dev
      ensures |toks| == Lead(lanes)
      ensures forall k :: 0 <= k < |toks| ==> toks[k] == BatchToken(net, cfg, old(State()), inp, k)
      ensures State() == old(State()).(dev := ServeFirst(net, cfg, old(State()), inp, Lead(lanes)).st.dev)
      ensures Valid()
    {
      hide DecodeOk, ServeFirst, BatchToken, Speculates, Valid, Unpack, Lead, ShapeOk, CursorShape, Packs;
      ghost var st := State();
      toks := [];
      var b := NumActive();
      var k := 0;
      ServeNone(net, cfg, st, inp);
      while k < b
        invariant 0 <= k <= b == Lead(lanes) && |toks| == k && Valid()
        invariant State() == st.(dev := ServeFirst(net, cfg, st, inp, k).st.dev)
        invariant forall j :: 0 <= j < k ==> toks[j] == BatchToken(net, cfg, st, inp, j)
      {
        var t := ForwardLane(st, inp, k);
        toks := toks + [t];
        k := k + 1;
      }
    }

    /** Bookkeeping of one batched token; the cache records the token that was fed. */
    method TakeToken(i: nat, t: Token) returns (done: bool)
      requires Valid() && i < Lead(lanes)
      modifies this`lanes, this`slots
      ensures Valid() && Lead(lanes) == old(Lead(lanes))
      ensures var l := old(State()).lanes[i];
              var s := Take(cfg.eos, l.req, View(l, old(slots)[l.phys].cache, false), t);
              done == s.finished && State() == ApplyServed(old(State()), i, Served(s, l.pos + 1, dev), false)
    {
      var l := lanes[i].value;
      var history := l.history + [t];
      if |history| > HISTORY_CAP {
        history := history[HISTORY_DRAIN..];
      }
      var schemaState, schemaDone := AdvanceSchema(l.req, l.schemaState, [t]);
      var g := l.generated + 1;
      done := EosHit(cfg.eos, l.req, g, t) || g >= l.req.maxNew || schemaDone;
      WriteBack(i, Stream(slots[l.phys].cache + [l.last], t, g, history, schemaState, l.sent + [t], done), l.pos + 1, false);
    }

    /** Book lane `k`'s token, given that the lanes before it are booked. */
    method BookLane(ghost st: Sched, inp: StepIn, k: nat, t: Token) returns (done: bool)
      requires Valid() && k < Lead(lanes) && DecodeOk(cfg, st, inp) && !Speculates(st, inp) && |st.lanes| == Lead(lanes)
      requires State() == ServeFirst(net, cfg, st, inp, k).st.(dev := dev) && t == BatchToken(net, cfg, st, inp, k)
      modifies this`lanes, this`slots
      ensures Valid() && Lead(lanes) == |st.lanes|
      ensures State() == ServeFirst(net, cfg, st, inp, k + 1).st.(dev := dev)
      ensures ServeFirst(net, cfg, st, inp, k + 1).over == ServeFirst(net, cfg, st, inp, k).over + [done || st.lanes[k].cancelled]
    {
      hide DecodeOk, ServeFirst, BatchToken, Speculates, Valid, Unpack, Lead, Take, ApplyServed;
      ghost var before := State();
      BatchInRange(net, cfg, st, inp, k);
      done := TakeToken(k, t);
      BatchLater(net, cfg, st, inp, k, dev, before, State(), done);
    }

    /** Serve every lane one token: the shared forward, then each lane's bookkeeping. */
    method BatchedStep(inp: StepIn, over0: seq<bool>) returns (over: seq<bool>)
      requires Valid() && DecodeOk(cfg, State(), inp) && !Speculates(State(), inp)
      requires |over0| == Lead(lanes) && forall i :: 0 <= i < |over0| ==> over0[i] == State().lanes[i].cancelled
      modifies this`lanes, this`slots, this`dev
      ensures Valid()
      ensures Progress(State(), over) == ServeFirst(net, cfg, old(State()), inp, |old(State()).lanes|)
    {
      hide DecodeOk, ServeFirst, BatchToken, Speculates, Valid, Unpack, Lead, ShapeOk, CursorShape, Packs;
      ghost var st := State();
      ServeNone(net, cfg, st, inp);
      assert [] + over0[0..] == over0;
      var toks := BatchedDecode(inp);
      over := over0;
      var b := NumActive();
      var k := 0;
      while k < b
        invariant 0 <= k <= b == |st.lanes| == Lead(lanes) == |over| && Valid()
        invariant dev == ServeFirst(net, cfg, st, inp, b).st.dev
        invariant State() == ServeFirst(net, cfg, st, inp, k).st.(dev := dev)
        invariant over == ServeFirst(net, cfg, st, inp, k).over + over0[k..]
      {
        var done := BookLane(st, inp, k, toks[k]);
        OverNext(ServeFirst(net, cfg, st, inp, k).over, over0, k, done);
        over := over[k := over[k] || done];
        k := k + 1;
      }
    }

    /** Mark a lane whose client went away; the next step ends it. */
    method CancelLane(i: nat)
      requires Valid() && i < Lead(lanes)
      modifies this`lanes
      ensures State() == Scheduler.Cancel(old(State()), i)
      ensures Valid()
    {
      ghost var st := State();
      lanes := lanes[i := Some(lanes[i].value.(cancelled := true))];
      PacksUnpack(lanes, st.lanes[i := st.lanes[i].(cancelled := true)]);
    }

    // ---------------------------------------------------------------- the step

    /** Lanes whose client is gone are over after this step. */
    method CancelSweep(b: nat) returns (over: seq<bool>)
      requires Valid() && b == Lead(lanes)
      ensures |over| == b && forall i :: 0 <= i < b ==> over[i] == State().lanes[i].cancelled
    {
      over := [];
      while |over| < b
        invariant |over| <= b && forall i :: 0 <= i < |over| ==> over[i] == State().lanes[i].cancelled
      {
        over := over + [lanes[|over|].value.cancelled];
      }
    }

    /** A trusted lane takes one speculative step of its own. */
    method SpeculateStep(i: nat, draft: Draft) returns (done: bool)
      requires Valid() && i < Lead(lanes) && LaneFits(cfg, State().lanes[i], true, draft)
      modifies this`lanes, this`slots, this`dev
      ensures Valid()
      ensures var l := old(State()).lanes[i];
              var r := SpecStep(net, cfg, old(dev), l, old(slots)[l.phys].cache, draft);
              done == r.stream.finished && State() == ApplyServed(old(State()), i, r, true)
    {
      hide ChainStep, SampledStep, TreeStep, ApplyServed;
      match draft {
        case ChainDraft(drafts, accepted, tail) =>
          if lanes[i].value.req.greedy {
            done := MtpLaneStep(i, drafts);
          } else {
            done := MtpLaneStepSample(i, drafts, accepted, tail);
          }
        case TreeDraft(parent, nodes) =>
          done := Df2TreeStep(i, parent, nodes);
      }
    }

    /** A batched lane's column of the shared forward and its bookkeeping; as `BatchLater` shows for
        a whole batch, it does not matter that other lanes' columns run in between. */
    method PlainLaneStep(i: nat, draw: Token) returns (done: bool)
      requires Valid() && i < Lead(lanes) && State().lanes[i].pos + 1 <= cfg.kvStride
      modifies this`lanes, this`slots, this`dev
      ensures Valid()
      ensures var l := old(State()).lanes[i];
              var r := PlainStep(net, cfg, old(dev), l, old(slots)[l.phys].cache, draw);
              done == r.stream.finished && State() == ApplyServed(old(State()), i, r, false)
    {
      hide PlainToken, Consume, Take;
      var l := lanes[i].value;
      dev := Consume(net, dev, l.phys, l.pos, [l.last]);
      var t := PlainToken(net, dev, l, draw);
      done := TakeToken(i, t);
    }

    /** Serve lane i by itself, in whatever role it has. */
    method ServeLane(inp: ForestIn, i: nat, over: seq<bool>) returns (over': seq<bool>)
      requires Valid() && |over| == Lead(lanes) && FitsAt(cfg, State(), inp, i)
      modifies this`lanes, this`slots, this`dev
      ensures Valid()
      ensures Progress(State(), over') == ServeAt(net, cfg, Progress(old(State()), over), inp, i)
    {
      var l := lanes[i].value;
      var done;
      hide SpecStep, PlainStep, ApplyServed, Valid;
      if UsesMtp(l, inp.active) {
        done := SpeculateStep(i, inp.drafts(i));
      } else {
        done := PlainLaneStep(i, inp.draws(i));
      }
      over' := over[i := done || l.cancelled];
    }

    /** Serve the lanes the packed pass left over, in order. */
    method ServeSingles(inp: ForestIn, order: seq<nat>, over0: seq<bool>) returns (over: seq<bool>)
      requires Valid() && EachFits(cfg, Progress(State(), over0), inp, order)
      requires forall k :: 0 <= k < |order| ==> order[k] < |over0| && !over0[order[k]]
      modifies this`lanes, this`slots, this`dev
      ensures Valid()
      ensures Progress(State(), over) == ServeEach(net, cfg, Progress(old(State()), over0), inp, order, |order|)
    {
      hide *;
      ghost var p := Progress(State(), over0);
      over := over0;
      var k := 0;
      EachNone(net, cfg, p, inp, order);
      while k < |order|
        invariant k <= |order| && Valid() && Progress(State(), over) == ServeEach(net, cfg, p, inp, order, k)
      {
        ghost var q := EachUnroll(net, cfg, p, inp, order, k + 1);
        OverSized(over);
        over := ServeLane(inp, order[k], over);
        k := k + 1;
      }
    }

    lemma OverSized(over: seq<bool>)
      requires Valid() && |over| == |Progress(State(), over).st.lanes|
      ensures |over| == Lead(lanes)
    {
    }

    /** The packed pass, and then every lane it left over. */
    method ServePacked(inp: ForestIn) returns (over: seq<bool>)
      requires Valid() && Inv(net, cfg, State()) && ForestOk(cfg, State(), inp)
      modifies this`lanes, this`slots, this`dev
      ensures Valid() && |over| == Lead(lanes)
      ensures SchedRuns.PackedInBounds(net, cfg, old(State()), inp)
      ensures var order := Singles(old(State()).lanes, inp);
              Progress(State(), over) == ServeEach(net, cfg, PackedPass(net, cfg, old(State()), inp), inp, order, |order|)
    {
      hide Packed, Singles, PacksFit, PackedPass, ServeEach, EachFits, Inv, Valid, FitsAt;
      ghost var st := State();
      var order := Singles(Unpack(lanes), inp);
      SinglesFit(net, cfg, st, inp);
      PassSizes(net, cfg, st, inp);
      over := MtpForestStep(inp);
      over := ServeSingles(inp, order, over);
      OverSized(over);
    }

    /** A whole step with packed lanes. */
    method DecodePacked(inp: ForestIn)
      requires Valid() && Inv(net, cfg, State()) && ForestOk(cfg, State(), inp)
      modifies this
      ensures SchedRuns.PackedInBounds(net, cfg, old(State()), inp)
      ensures State() == ForestStep(net, cfg, old(State()), inp)
      ensures Valid()
    {
      hide Packed, Singles, PacksFit, PackedPass, ServeEach, EachFits, Inv, Valid, FitsAt, ForestOk, Compacted, Lead;
      var over := ServePacked(inp);
      Compaction(over);
    }

    /** Keep the lanes that go on packed at the front, in order; free the slots of the rest. */
    method Compaction(over: seq<bool>)
      requires Valid() && |over| == Lead(lanes)
      modifies this`lanes, this`free, this`outcomes
      ensures State() == Compacted(old(State()), over)
      ensures Valid()
    {
      ghost var st := State();
      ghost var ls := st.lanes;
      var b := |over|;
      var write, i := 0, 0;
      hide Kept, Ended, PhysOf, OutcomesOf, OutcomeOf, MidCompaction;
      CompactionStarts(lanes, ls, over);
      while i < b
        invariant 0 <= write <= i <= b == |ls| && |lanes| == cfg.maxBatch && MidCompaction(lanes, ls, over, i, write)
        invariant free == st.free + PhysOf(Ended(ls[..i], over[..i]))
        invariant outcomes == st.outcomes + OutcomesOf(Ended(ls[..i], over[..i]))
      {
        KeptNext(ls, over, i);
        CompactionNext(lanes, ls, over, i, write);
        var lane := lanes[i].value;
        lanes := lanes[i := None];
        if over[i] {
          free := free + [lane.phys];
          outcomes := outcomes + [OutcomeOf(lane)];
        } else {
          lanes := lanes[write := Some(lane)];
          write := write + 1;
        }
        i := i + 1;
      }
      CompactionDone(lanes, ls, over, write);
      CompactedFits(cfg, st, over);
      PacksUnpack(lanes, Kept(ls, over));
    }

    method DecodeStep(inp: StepIn)
      requires Valid() && DecodeOk(cfg, State(), inp)
      modifies this
      ensures State() == Scheduler.DecodeStep(net, cfg, old(State()), inp)
      ensures Valid()
    {
      ghost var st := State();
      var b := NumActive();
      var over := CancelSweep(b);
      if b == 1 && UsesMtp(lanes[0].value, inp.active) {
        ServeOne(net, cfg, st, inp);
        hide SpecStep, LaneFits, LegalDraft;
        var done := SpeculateStep(0, inp.draft);
        over := [over[0] || done];
      } else {
        hide ServeFirst, LaneFits;
        over := BatchedStep(inp, over);
      }
      hide ServeFirst, Speculates, LaneFits, UsesMtp, Serve;
      Compaction(over);
    }

    /** Either form of decode step. */
    method DecodeWith(d: SchedRuns.Decoding)
      requires Valid() && SchedRuns.Sound(net, cfg, State()) && SchedRuns.Enabled(cfg, State(), SchedRuns.DecodeEvent(d))
      modifies this
      ensures SchedRuns.InBounds(net, cfg, old(State()), SchedRuns.DecodeEvent(d))
      ensures Valid() && State() == SchedRuns.Next(net, cfg, old(State()), SchedRuns.DecodeEvent(d))
    {
      hide *;
      SchedRuns.SoundInBounds(net, cfg, State(), SchedRuns.DecodeEvent(d));
      SchedRuns.DecodeParts(net, cfg, State(), d);
      match d {
        case Together(inp) => DecodeStep(inp);
        case Packing(packs) => DecodePacked(packs);
      }
    }

    /** Admit arrivals in order while the gate is open. */
    method AdmitQueued(queue: seq<Arrival>, active: bool) returns (rest: seq<Arrival>)
      requires Valid() && SchedRuns.Sound(net, cfg, State())
      modifies this
      ensures Valid() && SchedRuns.Sound(net, cfg, State())
      ensures (State(), rest) == SchedRuns.Drained(net, cfg, old(State()), queue, active)
    {
      hide SchedRuns.Sound, SchedRuns.InBounds, ShapeOk, CursorShape, Packs, Unpack, Lead, Scheduler.Admit;
      ghost var goal := SchedRuns.Drained(net, cfg, State(), queue, active);
      rest := queue;
      var b := NumActive();
      while pf.None? && b < cfg.maxBatch && rest != []
        invariant Valid() && SchedRuns.Sound(net, cfg, State()) && b == |State().lanes|
        invariant SchedRuns.Drained(net, cfg, State(), rest, active) == goal
        decreases |rest|
      {
        SchedRuns.ArriveSound(net, cfg, State(), rest[0], active);
        Admit(rest[0], active);
        rest := rest[1..];
        b := NumActive();
      }
    }

    /** Advance the cursor by one window, then decode the lanes there are. */
    method Work(decode: Sched -> SchedRuns.Decoding)
      requires Valid() && SchedRuns.Sound(net, cfg, State())
      requires forall s :: SchedRuns.Enabled(cfg, s, SchedRuns.DecodeEvent(decode(s)))
      modifies this
      ensures Valid() && State() == SchedRuns.Worked(net, cfg, old(State()), decode)
    {
      hide SchedRuns.Sound, SchedRuns.InBounds, ShapeOk, CursorShape, Packs, Unpack, Lead, Scheduler.PfAdvance;
      SoundGate(net, cfg, State());
      SchedRuns.NextSound(net, cfg, State(), SchedRuns.Window);
      PfAdvance();
      var b := NumActive();
      if b > 0 {
        DecodeWith(decode(State()));
      }
    }

    /** One turn of the serve loop: drain the queue, wait for `late` when idle, then work. */
    method Iterate(queue: seq<Arrival>, late: Option<Arrival>, active: bool, decode: Sched -> SchedRuns.Decoding)
      returns (rest: seq<Arrival>, ended: bool)
      requires Valid() && SchedRuns.Sound(net, cfg, State()) && 0 < cfg.maxBatch
      requires forall s :: SchedRuns.Enabled(cfg, s, SchedRuns.DecodeEvent(decode(s)))
      modifies this
      ensures Valid() && SchedRuns.Sound(net, cfg, State())
      ensures SchedRuns.Turn(State(), rest, ended)
           == SchedRuns.ServeTurn(net, cfg, old(State()), queue, late, active, decode)
    {
      ended := false;
      rest := AdmitQueued(queue, active);
      hide SchedRuns.Sound, SchedRuns.InBounds, ShapeOk, CursorShape, Packs, Unpack, Lead, Scheduler.Admit;
      var b := NumActive();
      if b == 0 && pf.None? {
        if late.None? {
          ended := true;
          return;
        }
        SchedRuns.ArriveSound(net, cfg, State(), late.value, active);
        Admit(late.value, active);
      }
      Work(decode);
    }
  }
}
