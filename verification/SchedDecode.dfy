// A decode step with compaction keeps the scheduler's invariant.

module SchedDecode {
  import opened Wrappers
  import opened Trunk
  import opened Device
  import opened GreedyLane
  import opened Slots
  import opened LaneSteps
  import opened Scheduler
  import opened SchedInvariant
  import opened SchedAdmit
  import Penalty

  // ------------------------------------------------------------------ one lane

  /** A lane that goes on advanced as many positions as it sent tokens, inside its budget. */
  ghost predicate Counts(l: Lane, r: Served) {
    !r.stream.finished ==>
      && r.stream.generated + l.pos == l.generated + r.pos
      && r.stream.generated < l.req.maxNew
  }

  lemma CommitCounts(eos: set<Token>, req: Request, s: Stream, path: seq<Token>, bonus: Token)
    ensures var c := Commit(eos, req, s, path, bonus);
            !c.finished ==> c.generated == s.generated + |path| + 1 && c.generated < req.maxNew
  {
    if s.generated < req.maxNew {
      EmitIsCut(eos, req, s.generated, path, bonus);
      CutStops(eos, req, s.generated, path + [bonus]);
    }
  }

  lemma ChainCounts(net: Network, cfg: Config, d: Dev, l: Lane, cache: seq<Token>, drafts: seq<Token>)
    requires |drafts| <= cfg.checkpoints && Fits(d, cfg, l.phys, l.pos, |drafts| + 1)
    ensures Counts(l, ChainStep(net, cfg, d, l, cache, drafts))
  {
    var preds := ChainPreds(net, MemAt(d, l.phys, l.pos), l, drafts);
    var nacc := Min(AcceptLen(preds, drafts), ValidLen(l.req, l.schemaState, drafts));
    hide Commit, ChainPreds, ChainDevice, AcceptLen, ValidLen;
    CommitCounts(cfg.eos, l.req, View(l, cache, false), drafts[..nacc], preds[nacc]);
  }

  lemma SampledCounts(net: Network, cfg: Config, d: Dev, l: Lane, cache: seq<Token>, drafts: seq<Token>, accepted: nat, tail: Token)
    requires |drafts| <= cfg.checkpoints && accepted <= |drafts| && Fits(d, cfg, l.phys, l.pos, |drafts| + 1)
    ensures Counts(l, SampledStep(net, cfg, d, l, cache, drafts, accepted, tail))
  {
    hide ChainDevice, RememberAll, Cut;
    CutStops(cfg.eos, l.req, l.generated, drafts[..accepted] + [tail]);
  }

  lemma TreeCounts(net: Network, cfg: Config, d: Dev, l: Lane, cache: seq<Token>, parent: seq<int>, nodes: seq<Token>)
    requires IsTree(parent) && |nodes| + 1 == |parent| <= cfg.checkpoints + 1
    requires Fits(d, cfg, l.phys, l.pos, |parent|)
    ensures Counts(l, TreeStep(net, cfg, d, l, cache, parent, nodes))
  {
    var tokens := [l.last] + nodes;
    var preds := NodePreds(net, MemAt(d, l.phys, l.pos), l, parent, tokens);
    hide Commit, NodePreds, Verify, Adopt, TreeWalk.Walk, IsTree;
    var path := TreeWalk.Walk(parent, tokens, preds, 0);
    var emitted := TreeWalk.PredsAlong(preds, path);
    CommitCounts(cfg.eos, Unmasked(l.req), View(l, cache, false), emitted[..|path| - 1], emitted[|path| - 1]);
  }

  lemma ServeCounts(net: Network, cfg: Config, d: Dev, l: Lane, cache: seq<Token>, spec: bool, draft: Draft, draw: Token)
    requires spec ==> LegalDraft(cfg, l.req, draft)
    requires Fits(d, cfg, l.phys, l.pos, Rows(spec))
    ensures Counts(l, Serve(net, cfg, d, l, cache, spec, draft, draw))
  {
    hide ChainStep, SampledStep, TreeStep;
    if spec {
      match draft
      case ChainDraft(drafts, accepted, tail) =>
        if l.req.greedy {
          ChainCounts(net, cfg, d, l, cache, drafts);
        } else {
          SampledCounts(net, cfg, d, l, cache, drafts, accepted, tail);
        }
      case TreeDraft(parent, nodes) =>
        TreeCounts(net, cfg, d, l, cache, parent, nodes);
    }
  }

  lemma ServeOk(net: Network, cfg: Config, d: Dev, l: Lane, cache: seq<Token>, spec: bool, draft: Draft, draw: Token)
    requires spec ==> LegalDraft(cfg, l.req, draft)
    requires Ready(net, cfg, d, l, cache, Rows(spec))
    ensures ServedOk(net, cfg, d, l, cache, Serve(net, cfg, d, l, cache, spec, draft, draw))
  {
    hide ServedOk, ChainStep, SampledStep, TreeStep, PlainStep;
    if spec {
      match draft
      case ChainDraft(drafts, accepted, tail) =>
        if l.req.greedy {
          ChainStepOk(net, cfg, d, l, cache, drafts);
        } else {
          SampledStepOk(net, cfg, d, l, cache, drafts, accepted, tail);
        }
      case TreeDraft(parent, nodes) =>
        TreeStepOk(net, cfg, d, l, cache, parent, nodes);
    } else {
      PlainStepOk(net, cfg, d, l, cache, draw);
    }
  }

  lemma LaneReady(net: Network, cfg: Config, st: Sched, l: Lane, spec: bool)
    requires ShapeOk(cfg, st) && l.phys < cfg.maxBatch
    requires LaneOk(net, cfg, st.dev, l, st.slots[l.phys].cache) && (spec ==> l.primed)
    ensures Ready(net, cfg, st.dev, l, st.slots[l.phys].cache, Rows(spec))
  {
  }

  // ------------------------------------------------------------------ one lane inside the scheduler

  /** The lanes that are not over still stand exactly after their caches. */
  ghost predicate StandingOk(net: Network, cfg: Config, p: Progress)
    requires ShapeOk(cfg, p.st)
  {
    && |p.over| <= |p.st.lanes|
    && forall i :: 0 <= i < |p.st.lanes| && (i < |p.over| ==> !p.over[i]) ==>
         LaneOk(net, cfg, p.st.dev, p.st.lanes[i], p.st.slots[p.st.lanes[i].phys].cache)
  }

  /** What holds while a decode step works its way through the lanes. */
  ghost predicate MidStep(net: Network, cfg: Config, p: Progress) {
    && GridMode(cfg) && ShapeOk(cfg, p.st) && CursorShape(cfg, p.st) && Owned(cfg, p.st)
    && SlotsOk(net, cfg, p.st) && StandingOk(net, cfg, p)
    && (p.st.pf.Some? ==> CursorOk(net, cfg, p.st.dev, p.st.pf.value))
  }

  lemma ServedSlots(net: Network, cfg: Config, st: Sched, k: nat, r: Served, spec: bool)
    requires ShapeOk(cfg, st) && CursorShape(cfg, st) && Owned(cfg, st) && SlotsOk(net, cfg, st) && k < |st.lanes|
    requires ServedOk(net, cfg, st.dev, st.lanes[k], st.slots[st.lanes[k].phys].cache, r)
    ensures ShapeOk(cfg, ApplyServed(st, k, r, spec)) && SlotsOk(net, cfg, ApplyServed(st, k, r, spec))
  {
    var l, st' := st.lanes[k], ApplyServed(st, k, r, spec);
    LaneAlone(cfg, st, k);
    hide Fold, Owned, Update;
    forall q | 0 <= q < cfg.maxBatch ensures SlotOk(net, cfg, st'.dev, q, st'.slots[q], Agreed(st', q)) {
      assert SlotOk(net, cfg, st.dev, q, st.slots[q], Agreed(st, q));
      hide SlotOk, Live;
      forall j | 0 <= j < RING_K && cfg.prefixCache
        ensures st'.dev.cells[RingCell(cfg, q, j)] == st.dev.cells[RingCell(cfg, q, j)]
      {
        RingCellBounds(cfg, q, j);
      }
      if q == l.phys {
        assert st.slots[q].cache <= r.stream.cache;
        SlotExtends(net, cfg, st.dev, r.dev, q, st.slots[q], st.slots[q].cache, r.stream.cache);
        SameRing(net, cfg, r.dev, q, st.slots[q], st'.slots[q], r.stream.cache);
      } else {
        SlotFrame(net, cfg, st.dev, st'.dev, q, st.slots[q], Agreed(st, q));
      }
    }
  }

  lemma ServedLane(net: Network, cfg: Config, d: Dev, l: Lane, cache: seq<Token>, r: Served, spec: bool)
    requires LaneOk(net, cfg, d, l, cache) && ServedOk(net, cfg, d, l, cache, r) && Counts(l, r)
    ensures !r.stream.finished ==>
              LaneOk(net, cfg, r.dev, Update(l, r.stream, r.pos).(stale := l.stale || !spec), r.stream.cache)
  {
    hide Live;
  }

  lemma OthersStand(net: Network, cfg: Config, st: Sched, k: nat, r: Served, spec: bool, i: nat)
    requires ShapeOk(cfg, st) && Owned(cfg, st) && k < |st.lanes| && i < |st.lanes| && i != k
    requires ServedOk(net, cfg, st.dev, st.lanes[k], st.slots[st.lanes[k].phys].cache, r)
    requires ShapeOk(cfg, ApplyServed(st, k, r, spec))
    requires LaneOk(net, cfg, st.dev, st.lanes[i], st.slots[st.lanes[i].phys].cache)
    ensures var st' := ApplyServed(st, k, r, spec);
            LaneOk(net, cfg, st'.dev, st'.lanes[i], st'.slots[st'.lanes[i].phys].cache)
  {
    LanesApart(cfg, st, i, k);
    hide Owned, Update, Live, Fold;
    LaneFrame(net, cfg, st.dev, r.dev, st.lanes[i], st.slots[st.lanes[i].phys].cache);
  }

  lemma ServedOwners(cfg: Config, st: Sched, k: nat, r: Served, spec: bool)
    requires ShapeOk(cfg, st) && k < |st.lanes| && Owned(cfg, st)
    ensures Owned(cfg, ApplyServed(st, k, r, spec))
  {
    assert PhysOf(ApplyServed(st, k, r, spec).lanes) == PhysOf(st.lanes);
  }

  lemma ServedCursor(net: Network, cfg: Config, st: Sched, k: nat, r: Served)
    requires ShapeOk(cfg, st) && Owned(cfg, st) && k < |st.lanes| && st.pf.Some?
    requires ServedOk(net, cfg, st.dev, st.lanes[k], st.slots[st.lanes[k].phys].cache, r)
    requires CursorOk(net, cfg, st.dev, st.pf.value)
    ensures CursorOk(net, cfg, r.dev, st.pf.value)
  {
    LaneAlone(cfg, st, k);
    hide Owned, Fold;
  }

  /** The lane served next, as the served-lane lemmas see it. */
  lemma NextServed(net: Network, cfg: Config, p: Progress, inp: StepIn, spec: bool, k: nat) returns (r: Served)
    requires MidStep(net, cfg, p) && |p.over| == k < |p.st.lanes| && (spec ==> p.st.lanes[k].primed)
    requires spec ==> LegalDraft(cfg, p.st.lanes[k].req, inp.draft)
    ensures var l := p.st.lanes[k];
            && l.pos + Rows(spec) <= cfg.kvStride
            && LaneOk(net, cfg, p.st.dev, l, p.st.slots[l.phys].cache)
            && r == Serve(net, cfg, p.st.dev, l, p.st.slots[l.phys].cache, spec, inp.draft, inp.draws(k))
            && ServedOk(net, cfg, p.st.dev, l, p.st.slots[l.phys].cache, r) && Counts(l, r)
  {
    var l := p.st.lanes[k];
    var cache := p.st.slots[l.phys].cache;
    assert LaneOk(net, cfg, p.st.dev, l, cache);
    hide MidStep, LegalDraft, Serve, Counts, ServedOk;
    LaneReady(net, cfg, p.st, l, spec);
    ServeOk(net, cfg, p.st.dev, l, cache, spec, inp.draft, inp.draws(k));
    ServeCounts(net, cfg, p.st.dev, l, cache, spec, inp.draft, inp.draws(k));
    r := Serve(net, cfg, p.st.dev, l, cache, spec, inp.draft, inp.draws(k));
  }

  lemma NextStands(net: Network, cfg: Config, p: Progress, k: nat, r: Served, spec: bool)
    requires ShapeOk(cfg, p.st) && Owned(cfg, p.st) && StandingOk(net, cfg, p) && |p.over| == k < |p.st.lanes|
    requires ServedOk(net, cfg, p.st.dev, p.st.lanes[k], p.st.slots[p.st.lanes[k].phys].cache, r) && Counts(p.st.lanes[k], r)
    requires ShapeOk(cfg, ApplyServed(p.st, k, r, spec))
    ensures StandingOk(net, cfg, Progress(ApplyServed(p.st, k, r, spec), p.over + [r.stream.finished || p.st.lanes[k].cancelled]))
  {
    var p' := Progress(ApplyServed(p.st, k, r, spec), p.over + [r.stream.finished || p.st.lanes[k].cancelled]);
    hide Owned, ServedOk, Counts, LaneOk;
    forall i | 0 <= i < |p'.st.lanes| && (i < |p'.over| ==> !p'.over[i])
      ensures LaneOk(net, cfg, p'.st.dev, p'.st.lanes[i], p'.st.slots[p'.st.lanes[i].phys].cache)
    {
      if i != k {
        OthersStand(net, cfg, p.st, k, r, spec, i);
      } else {
        ServedLane(net, cfg, p.st.dev, p.st.lanes[k], p.st.slots[p.st.lanes[k].phys].cache, r, spec);
      }
    }
  }

  lemma ServeNextKeeps(net: Network, cfg: Config, p: Progress, inp: StepIn, spec: bool, k: nat)
    requires MidStep(net, cfg, p) && |p.over| == k < |p.st.lanes| && (spec ==> p.st.lanes[k].primed)
    requires spec ==> LegalDraft(cfg, p.st.lanes[k].req, inp.draft)
    ensures LaneFits(cfg, p.st.lanes[k], spec, inp.draft)
    ensures MidStep(net, cfg, ServeNext(net, cfg, p, inp, spec, k))
  {
    var r := NextServed(net, cfg, p, inp, spec, k);
    hide Serve, LegalDraft, SlotsOk, LaneOk, CursorOk, ServedOk, Counts, StandingOk, Owned, ApplyServed;
    ServedSlots(net, cfg, p.st, k, r, spec);
    ServedOwners(cfg, p.st, k, r, spec);
    NextStands(net, cfg, p, k, r, spec);
    if p.st.pf.Some? {
      ServedCursor(net, cfg, p.st, k, r);
    }
    ServedKeepsCursor(p.st, k, r, spec);
    hide ShapeOk;
  }

  lemma ServedKeepsCursor(st: Sched, k: nat, r: Served, spec: bool)
    requires k < |st.lanes| && st.lanes[k].phys < |st.slots|
    ensures ApplyServed(st, k, r, spec).pf == st.pf && ApplyServed(st, k, r, spec).dev == r.dev
  {
  }

  // ------------------------------------------------------------------ all lanes

  lemma ServeFirstUnroll(net: Network, cfg: Config, st: Sched, inp: StepIn, k: nat) returns (p: Progress)
    requires DecodeOk(cfg, st, inp) && 0 < k <= |st.lanes|
    ensures p == ServeFirst(net, cfg, st, inp, k - 1) && |p.over| == k - 1 && |p.st.lanes| == |st.lanes|
    ensures p.st.lanes[k - 1] == st.lanes[k - 1]
    ensures Speculates(st, inp) ==> p.st.lanes[k - 1].primed && LegalDraft(cfg, p.st.lanes[k - 1].req, inp.draft)
    ensures ShapeOk(cfg, p.st) && LaneFits(cfg, p.st.lanes[k - 1], Speculates(st, inp), inp.draft)
    ensures ServeFirst(net, cfg, st, inp, k) == ServeNext(net, cfg, p, inp, Speculates(st, inp), k - 1)
  {
    p := ServeFirst(net, cfg, st, inp, k - 1);
    hide LegalDraft;
  }

  lemma MidStepStarts(net: Network, cfg: Config, st: Sched)
    requires Inv(net, cfg, st)
    ensures MidStep(net, cfg, Progress(st, []))
  {
  }

  /** Speculation is only ever asked of lanes that were admitted with room for it. */
  lemma {:induction false} ServeFirstKeeps(net: Network, cfg: Config, st: Sched, inp: StepIn, k: nat)
    requires Inv(net, cfg, st) && DecodeOk(cfg, st, inp) && k <= |st.lanes|
    ensures MidStep(net, cfg, ServeFirst(net, cfg, st, inp, k))
    decreases k
  {
    if k == 0 {
      hide Inv, MidStep, DecodeOk, ShapeOk, ServeNext, Speculates;
      MidStepStarts(net, cfg, st);
    } else {
      hide *;
      ServeFirstKeeps(net, cfg, st, inp, k - 1);
      var p := ServeFirstUnroll(net, cfg, st, inp, k);
      ServeNextKeeps(net, cfg, p, inp, Speculates(st, inp), k - 1);
    }
  }

  /** A decode step may always run: every lane has room for what it would write. */
  lemma DecodeAllowed(net: Network, cfg: Config, st: Sched, inp: StepIn)
    requires Inv(net, cfg, st) && (Speculates(st, inp) ==> LegalDraft(cfg, st.lanes[0].req, inp.draft))
    ensures DecodeOk(cfg, st, inp)
  {
    forall i | 0 <= i < |st.lanes| ensures LaneFits(cfg, st.lanes[i], Speculates(st, inp), inp.draft) {
      var l := st.lanes[i];
      assert LaneOk(net, cfg, st.dev, l, st.slots[l.phys].cache);
      hide Live, LegalDraft;
    }
  }

  // ------------------------------------------------------------------ compaction

  /** Front-packing: the kept lanes are the ones that go on, in their old order. */
  lemma {:induction false} KeptOnly(lanes: seq<Lane>, over: seq<bool>, j: nat) returns (i: nat)
    requires |lanes| == |over| && j < |Kept(lanes, over)|
    ensures j <= i < |lanes| && !over[i] && Kept(lanes, over)[j] == lanes[i]
    ensures |Kept(lanes[..i], over[..i])| == j
    decreases |lanes|
  {
    var n := |lanes| - 1;
    if j < |Kept(lanes[..n], over[..n])| {
      i := KeptOnly(lanes[..n], over[..n], j);
      assert lanes[..n][..i] == lanes[..i] && over[..n][..i] == over[..i];
    } else {
      i := n;
      KeptShort(lanes[..n], over[..n]);
    }
  }

  lemma {:induction false} KeptShort(lanes: seq<Lane>, over: seq<bool>)
    requires |lanes| == |over|
    ensures |Kept(lanes, over)| + |Ended(lanes, over)| == |lanes|
    decreases |lanes|
  {
    if lanes != [] {
      KeptShort(lanes[..|lanes| - 1], over[..|lanes| - 1]);
    }
  }

  lemma PhysSnoc(lanes: seq<Lane>, l: Lane)
    ensures PhysOf(lanes + [l]) == PhysOf(lanes) + [l.phys]
    ensures multiset(PhysOf(lanes + [l])) == multiset(PhysOf(lanes)) + multiset{l.phys}
  {
    assert PhysOf(lanes + [l]) == PhysOf(lanes) + [l.phys];
  }

  /** No slot is lost or duplicated: kept and freed slots are those of the old lanes. */
  lemma {:induction false} CompactionConserves(lanes: seq<Lane>, over: seq<bool>)
    requires |lanes| == |over|
    ensures multiset(PhysOf(Kept(lanes, over))) + multiset(PhysOf(Ended(lanes, over))) == multiset(PhysOf(lanes))
    decreases |lanes|
  {
    if lanes != [] {
      var n := |lanes| - 1;
      CompactionConserves(lanes[..n], over[..n]);
      assert lanes == lanes[..n] + [lanes[n]];
      PhysSnoc(lanes[..n], lanes[n]);
      hide PhysOf;
      if over[n] {
        PhysSnoc(Ended(lanes[..n], over[..n]), lanes[n]);
        assert Kept(lanes, over) == Kept(lanes[..n], over[..n]);
      } else {
        PhysSnoc(Kept(lanes[..n], over[..n]), lanes[n]);
        assert Ended(lanes, over) == Ended(lanes[..n], over[..n]);
      }
    }
  }

  lemma CompactedOwners(cfg: Config, st: Sched, over: seq<bool>)
    requires |st.lanes| == |over| && Owned(cfg, st)
    ensures Owned(cfg, Compacted(st, over))
  {
    CompactionConserves(st.lanes, over);
    assert Owners(Compacted(st, over)) == Owners(st);
  }

  lemma CompactedShape(cfg: Config, st: Sched, over: seq<bool>)
    requires ShapeOk(cfg, st) && Owned(cfg, st) && |st.lanes| == |over|
    ensures ShapeOk(cfg, Compacted(st, over))
  {
    var st' := Compacted(st, over);
    CompactedOwners(cfg, st, over);
    forall i | 0 <= i < |st'.lanes| ensures st'.lanes[i].phys < cfg.maxBatch {
      LaneAlone(cfg, st', i);
    }
    forall i | 0 <= i < |st'.free| ensures st'.free[i] < cfg.maxBatch {
      FreeAlone(cfg, st', i);
    }
  }

  lemma CompactedKeepsInv(net: Network, cfg: Config, p: Progress)
    requires MidStep(net, cfg, p) && |p.over| == |p.st.lanes|
    ensures Inv(net, cfg, Compacted(p.st, p.over))
  {
    hide Owned, ShapeOk, CursorOk, LaneOk, SlotOk;
    CompactedOwners(cfg, p.st, p.over);
    CompactedShape(cfg, p.st, p.over);
    var st' := Compacted(p.st, p.over);
    forall j | 0 <= j < |st'.lanes|
      ensures LaneOk(net, cfg, st'.dev, st'.lanes[j], st'.slots[st'.lanes[j].phys].cache)
    {
      var i := KeptOnly(p.st.lanes, p.over, j);
    }
    assert forall q :: 0 <= q < cfg.maxBatch ==> Agreed(st', q) == Agreed(p.st, q);
  }

  lemma DecodeKeepsInv(net: Network, cfg: Config, st: Sched, inp: StepIn)
    requires Inv(net, cfg, st) && DecodeOk(cfg, st, inp)
    ensures Inv(net, cfg, DecodeStep(net, cfg, st, inp))
  {
    ServeFirstKeeps(net, cfg, st, inp, |st.lanes|);
    hide MidStep, Inv, ServeFirst;
    CompactedKeepsInv(net, cfg, ServeFirst(net, cfg, st, inp, |st.lanes|));
  }
}
