// The two-rank head's work runs out too: once its channel has hung up, every iteration leaves less
// to do, and it shuts down with every request answered or turned away.

module TpLive {
  import opened Trunk
  import opened GreedyLane
  import opened Slots
  import opened LaneSteps
  import opened Scheduler
  import opened SchedInvariant
  import opened SchedAdmit
  import opened SchedRuns
  import opened SchedForest
  import opened Lockstep
  import SchedLive

  /** A head between iterations, whose scheduler some run over what it admitted has reached. */
  ghost predicate HeadOk(net: Network, cfg: Config, h: Head) {
    && Sound(net, cfg, h.sched) && GateOk(cfg, h) && InOrder(h) && SchedLive.Reached(net, cfg, h.sched, h.admitted)
  }

  /** What lanes and cursor may still need, and what the requests not yet admitted ask for. */
  function Left(h: Head): nat {
    SchedLive.Load(h.sched) + SchedLive.QueueLoad(h.pending + h.queue)
  }

  // ------------------------------------------------------------------ the parts of an iteration

  lemma {:induction false} LoadsSame(lanes: seq<Lane>, lanes': seq<Lane>)
    requires |lanes'| == |lanes| && forall i :: 0 <= i < |lanes| ==> lanes'[i] == lanes[i].(cancelled := lanes'[i].cancelled)
    ensures SchedLive.Loads(lanes') == SchedLive.Loads(lanes)
    decreases |lanes|
  {
    if lanes != [] {
      LoadsSame(lanes[..|lanes| - 1], lanes'[..|lanes| - 1]);
    }
  }

  /** Marking lanes is a few more steps of the run, and no work is gained or lost. */
  lemma {:induction false} MarksReached(net: Network, cfg: Config, st: Sched, took: seq<Arrival>, ids: seq<nat>)
    requires SchedLive.Reached(net, cfg, st, took)
    ensures SchedLive.Reached(net, cfg, MarkAll(st, ids), took)
    decreases |ids|
  {
    if ids != [] {
      MarksReached(net, cfg, st, took, ids[..|ids| - 1]);
      var init, i := MarkAll(st, ids[..|ids| - 1]), ids[|ids| - 1];
      if i < |init.lanes| {
        hide SchedLive.Reached, InBounds, MarkAll;
        SchedLive.ReachedNext(net, cfg, init, took, CancelLane(i));
        assert took + [] == took;
      }
    }
  }

  lemma MarksLoad(st: Sched, ids: seq<nat>)
    ensures SchedLive.Load(MarkAll(st, ids)) == SchedLive.Load(st)
  {
    var r := MarkAll(st, ids);
    MarksLanes(st, ids);
    forall i: nat | i < |st.lanes| ensures r.lanes[i] == st.lanes[i].(cancelled := r.lanes[i].cancelled) {
      MarksExactly(st, ids, i);
    }
    LoadsSame(st.lanes, r.lanes);
  }

  lemma {:induction false} MarksLanes(st: Sched, ids: seq<nat>)
    ensures var r := MarkAll(st, ids); |r.lanes| == |st.lanes| && r == st.(lanes := r.lanes)
    decreases |ids|
  {
    if ids != [] {
      MarksLanes(st, ids[..|ids| - 1]);
    }
  }

  /** Both kinds of serve loop do the same work in a step. */
  lemma AdvanceIsWork(net: Network, cfg: Config, o: Replicated, step: nat, st: Sched)
    requires LegalOracle(cfg, o) && Sound(net, cfg, st) && CanAdvance(net, cfg, o, step, st)
    requires forall s :: Enabled(cfg, s, DecodeEvent(o.decode(step, s)))
    ensures Advance(net, cfg, o, step, st) == Worked(net, cfg, st, s => o.decode(step, s))
  {
    hide Sound, Next, InBounds, Enabled;
  }

  lemma AdvanceTires(net: Network, cfg: Config, o: Replicated, step: nat, st: Sched, took: seq<Arrival>)
    requires LegalOracle(cfg, o) && Sound(net, cfg, st) && CanAdvance(net, cfg, o, step, st) && SchedLive.Reached(net, cfg, st, took)
    ensures var r := Advance(net, cfg, o, step, st);
            SchedLive.Reached(net, cfg, r, took) && SchedLive.Load(r) <= SchedLive.Load(st)
            && (SchedLive.Idle(st) || SchedLive.Load(r) < SchedLive.Load(st))
  {
    forall s ensures Enabled(cfg, s, DecodeEvent(o.decode(step, s))) {
      EnabledAlways(net, cfg, o, step, s);
    }
    hide *;
    AdvanceIsWork(net, cfg, o, step, st);
    SchedLive.WorkTires(net, cfg, st, took, s => o.decode(step, s));
  }

  /** An admission moves a request from the head's list to its scheduler. */
  lemma AdmitMoves(net: Network, cfg: Config, o: Replicated, h: Head)
    requires HeadOk(net, cfg, h)
    ensures var r := Admitted(net, cfg, o, h);
            && SchedLive.Reached(net, cfg, r.sched, r.admitted)
            && (if AdmitsNow(h)
                then Left(h) == SchedLive.Load(h.sched) + SchedLive.ArrivalLoad(h.pending[0]) + SchedLive.QueueLoad(r.pending + r.queue)
                     && SchedLive.Load(r.sched) <= SchedLive.Load(h.sched) + SchedLive.ArrivalLoad(h.pending[0])
                else r == h)
  {
    hide SchedLive.Reached, SchedLive.Load, Sound, Next, Enabled, InBounds, InOrder;
    if AdmitsNow(h) {
      GateLeavesRoom(cfg, h);
      SchedLive.TakesArrival(net, cfg, h.sched, h.admitted, h.pending[0], o.active(h.step, h.sched));
      assert (h.pending + h.queue)[1..] == h.pending[1..] + h.queue;
      SchedLive.QueueFirst(h.pending + h.queue);
    }
  }

  lemma MarkedOk(net: Network, cfg: Config, h: Head, gone: nat -> bool)
    requires HeadOk(net, cfg, h)
    ensures var r := Marked(h, gone); HeadOk(net, cfg, r) && Left(r) == Left(h) && (Idle(r) <==> Idle(h))
  {
    MarksReached(net, cfg, h.sched, h.admitted, GoneLanes(h, gone));
    MarksLoad(h.sched, GoneLanes(h, gone));
    MarkedHead(net, cfg, h, gone);
    hide SchedLive.Reached, Sound, MarkAll, SchedLive.QueueLoad, SchedLive.Load, GoneLanes;
  }

  /** Admission and the work after it leave less than there was to do. */
  lemma AdmitAndWork(net: Network, cfg: Config, o: Replicated, h: Head, step: nat)
    requires LegalOracle(cfg, o) && HeadOk(net, cfg, h) && !Idle(h)
    requires var s := Admitted(net, cfg, o, h); Sound(net, cfg, s.sched) && CanAdvance(net, cfg, o, step, s.sched)
    ensures var s := Admitted(net, cfg, o, h);
            var r := s.(sched := Advance(net, cfg, o, step, s.sched));
            SchedLive.Reached(net, cfg, r.sched, r.admitted) && Left(r) < Left(h)
  {
    hide SchedLive.Reached, Sound, LegalOracle, CanAdvance, Advance, SchedLive.QueueLoad, Admitted, SchedLive.Load, InOrder, GateOk;
    AdmitMoves(net, cfg, o, h);
    var s := Admitted(net, cfg, o, h);
    AdvanceTires(net, cfg, o, step, s.sched, s.admitted);
    if SchedLive.Idle(s.sched) {
      IdleNoLoad(s.sched);
    }
  }

  lemma IdleNoLoad(st: Sched)
    requires SchedLive.Idle(st)
    ensures SchedLive.Load(st) == 0
  {
  }

  /** A step with something to do leaves less of it. */
  lemma WorkLeavesLess(net: Network, cfg: Config, o: Replicated, h: Head, gone: nat -> bool)
    requires LegalOracle(cfg, o) && HeadOk(net, cfg, h) && !Idle(h)
    ensures var r := Work(net, cfg, o, h, gone); HeadOk(net, cfg, r) && Left(r) < Left(h) && r.open == h.open && r.ended == h.ended
  {
    hide *;
    HeadNow(net, cfg, h);
    MarkedOk(net, cfg, h, gone);
    MarkedSound(net, cfg, o, h, gone);
    WorkInOrder(net, cfg, o, h, gone);
    AdmittedSound(net, cfg, o, Marked(h, gone));
    AdmitAndWork(net, cfg, o, Marked(h, gone), h.step);
    AdmittedSame(net, cfg, o, h, gone);
    WorkMade(net, cfg, o, h, gone);
  }

  lemma WorkMade(net: Network, cfg: Config, o: Replicated, h: Head, gone: nat -> bool)
    requires LegalOracle(cfg, o) && Sound(net, cfg, h.sched) && GateOk(cfg, h)
    requires var r := Work(net, cfg, o, h, gone); GateOk(cfg, r) && InOrder(r)
    requires Sound(net, cfg, Marked(h, gone).sched) && GateOk(cfg, Marked(h, gone))
    requires var s := Admitted(net, cfg, o, Marked(h, gone));
             && CanAdvance(net, cfg, o, h.step, s.sched) && Sound(net, cfg, Advance(net, cfg, o, h.step, s.sched))
             && SchedLive.Reached(net, cfg, Advance(net, cfg, o, h.step, s.sched), s.admitted)
    ensures var s, r := Admitted(net, cfg, o, Marked(h, gone)), Work(net, cfg, o, h, gone);
            && HeadOk(net, cfg, r) && r == s.(sched := Advance(net, cfg, o, h.step, s.sched), step := h.step + 1)
            && Left(r) == Left(s.(sched := Advance(net, cfg, o, h.step, s.sched)))
  {
    hide Sound, SchedLive.Reached, LegalOracle, CanAdvance, Advance, InOrder, GateOk, Marked, Admitted, SchedLive.Load, SchedLive.QueueLoad;
  }

  lemma AdmittedSame(net: Network, cfg: Config, o: Replicated, h: Head, gone: nat -> bool)
    requires HeadOk(net, cfg, Marked(h, gone))
    ensures var r := Admitted(net, cfg, o, Marked(h, gone)); r.open == h.open && r.ended == h.ended
  {
    hide Sound, SchedLive.Reached, Next, InBounds, InOrder, MarkAll;
  }

  // ------------------------------------------------------------------ the loop

  /** Once its channel has hung up, an iteration never blocks: it ends the session with nothing left
      over, or leaves less to do. */
  lemma HungUpStep(net: Network, cfg: Config, o: Replicated, h: Head, w: World)
    requires LegalOracle(cfg, o) && HeadOk(net, cfg, h) && !h.ended && !h.open
    ensures var s := HeadStep(net, cfg, o, h, w);
            && s.Sent? && HeadOk(net, cfg, s.head) && !s.head.open && s.head.arrived == h.arrived
            && (if s.head.ended then s.msg == Shutdown && SchedLive.Idle(s.head.sched) && s.head.admitted == h.arrived
                else Left(s.head) < Left(h))
  {
    LookKeeps(cfg, Receive(h, w));
    LookedInOrder(cfg, h, w);
    var r := Look(cfg, Receive(h, w));
    assert Left(r) == Left(h) by { hide Look; }
    if Idle(r) {
      EndsClean(r);
      hide Look;
    } else {
      hide Look, Sound, SchedLive.Reached, LegalOracle, Work, InOrder, Left, EventsOf;
      WorkLeavesLess(net, cfg, o, r, w.gone);
      WorkArrived(net, cfg, o, r, w.gone);
    }
  }

  lemma WorkArrived(net: Network, cfg: Config, o: Replicated, h: Head, gone: nat -> bool)
    requires LegalOracle(cfg, o) && Sound(net, cfg, h.sched) && GateOk(cfg, h)
    ensures Work(net, cfg, o, h, gone).arrived == h.arrived
  {
    MarkedSound(net, cfg, o, h, gone);
    hide Sound, Next, InBounds, MarkAll, CanAdvance, Advance, LegalOracle;
  }

  /** Every iteration, hung up or not, leaves the head in order. */
  lemma AnyStep(net: Network, cfg: Config, o: Replicated, h: Head, w: World)
    requires LegalOracle(cfg, o) && HeadOk(net, cfg, h) && !h.ended
    ensures HeadOk(net, cfg, HeadStep(net, cfg, o, h, w).head)
  {
    LookKeeps(cfg, Receive(h, w));
    LookedInOrder(cfg, h, w);
    var r := Look(cfg, Receive(h, w));
    assert HeadOk(net, cfg, r) by { hide Look, Receive, Sound, SchedLive.Reached, InOrder, GateOk; }
    hide Look, Receive, Sound, SchedLive.Reached, LegalOracle, Work, EventsOf;
    if !Idle(r) {
      hide InOrder, GateOk;
      WorkLeavesLess(net, cfg, o, r, w.gone);
    }
  }

  lemma {:induction false} EverySessionHead(net: Network, cfg: Config, o: Replicated, hs: seq<Head>, ms: seq<Mirror>, ws: seq<World>, k: nat)
    requires LegalOracle(cfg, o) && Session(net, cfg, o, hs, ms, ws) && k <= |ws|
    ensures k < |hs| && HeadOk(net, cfg, hs[k])
    decreases k
  {
    if k == 0 {
      FirstHead(net, cfg, hs[0]);
    } else {
      EverySessionHead(net, cfg, o, hs, ms, ws, k - 1);
      hide LegalOracle, Fresh, HeadOk;
      assert SessionStep(net, cfg, o, hs[k - 1], ms[k - 1], ws[k - 1], hs[k], ms[k]);
      HeadNow(net, cfg, hs[k - 1]);
      hide GateOk, Sound, InOrder;
      if !hs[k - 1].ended {
        AnyStep(net, cfg, o, hs[k - 1], ws[k - 1]);
      }
      hide HeadStep, MirrorStep;
    }
  }

  lemma FirstHead(net: Network, cfg: Config, h: Head)
    requires GridMode(cfg) && cfg.maxBatch > 0 && Fresh(cfg, h.sched) && h == Head(h.sched, [], [], true, false, false, 0, [], [], false)
    ensures HeadOk(net, cfg, h)
  {
    FreshSound(net, cfg, h.sched);
    hide Sound;
    assert SchedLive.ReachedBy(net, cfg, h.sched, [], [h.sched], []);
  }

  /** At most n iterations; who goes away during each does not matter. */
  ghost function HeadRuns(net: Network, cfg: Config, o: Replicated, h: Head, ws: nat -> World, n: nat): (r: Head)
    requires LegalOracle(cfg, o) && HeadOk(net, cfg, h) && !h.open && !h.ended
    ensures HeadOk(net, cfg, r) && !r.open && r.arrived == h.arrived
    ensures if r.ended then SchedLive.Idle(r.sched) && r.admitted == h.arrived else Left(r) + n <= Left(h)
  {
    hide *;
    if n == 0 then h
    else
      var p := HeadRuns(net, cfg, o, h, ws, n - 1);
      if p.ended then p
      else
        HungUpStep(net, cfg, o, p, ws(n - 1));
        HeadNow(net, cfg, p);
        HeadStep(net, cfg, o, p, ws(n - 1)).head
  }

  lemma HeadNow(net: Network, cfg: Config, h: Head)
    requires HeadOk(net, cfg, h)
    ensures Sound(net, cfg, h.sched) && GateOk(cfg, h) && InOrder(h)
  {
    hide Sound, GateOk, InOrder, SchedLive.Reached;
  }

  /** In any session, once the senders have hung up: with one iteration more than there is work left
      the head has shut down, having admitted every request that arrived, in order, and each has its
      one outcome. */
  lemma SessionShutsDown(net: Network, cfg: Config, o: Replicated, hs: seq<Head>, ms: seq<Mirror>, ws: seq<World>, k: nat, later: nat -> World, n: nat)
    requires LegalOracle(cfg, o) && Session(net, cfg, o, hs, ms, ws) && k <= |ws| && !hs[k].open && !hs[k].ended && n > Left(hs[k])
    ensures HeadOk(net, cfg, hs[k])
    ensures var r := HeadRuns(net, cfg, o, hs[k], later, n);
            && r.ended && SchedLive.Idle(r.sched) && r.admitted == hs[k].arrived && |r.sched.outcomes| == |hs[k].arrived|
  {
    hide *;
    EverySessionHead(net, cfg, o, hs, ms, ws, k);
    var r := HeadRuns(net, cfg, o, hs[k], later, n);
    HeadReached(net, cfg, r);
    var sts, es, js := SchedLive.IdleHasAnswered(net, cfg, r.sched, r.admitted);
  }

  lemma HeadReached(net: Network, cfg: Config, h: Head)
    requires HeadOk(net, cfg, h)
    ensures SchedLive.Reached(net, cfg, h.sched, h.admitted)
  {
    hide Sound, GateOk, InOrder, SchedLive.Reached;
  }
}
