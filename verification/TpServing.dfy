// The tensor-parallel serve loops, on scheduler objects: the head's drain, cancel sweep and
// admission, and the mirror's replay, each proved to be the protocol's step.

module TpServing {
  import opened Wrappers
  import opened Trunk
  import opened GreedyLane
  import opened Slots
  import opened LaneSteps
  import opened Scheduler
  import opened SchedInvariant
  import opened SchedForest
  import opened SchedStreams
  import opened SchedRuns
  import opened Lockstep
  import opened BatchScheduling
  import ServeLoops

  /** Drop-in for both ranks: one window, then one decode over the lanes there are. */
  method AdvanceRank(s: BatchScheduler, o: Replicated, step: nat)
    requires s.Valid() && LegalOracle(s.cfg, o) && Sound(s.net, s.cfg, s.State())
    modifies s
    ensures CanAdvance(s.net, s.cfg, o, step, old(s.State()))
    ensures s.Valid() && s.State() == Advance(s.net, s.cfg, o, step, old(s.State()))
    ensures Sound(s.net, s.cfg, s.State())
  {
    hide Sound, Next, InBounds, BatchScheduler.Valid, PfAdvance, ShapeOk, CursorShape, ServeLoops.Unpack, ServeLoops.Lead;
    AdvanceSound(s.net, s.cfg, o, step, s.State());
    NextSound(s.net, s.cfg, s.State(), Window);
    SoundGate(s.net, s.cfg, s.State());
    WindowIs(s.net, s.cfg, s.State());
    s.PfAdvance();
    var b := s.NumActive();
    if b > 0 {
      EnabledAlways(s.net, s.cfg, o, step, s.State());
      s.DecodeWith(o.decode(step, s.State()));
    }
  }

  /** Either rank's admission, in place. */
  method AdmitRank(s: BatchScheduler, a: Arrival, spec: bool)
    requires s.Valid() && Sound(s.net, s.cfg, s.State()) && s.State().pf.None? && |s.State().lanes| < s.cfg.maxBatch
    modifies s
    ensures Enabled(s.cfg, old(s.State()), Arrive(a, spec)) && InBounds(s.net, s.cfg, old(s.State()), Arrive(a, spec))
    ensures s.Valid() && s.State() == Next(s.net, s.cfg, old(s.State()), Arrive(a, spec))
  {
    hide Sound, Next, InBounds, Enabled, Scheduler.Admit, BatchScheduler.Valid, ServeLoops.Unpack, ServeLoops.Lead, ShapeOk;
    ArriveIs(s.net, s.cfg, s.State(), a, spec);
    s.Admit(a, spec);
  }

  lemma DrainGate(cfg: Config, h: Head)
    requires GateOk(cfg, h) && !h.waiting
    ensures GateOk(cfg, Drain(cfg, h))
  {
    DrainKeeps(cfg, h);
  }

  lemma NothingSwept(st: Sched, gone: nat -> bool)
    ensures NewlyGone(st, gone, 0) == [] && CancelEvents([]) == [] && MarkAll(st, []) == st
  {
  }

  /** The loop over the channel: take requests while there is room, and notice that it has closed. */
  method DrainQueue(cfg: Config, busy: nat, pending: seq<Arrival>, queue: seq<Arrival>, open: bool, closed: bool, ghost h: Head)
    returns (p: seq<Arrival>, q: seq<Arrival>, c: bool)
    requires busy == Busy(h.sched) && h.pending == pending && h.queue == queue && h.open == open && h.closed == closed
    ensures h.(pending := p, queue := q, closed := c) == Drain(cfg, h)
  {
    p, q, c := pending, queue, closed;
    while !c && busy + |p| < cfg.maxBatch && (q != [] || !open)
      invariant Drain(cfg, h.(pending := p, queue := q, closed := c)) == Drain(cfg, h)
      decreases |q|, !c
    {
      if q == [] {
        c := true;
      } else {
        p, q := p + [q[0]], q[1..];
      }
    }
  }

  class TpHead {
    const sched: BatchScheduler
    var pending: seq<Arrival>
    var queue: seq<Arrival>
    var open: bool
    var closed: bool
    var waiting: bool
    var step: nat
    var ended: bool
    ghost var arrived: seq<Arrival>
    ghost var admitted: seq<Arrival>

    ghost function View(): Head
      reads this, sched
    {
      Head(sched.State(), pending, queue, open, closed, waiting, step, arrived, admitted, ended)
    }

    ghost predicate Valid()
      reads this, sched
    {
      sched.Valid() && Sound(sched.net, sched.cfg, sched.State()) && GateOk(sched.cfg, View())
    }

    constructor (s: BatchScheduler)
      requires s.Valid() && Sound(s.net, s.cfg, s.State()) && Busy(s.State()) <= s.cfg.maxBatch && s.cfg.maxBatch > 0
      ensures sched == s && Valid() && View() == Head(s.State(), [], [], true, false, false, 0, [], [], false)
    {
      sched, pending, queue, open, closed, waiting, step, ended, arrived, admitted := s, [], [], true, false, false, 0, false, [], [];
    }

    /** Take requests off the channel while the projected load leaves room. */
    method DrainChannel()
      requires Valid() && !waiting
      modifies this`pending, this`queue, this`closed
      ensures View() == Drain(sched.cfg, old(View())) && Valid()
    {
      hide Sound, GateOk, Drain, BatchScheduler.Valid;
      DrainGate(sched.cfg, View());
      var b := sched.NumActive();
      var busy := b + (if sched.pf.Some? then 1 else 0);
      pending, queue, closed := DrainQueue(sched.cfg, busy, pending, queue, open, closed, View());
    }

    /** Wake up with the one request, or the hang-up, that ends a wait. */
    method WakeUp()
      requires Valid() && waiting
      modifies this`pending, this`queue, this`closed, this`waiting
      ensures View() == TakeOne(old(View())) && Valid()
    {
      LookKeeps(sched.cfg, View());
      hide Sound;
      if queue != [] {
        pending, queue, waiting := pending + [queue[0]], queue[1..], false;
      } else if !open {
        closed, waiting := true, false;
      }
    }

    /** The sweep has looked at the lanes below `i`. */
    ghost predicate Swept(st: Sched, gone: nat -> bool, i: nat, events: seq<WireEvent>)
      requires i <= |st.lanes|
      reads this, sched
    {
      && sched.Valid() && |st.lanes| == |sched.State().lanes|
      && events == CancelEvents(NewlyGone(st, gone, i))
      && sched.State() == MarkAll(st, NewlyGone(st, gone, i))
      && forall k :: i <= k < |st.lanes| ==> sched.State().lanes[k] == st.lanes[k]
    }

    /** Look at one lane: if its client just went away, mark it and name it on the wire. */
    method SweepLane(gone: nat -> bool, i: nat, ghost st: Sched, events0: seq<WireEvent>) returns (events: seq<WireEvent>)
      requires i < |st.lanes| && Swept(st, gone, i, events0)
      modifies sched`lanes
      ensures Swept(st, gone, i + 1, events)
    {
      events := events0;
      ghost var ids := NewlyGone(st, gone, i);
      assert ids + [] == ids && (ids + [i])[..|ids|] == ids;
      if gone(i) && !sched.State().lanes[i].cancelled {
        sched.CancelLane(i);
        events := events + [CancelEvent(i)];
      }
    }

    /** Mark lanes whose client just went away and name them on the wire. */
    method SweepGone(gone: nat -> bool) returns (events: seq<WireEvent>)
      requires Valid()
      modifies sched`lanes
      ensures sched.Valid() && View() == Marked(old(View()), gone)
      ensures events == CancelEvents(GoneLanes(old(View()), gone))
    {
      hide Sound, ServeLoops.Unpack, ServeLoops.Lead, BatchScheduler.Valid, GateOk, NewlyGone, MarkAll, CancelEvents;
      events := [];
      ghost var st := sched.State();
      var b := sched.NumActive();
      var i := 0;
      NothingSwept(st, gone);
      while i < b
        invariant 0 <= i <= b == |st.lanes| && Swept(st, gone, i, events)
      {
        events := SweepLane(gone, i, st, events);
        i := i + 1;
      }
    }

    /** One head iteration after the channel has been looked at. */
    method Run(o: Replicated, w: World) returns (msg: Option<Msg>)
      requires Valid() && !ended && LegalOracle(sched.cfg, o)
      modifies this, sched
      ensures HeadStep(sched.net, sched.cfg, o, old(View()), w)
           == match msg { case None => Blocked(View()) case Some(m) => Sent(View(), m) }
    {
      hide Sound, Work, EventsOf, ServeLoops.Unpack, ServeLoops.Lead, BatchScheduler.Valid, Drain, TakeOne, LegalOracle;
      ghost var h0 := View();
      if open {
        queue, open := queue + w.arrivals, !w.hangup;
        arrived := arrived + w.arrivals;
      }
      LookKeeps(sched.cfg, Receive(h0, w));
      if waiting {
        WakeUp();
      } else {
        DrainChannel();
      }
      var b := sched.NumActive();
      if b == 0 && sched.pf.None? && pending == [] {
        if !closed {
          waiting := true;
          return None;
        }
        ended := true;
        return Some(Shutdown);
      }
      var m := WorkStep(o, w.gone);
      msg := Some(m);
    }

    /** Write the step's admission, if there is one, and perform it. */
    method AdmitOne(o: Replicated, events0: seq<WireEvent>) returns (events: seq<WireEvent>)
      requires Valid()
      modifies this`pending, this`admitted, sched
      ensures sched.Valid() && View() == Admitted(sched.net, sched.cfg, o, old(View()))
      ensures events == events0 + (if AdmitsNow(old(View())) then [AdmitEvent(ToWire(old(pending)[0]))] else [])
    {
      events := events0;
      hide Sound, Next, InBounds, Enabled, GateOk, BatchScheduler.Valid, ServeLoops.Unpack, ServeLoops.Lead;
      if sched.pf.None? && pending != [] {
        GateLeavesRoom(sched.cfg, View());
        events := events + [AdmitEvent(ToWire(pending[0]))];
        AdmitRank(sched, pending[0], o.active(step, sched.State()));
        admitted := admitted + [pending[0]];
        pending := pending[1..];
      }
    }

    /** Ship the step's events, admit at most one request, advance. */
    method WorkStep(o: Replicated, gone: nat -> bool) returns (msg: Msg)
      requires Valid() && LegalOracle(sched.cfg, o)
      modifies this, sched
      ensures View() == Work(sched.net, sched.cfg, o, old(View()), gone)
      ensures msg == StepMsg(old(step), EventsOf(old(View()), gone))
    {
      hide Sound, CanAdvance, Advance, LegalOracle, ServeLoops.Unpack, ServeLoops.Lead, BatchScheduler.Valid, BatchScheduler.State, GateOk, GoneLanes,
           Marked, InBounds, Admitted, Busy;
      ghost var h := View();
      MarkedSound(sched.net, sched.cfg, o, h, gone);
      MarkedHead(sched.net, sched.cfg, h, gone);
      var events := SweepGone(gone);
      AdmittedSound(sched.net, sched.cfg, o, View());
      events := AdmitOne(o, events);
      AdvanceRank(sched, o, step);
      msg := StepMsg(step, events);
      step := step + 1;
    }
  }

  /** A fault, once raised, ends the replay. */
  lemma {:induction false} FaultsStick(net: Network, cfg: Config, o: Replicated, m: Mirror, events: seq<WireEvent>, k: nat)
    requires k <= |events| && Replay(net, cfg, o, m, events).fault == NoFault
    ensures Replay(net, cfg, o, m, events[..k]).fault == NoFault
    decreases |events|
  {
    hide Next, InBounds, Enabled;
    if k == |events| {
      assert events[..k] == events;
    } else {
      FaultsStick(net, cfg, o, m, events[..|events| - 1], k);
      assert events[..|events| - 1][..k] == events[..k];
    }
  }

  class TpMirror {
    const sched: BatchScheduler
    var step: nat
    ghost var admitted: seq<WireRequest>

    ghost function View(): Mirror
      reads this, sched
    {
      Mirror(sched.State(), step, admitted, NoFault)
    }

    constructor (s: BatchScheduler)
      requires s.Valid()
      ensures sched == s && View() == Mirror(s.State(), 0, [], NoFault)
    {
      sched, step, admitted := s, 0, [];
    }

    method ReplayEvent(o: Replicated, ghost m: Mirror, ghost done: seq<WireEvent>, ev: WireEvent)
      requires sched.Valid() && m.step == step && View() == Replay(sched.net, sched.cfg, o, m, done)
      requires Replay(sched.net, sched.cfg, o, m, done + [ev]).fault == NoFault
      modifies this`admitted, sched
      ensures sched.Valid() && View() == Replay(sched.net, sched.cfg, o, m, done + [ev])
    {
      hide Replay, Scheduler.Admit, ShapeOk, CursorShape;
      ReplaySnoc(sched.net, sched.cfg, o, m, done, ev);
      match ev {
        case CancelEvent(lane) =>
          sched.CancelLane(lane);
        case AdmitEvent(wr) =>
          sched.Admit(IntoRequest(wr), o.active(step, sched.State()));
          admitted := admitted + [wr];
      }
    }

    /** The message's events, in order. */
    method ReplayAll(o: Replicated, events: seq<WireEvent>)
      requires sched.Valid() && Replay(sched.net, sched.cfg, o, View(), events).fault == NoFault
      modifies this`admitted, sched
      ensures sched.Valid() && View() == Replay(sched.net, sched.cfg, o, old(View()), events)
    {
      ghost var m := View();
      hide BatchScheduler.Valid, BatchScheduler.State, Replay;
      ReplayNothing(sched.net, sched.cfg, o, m);
      var k := 0;
      while k < |events|
        invariant 0 <= k <= |events| && sched.Valid() && step == m.step
        invariant View() == Replay(sched.net, sched.cfg, o, m, events[..k])
      {
        assert events[..k + 1] == events[..k] + [events[k]];
        FaultsStick(sched.net, sched.cfg, o, m, events, k + 1);
        ReplayEvent(o, m, events[..k], events[k]);
        k := k + 1;
      }
      assert events[..k] == events;
    }

    /** Apply one step message whose replay raises no fault; a twin's messages never do. */
    method Apply(o: Replicated, stepNo: nat, events: seq<WireEvent>) returns (ok: bool)
      requires sched.Valid() && LegalOracle(sched.cfg, o)
      requires var r := Replay(sched.net, sched.cfg, o, View(), events);
               r.fault == NoFault && Sound(sched.net, sched.cfg, r.sched)
      modifies this, sched
      ensures sched.Valid() && ok == (stepNo == old(step))
      ensures ok ==> View() == MirrorStep(sched.net, sched.cfg, o, old(View()), StepMsg(stepNo, events))
    {
      hide Sound, Advance, CanAdvance, LegalOracle, BatchScheduler.Valid, BatchScheduler.State, Replay, MirrorStep;
      if stepNo != step {
        return false;
      }
      ghost var m := View();
      ReplayAll(o, events);
      ghost var r := View();
      assert r == Replay(sched.net, sched.cfg, o, m, events) && r.step == m.step;
      AdvanceRank(sched, o, step);
      MirrorStepIs(sched.net, sched.cfg, o, m, events);
      step := step + 1;
      ok := true;
    }
  }

  lemma MirrorStepIs(net: Network, cfg: Config, o: Replicated, m: Mirror, events: seq<WireEvent>)
    requires LegalOracle(cfg, o) && m.fault == NoFault && Replay(net, cfg, o, m, events).fault == NoFault
    requires CanAdvance(net, cfg, o, m.step, Replay(net, cfg, o, m, events).sched)
    ensures var r := Replay(net, cfg, o, m, events);
            MirrorStep(net, cfg, o, m, StepMsg(m.step, events))
              == r.(sched := Advance(net, cfg, o, m.step, r.sched), step := m.step + 1)
  {
    hide Replay, Advance, CanAdvance, LegalOracle;
  }

  lemma ReplayNothing(net: Network, cfg: Config, o: Replicated, m: Mirror)
    ensures forall es: seq<WireEvent> :: es == [] ==> Replay(net, cfg, o, m, es) == m
  {
  }
}
