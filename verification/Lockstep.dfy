// Tensor-parallel serving: the head drives its scheduler and ships one message per step; the
// mirror replays the message. The two schedulers must never differ.

module Lockstep {
  import opened Wrappers
  import opened Trunk
  import opened GreedyLane
  import opened Slots
  import opened LaneSteps
  import opened Scheduler
  import opened SchedInvariant
  import opened SchedDecode
  import opened SchedForest
  import opened SchedStreams
  import opened SchedRuns

  // ------------------------------------------------------------------ the wire

  /** A request as the wire carries it. There is no field for the JSON schema. */
  datatype WireRequest = WireRequest(id: nat, prompt: seq<Token>, maxNew: nat, minNew: nat, ignoreEos: bool,
                                     greedy: bool, penalized: bool, ckptAt: Option<nat>)

  datatype WireEvent = AdmitEvent(w: WireRequest) | CancelEvent(lane: nat)

  datatype Msg = StepMsg(step: nat, events: seq<WireEvent>) | Shutdown

  function ToWire(a: Arrival): WireRequest {
    WireRequest(a.id, a.req.prompt, a.req.maxNew, a.req.minNew, a.req.ignoreEos, a.req.greedy, a.req.penalized, a.ckptAt)
  }

  function IntoRequest(w: WireRequest): Arrival {
    Arrival(w.id, Request(w.prompt, w.maxNew, w.minNew, w.ignoreEos, w.greedy, w.penalized, None), w.ckptAt)
  }

  /** The wire is lossless exactly for requests without a schema. */
  lemma WireRoundTrip(a: Arrival)
    ensures IntoRequest(ToWire(a)) == a <==> a.req.schema.None?
    ensures ToWire(IntoRequest(ToWire(a))) == ToWire(a)
  {
  }

  /** What an admission leaves in both schedulers: the same, exactly unless a request with a schema
      gets its slot and starts. */
  lemma AdmitSplits(net: Network, cfg: Config, st: Sched, a: Arrival, spec: bool)
    requires ShapeOk(cfg, st) && st.free != []
    ensures Scheduler.Admit(net, cfg, st, a, spec) == Scheduler.Admit(net, cfg, st, IntoRequest(ToWire(a)), spec)
       <==> a.req.schema.None? || TooLong(cfg, |a.req.prompt|, a.req.maxNew, spec)
  {
    ChoiceIsFree(cfg, st.free, st.slots, a.req.prompt);
    var k := Choice(cfg, st.free, st.slots, a.req.prompt).value;
    assert k.phys in st.free;
    SchemaSplitsRanks(net, cfg, st, a, spec, k);
    hide Choice, TooLong, Started;
  }

  /** A request that starts its prefill puts the ranks apart at once exactly when it has a schema:
      the head then counts its output from 0 and the mirror from 1, which the per-step agreement
      hash covers. */
  lemma SchemaSplitsRanks(net: Network, cfg: Config, st: Sched, a: Arrival, spec: bool, k: Pick)
    requires k.phys < |st.slots| && k.phys < |st.dev.cells|
    ensures var h := Started(net, cfg, st, a, spec, k);
            var m := Started(net, cfg, st, IntoRequest(ToWire(a)), spec, k);
            && (h == m <==> a.req.schema.None?)
            && (h == m <==> Install(h.pf.value).generated == Install(m.pf.value).generated)
  {
  }

  // ------------------------------------------------------------------ the two ranks

  /** The replicated part of a step: policy, drafter and seeded sampler are functions of state
      that both ranks hold. */
  datatype Replicated = Replicated(active: (nat, Sched) -> bool, decode: (nat, Sched) -> Decoding)

  ghost predicate LegalOracle(cfg: Config, o: Replicated) {
    forall k, st :: Enabled(cfg, st, DecodeEvent(o.decode(k, st)))
  }

  /** `queue` is the request channel and `open` its sender side; `waiting` says that the head has
      nothing to do and blocks on it. `arrived` logs every request. */
  datatype Head = Head(sched: Sched, pending: seq<Arrival>, queue: seq<Arrival>, open: bool, closed: bool, waiting: bool,
                       step: nat, arrived: seq<Arrival>, admitted: seq<Arrival>, ended: bool)

  datatype Fault = NoFault | CleanExit | Desync

  /** `admitted` logs requests as they came over the wire. */
  datatype Mirror = Mirror(sched: Sched, step: nat, admitted: seq<WireRequest>, fault: Fault)

  function Wires(arrivals: seq<Arrival>): (r: seq<WireRequest>)
    ensures |r| == |arrivals| && forall k :: 0 <= k < |r| ==> r[k] == ToWire(arrivals[k])
  {
    seq(|arrivals|, k requires 0 <= k < |arrivals| => ToWire(arrivals[k]))
  }

  /** What the world does before one head iteration: requests arrive, senders hang up, and
      clients of some lanes go away. */
  datatype World = World(arrivals: seq<Arrival>, hangup: bool, gone: nat -> bool)

  function Busy(st: Sched): nat {
    |st.lanes| + (if st.pf.Some? then 1 else 0)
  }

  function Receive(h: Head, w: World): Head {
    if !h.open then h
    else h.(queue := h.queue + w.arrivals, arrived := h.arrived + w.arrivals, open := !w.hangup)
  }

  /** Drain the channel while the projected load leaves room; notice a hung-up channel. */
  function Drain(cfg: Config, h: Head): Head
    decreases |h.queue|
  {
    if h.closed || Busy(h.sched) + |h.pending| >= cfg.maxBatch then h
    else if h.queue == [] then (if h.open then h else h.(closed := true))
    else Drain(cfg, h.(pending := h.pending + [h.queue[0]], queue := h.queue[1..]))
  }

  /** A head that blocks takes exactly one request when it wakes up, or sees the channel close. */
  function TakeOne(h: Head): Head {
    if h.queue != [] then h.(pending := h.pending + [h.queue[0]], queue := h.queue[1..], waiting := false)
    else if h.open then h
    else h.(closed := true, waiting := false)
  }

  /** What an iteration takes off the channel. */
  function Look(cfg: Config, h: Head): Head {
    if h.waiting then TakeOne(h) else Drain(cfg, h)
  }

  ghost predicate Idle(h: Head) {
    Busy(h.sched) == 0 && h.pending == []
  }

  /** Lanes below `n` whose client just went away, in order. */
  function NewlyGone(st: Sched, gone: nat -> bool, n: nat): seq<nat>
    requires n <= |st.lanes|
  {
    if n == 0 then []
    else NewlyGone(st, gone, n - 1) + (if gone(n - 1) && !st.lanes[n - 1].cancelled then [n - 1] else [])
  }

  function CancelEvents(ids: seq<nat>): (r: seq<WireEvent>)
    ensures |r| == |ids| && forall k :: 0 <= k < |r| ==> r[k] == CancelEvent(ids[k])
  {
    seq(|ids|, k requires 0 <= k < |ids| => CancelEvent(ids[k]))
  }

  /** Mark the lanes one after the other, as the head does while it writes the events. */
  ghost function MarkAll(st: Sched, ids: seq<nat>): Sched
  {
    if ids == [] then st
    else
      var init := MarkAll(st, ids[..|ids| - 1]);
      if ids[|ids| - 1] < |init.lanes| then Cancel(init, ids[|ids| - 1]) else init
  }

  lemma {:induction false} MarkAllSound(net: Network, cfg: Config, st: Sched, ids: seq<nat>)
    requires Sound(net, cfg, st)
    ensures Sound(net, cfg, MarkAll(st, ids)) && |MarkAll(st, ids).lanes| == |st.lanes|
    ensures MarkAll(st, ids).pf == st.pf
    decreases |ids|
  {
    hide Inv, Faithful;
    if ids != [] {
      MarkAllSound(net, cfg, st, ids[..|ids| - 1]);
      var init := MarkAll(st, ids[..|ids| - 1]);
      if ids[|ids| - 1] < |init.lanes| {
        CancelKeeps(net, cfg, init, ids[|ids| - 1]);
      }
    }
  }

  lemma {:induction false} NewlyGoneInTable(st: Sched, gone: nat -> bool, n: nat)
    requires n <= |st.lanes|
    ensures forall k :: 0 <= k < |NewlyGone(st, gone, n)| ==> NewlyGone(st, gone, n)[k] < n
  {
    if n > 0 {
      NewlyGoneInTable(st, gone, n - 1);
    }
  }

  /** The sweep names exactly the lanes that are gone and were not marked before. */
  lemma {:induction false} GoneExactly(st: Sched, gone: nat -> bool, n: nat, i: nat)
    requires n <= |st.lanes|
    ensures i in NewlyGone(st, gone, n) <==> i < n && gone(i) && !st.lanes[i].cancelled
    decreases n
  {
    if n > 0 {
      GoneExactly(st, gone, n - 1, i);
    }
  }

  lemma {:induction false} MarksExactly(st: Sched, ids: seq<nat>, i: nat)
    requires i < |st.lanes|
    ensures var r := MarkAll(st, ids);
            && |r.lanes| == |st.lanes| && r == st.(lanes := r.lanes)
            && r.lanes[i] == st.lanes[i].(cancelled := st.lanes[i].cancelled || i in ids)
    decreases |ids|
  {
    if ids != [] {
      MarksExactly(st, ids[..|ids| - 1], i);
    }
  }

  /** After the sweep exactly the lanes whose client is gone are marked, besides those marked before. */
  lemma SweepMarksGone(h: Head, gone: nat -> bool, i: nat)
    requires i < |h.sched.lanes|
    ensures var r := Marked(h, gone).sched;
            && |r.lanes| == |h.sched.lanes|
            && r.lanes[i] == h.sched.lanes[i].(cancelled := h.sched.lanes[i].cancelled || gone(i))
  {
    GoneExactly(h.sched, gone, |h.sched.lanes|, i);
    MarksExactly(h.sched, GoneLanes(h, gone), i);
  }

  /** No index of the window or of the decode that follows it is out of range. */
  ghost predicate CanAdvance(net: Network, cfg: Config, o: Replicated, step: nat, st: Sched) {
    && Enabled(cfg, st, Window) && InBounds(net, cfg, st, Window)
    && var st1 := Next(net, cfg, st, Window);
       st1.lanes != [] ==> Enabled(cfg, st1, DecodeEvent(o.decode(step, st1))) && InBounds(net, cfg, st1, DecodeEvent(o.decode(step, st1)))
  }

  /** The part of a step both ranks run: one window, then one decode over the lanes there are. */
  ghost function Advance(net: Network, cfg: Config, o: Replicated, step: nat, st: Sched): Sched
    requires CanAdvance(net, cfg, o, step, st)
  {
    var st1 := Next(net, cfg, st, Window);
    if st1.lanes == [] then st1 else Next(net, cfg, st1, DecodeEvent(o.decode(step, st1)))
  }

  lemma AdvanceSound(net: Network, cfg: Config, o: Replicated, step: nat, st: Sched)
    requires LegalOracle(cfg, o) && Sound(net, cfg, st)
    ensures CanAdvance(net, cfg, o, step, st) && Sound(net, cfg, Advance(net, cfg, o, step, st))
  {
    hide Sound, Next, Enabled, InBounds;
    EnabledAlways(net, cfg, o, step, st);
    NextSound(net, cfg, st, Window);
    var st1 := Next(net, cfg, st, Window);
    if st1.lanes != [] {
      EnabledAlways(net, cfg, o, step, st1);
      NextSound(net, cfg, st1, DecodeEvent(o.decode(step, st1)));
    }
  }

  lemma WindowIs(net: Network, cfg: Config, st: Sched)
    requires InBounds(net, cfg, st, Window)
    ensures ShapeOk(cfg, st) && CursorShape(cfg, st) && Next(net, cfg, st, Window) == PfAdvance(net, cfg, st)
  {
  }

  lemma EnabledAlways(net: Network, cfg: Config, o: Replicated, step: nat, st: Sched)
    requires LegalOracle(cfg, o)
    ensures Enabled(cfg, st, Window) && Enabled(cfg, st, DecodeEvent(o.decode(step, st)))
  {
  }

  // ------------------------------------------------------------------ the head

  /** What one head iteration did: blocked on an empty channel, or shipped one message. */
  datatype Shipped = Blocked(head: Head) | Sent(head: Head, msg: Msg)

  function GoneLanes(h: Head, gone: nat -> bool): seq<nat> {
    NewlyGone(h.sched, gone, |h.sched.lanes|)
  }

  ghost function Marked(h: Head, gone: nat -> bool): Head {
    h.(sched := MarkAll(h.sched, GoneLanes(h, gone)))
  }

  predicate AdmitsNow(h: Head) {
    h.sched.pf.None? && h.pending != []
  }

  /** The step's event list: the lanes that just went away, then at most one admission. */
  function EventsOf(h: Head, gone: nat -> bool): seq<WireEvent> {
    CancelEvents(GoneLanes(h, gone)) + (if AdmitsNow(h) then [AdmitEvent(ToWire(h.pending[0]))] else [])
  }

  ghost function Admitted(net: Network, cfg: Config, o: Replicated, h: Head): Head
    requires Sound(net, cfg, h.sched) && GateOk(cfg, h)
  {
    if AdmitsNow(h) then AdmitHead(net, cfg, o, h) else h
  }

  /** A step with something to do: ship the events, admit, advance. */
  ghost function Work(net: Network, cfg: Config, o: Replicated, h: Head, gone: nat -> bool): Head
    requires LegalOracle(cfg, o) && Sound(net, cfg, h.sched) && GateOk(cfg, h)
  {
    MarkedSound(net, cfg, o, h, gone);
    var h' := Admitted(net, cfg, o, Marked(h, gone));
    h'.(sched := Advance(net, cfg, o, h.step, h'.sched), step := h.step + 1)
  }

  /** An iteration that finds nothing to do blocks on the channel, unless it has closed. */
  ghost function HeadStep(net: Network, cfg: Config, o: Replicated, h0: Head, w: World): Shipped
    requires LegalOracle(cfg, o) && Sound(net, cfg, h0.sched) && !h0.ended && GateOk(cfg, h0)
  {
    LookKeeps(cfg, Receive(h0, w));
    var h := Look(cfg, Receive(h0, w));
    if Idle(h) && !h.closed then Blocked(h.(waiting := true))
    else if h.closed && Idle(h) then Sent(h.(ended := true), Shutdown)
    else Sent(Work(net, cfg, o, h, w.gone), StepMsg(h.step, EventsOf(h, w.gone)))
  }

  lemma MarkedHead(net: Network, cfg: Config, h: Head, gone: nat -> bool)
    requires Sound(net, cfg, h.sched)
    ensures var r := Marked(h, gone);
            && Sound(net, cfg, r.sched) && |r.sched.lanes| == |h.sched.lanes| && r.sched.pf == h.sched.pf
            && r == h.(sched := r.sched) && AdmitsNow(r) == AdmitsNow(h) && Busy(r.sched) == Busy(h.sched)
  {
    MarkAllSound(net, cfg, h.sched, GoneLanes(h, gone));
    hide Sound;
  }

  lemma AdmittedSound(net: Network, cfg: Config, o: Replicated, h: Head)
    requires Sound(net, cfg, h.sched) && GateOk(cfg, h)
    ensures var r := Admitted(net, cfg, o, h); Sound(net, cfg, r.sched) && r.step == h.step
  {
    hide Sound;
    if AdmitsNow(h) {
      AdmitHeadSound(net, cfg, o, h);
      hide Next, InBounds;
    }
  }

  lemma MarkedSound(net: Network, cfg: Config, o: Replicated, h: Head, gone: nat -> bool)
    requires LegalOracle(cfg, o) && Sound(net, cfg, h.sched) && GateOk(cfg, h)
    ensures Sound(net, cfg, Marked(h, gone).sched) && GateOk(cfg, Marked(h, gone))
    ensures var h' := Admitted(net, cfg, o, Marked(h, gone));
            && CanAdvance(net, cfg, o, h.step, h'.sched) && Sound(net, cfg, Advance(net, cfg, o, h.step, h'.sched))
  {
    hide Sound, CanAdvance, Advance, Marked, Admitted, AdmitsNow, LegalOracle;
    MarkedHead(net, cfg, h, gone);
    AdmittedSound(net, cfg, o, Marked(h, gone));
    AdvanceSound(net, cfg, o, h.step, Admitted(net, cfg, o, Marked(h, gone)).sched);
  }

  /** Requests taken off the channel never exceed what the slot table can hold. */
  ghost predicate GateOk(cfg: Config, h: Head) {
    cfg.maxBatch > 0 && Busy(h.sched) + |h.pending| <= cfg.maxBatch && (h.waiting ==> Idle(h) && !h.closed)
  }

  /** What looking at the channel never changes, and what it leaves. */
  ghost predicate LooksLike(cfg: Config, h: Head, r: Head) {
    && GateOk(cfg, r) && r.sched == h.sched && r.step == h.step && r.admitted == h.admitted
    && r.open == h.open && r.arrived == h.arrived && r.ended == h.ended && (h.closed ==> r.closed)
    && r.pending + r.queue == h.pending + h.queue
    && (r.closed && !h.closed ==> r.queue == [] && !r.open)
    && (Idle(r) && !r.closed ==> r.queue == [] && r.open)
    && (r.waiting ==> Idle(r) && !r.closed)
  }

  lemma {:induction false} DrainKeeps(cfg: Config, h: Head)
    requires GateOk(cfg, h) && !h.waiting
    ensures LooksLike(cfg, h, Drain(cfg, h)) && !Drain(cfg, h).waiting
    ensures var r := Drain(cfg, h); !r.closed && Busy(r.sched) + |r.pending| < cfg.maxBatch ==> r.queue == []
    decreases |h.queue|
  {
    if !(h.closed || Busy(h.sched) + |h.pending| >= cfg.maxBatch) && h.queue != [] {
      var next := h.(pending := h.pending + [h.queue[0]], queue := h.queue[1..]);
      DrainKeeps(cfg, next);
      assert h.pending + [h.queue[0]] + h.queue[1..] == h.pending + h.queue;
    }
  }

  lemma LookKeeps(cfg: Config, h: Head)
    requires GateOk(cfg, h)
    ensures LooksLike(cfg, h, Look(cfg, h))
  {
    if h.waiting {
      if h.queue != [] {
        assert h.pending + [h.queue[0]] + h.queue[1..] == h.pending + h.queue;
      }
    } else {
      DrainKeeps(cfg, h);
    }
  }

  ghost function AdmitHead(net: Network, cfg: Config, o: Replicated, h: Head): Head
    requires Sound(net, cfg, h.sched) && h.pending != [] && h.sched.pf.None? && |h.sched.lanes| < cfg.maxBatch
  {
    NextSound(net, cfg, h.sched, Arrive(h.pending[0], o.active(h.step, h.sched)));
    h.(sched := Next(net, cfg, h.sched, Arrive(h.pending[0], o.active(h.step, h.sched))),
       pending := h.pending[1..], admitted := h.admitted + [h.pending[0]])
  }

  lemma AdmitHeadSound(net: Network, cfg: Config, o: Replicated, h: Head)
    requires Sound(net, cfg, h.sched) && h.pending != [] && h.sched.pf.None? && |h.sched.lanes| < cfg.maxBatch
    ensures Sound(net, cfg, AdmitHead(net, cfg, o, h).sched)
  {
    hide Sound, Next, InBounds;
    NextSound(net, cfg, h.sched, Arrive(h.pending[0], o.active(h.step, h.sched)));
  }

  // ------------------------------------------------------------------ the mirror

  /** Replay events in order. A cancel for an empty lane, or an admission that would meet a
      running cursor or a full slot table, is a desync. */
  ghost function Replay(net: Network, cfg: Config, o: Replicated, m: Mirror, events: seq<WireEvent>): Mirror {
    if events == [] then m
    else
      var before := Replay(net, cfg, o, m, events[..|events| - 1]);
      if before.fault != NoFault then before
      else match events[|events| - 1]
        case CancelEvent(lane) =>
          if lane < |before.sched.lanes| then before.(sched := Cancel(before.sched, lane))
          else before.(fault := Desync)
        case AdmitEvent(wr) =>
          var e := Arrive(IntoRequest(wr), o.active(m.step, before.sched));
          if Enabled(cfg, before.sched, e) && InBounds(net, cfg, before.sched, e)
          then before.(sched := Next(net, cfg, before.sched, e), admitted := before.admitted + [wr])
          else before.(fault := Desync)
  }

  /** The last event of a replay that raised no fault. */
  lemma ReplaySnoc(net: Network, cfg: Config, o: Replicated, m: Mirror, done: seq<WireEvent>, ev: WireEvent)
    requires Replay(net, cfg, o, m, done + [ev]).fault == NoFault
    ensures var before, after := Replay(net, cfg, o, m, done), Replay(net, cfg, o, m, done + [ev]);
            && before.fault == NoFault
            && match ev
               case CancelEvent(lane) =>
                 lane < |before.sched.lanes| && after == before.(sched := Cancel(before.sched, lane))
               case AdmitEvent(wr) =>
                 && before.sched.pf.None? && ShapeOk(cfg, before.sched) && CursorShape(cfg, before.sched)
                 && after == before.(sched := Scheduler.Admit(net, cfg, before.sched, IntoRequest(wr), o.active(m.step, before.sched)),
                                     admitted := before.admitted + [wr])
  {
    assert (done + [ev])[..|done|] == done;
    hide ShapeOk, CursorShape, Scheduler.Admit;
  }

  ghost function MirrorStep(net: Network, cfg: Config, o: Replicated, m: Mirror, msg: Msg): Mirror
    requires LegalOracle(cfg, o) && m.fault == NoFault
  {
    match msg
    case Shutdown => m.(fault := CleanExit)
    case StepMsg(step, events) =>
      if step != m.step then m.(fault := Desync)
      else
        var r := Replay(net, cfg, o, m, events);
        if r.fault != NoFault || !CanAdvance(net, cfg, o, m.step, r.sched) then r.(fault := Desync)
        else r.(sched := Advance(net, cfg, o, m.step, r.sched), step := m.step + 1)
  }

  // ------------------------------------------------------------------ lockstep

  /** The head is about to start a request with a schema. */
  predicate StartsSchema(cfg: Config, o: Replicated, h: Head) {
    && AdmitsNow(h) && h.pending[0].req.schema.Some?
    && !TooLong(cfg, |h.pending[0].req.prompt|, h.pending[0].req.maxNew, o.active(h.step, h.sched))
  }

  lemma {:induction false} ReplayMarks(net: Network, cfg: Config, o: Replicated, m: Mirror, ids: seq<nat>)
    requires m.fault == NoFault && Sound(net, cfg, m.sched)
    requires forall k :: 0 <= k < |ids| ==> ids[k] < |m.sched.lanes|
    ensures Replay(net, cfg, o, m, CancelEvents(ids)) == m.(sched := MarkAll(m.sched, ids))
    decreases |ids|
  {
    hide Sound;
    if ids != [] {
      var init := ids[..|ids| - 1];
      ReplayMarks(net, cfg, o, m, init);
      MarkAllSound(net, cfg, m.sched, init);
      assert CancelEvents(ids)[..|ids| - 1] == CancelEvents(init);
    }
  }

  /** Replaying what the head wrote brings the mirror to the head's scheduler, with no fault,
      exactly unless that admission started a request with a schema. */
  lemma ReplayFollows(net: Network, cfg: Config, o: Replicated, h: Head, m: Mirror, gone: nat -> bool)
    requires Sound(net, cfg, h.sched) && GateOk(cfg, h) && m == Mirror(h.sched, h.step, Wires(h.admitted), NoFault)
    ensures Sound(net, cfg, Marked(h, gone).sched) && GateOk(cfg, Marked(h, gone))
    ensures var h', m' := Admitted(net, cfg, o, Marked(h, gone)), Replay(net, cfg, o, m, EventsOf(h, gone));
            && m'.fault == NoFault && m'.step == h.step && m'.admitted == Wires(h'.admitted)
            && (m'.sched == h'.sched <==> !StartsSchema(cfg, o, Marked(h, gone)))
  {
    var ids := GoneLanes(h, gone);
    NewlyGoneInTable(h.sched, gone, |h.sched.lanes|);
    ReplayMarks(net, cfg, o, m, ids);
    MarkedHead(net, cfg, h, gone);
    var marked := Marked(h, gone);
    var cancels := CancelEvents(ids);
    assert Replay(net, cfg, o, m, cancels) == m.(sched := marked.sched);
    GateSame(cfg, h, marked);
    hide MarkAll, Sound, Marked, NewlyGone, GateOk;
    if AdmitsNow(h) {
      ReplayAdmit(net, cfg, o, marked, m, cancels);
    } else {
      assert cancels + [] == cancels;
    }
  }

  lemma ReplayAdmit(net: Network, cfg: Config, o: Replicated, h: Head, m: Mirror, done: seq<WireEvent>)
    requires Sound(net, cfg, h.sched) && GateOk(cfg, h) && AdmitsNow(h) && m.step == h.step && m.admitted == Wires(h.admitted)
    requires Replay(net, cfg, o, m, done) == m.(sched := h.sched) && m.fault == NoFault
    ensures var h', m' := Admitted(net, cfg, o, h), Replay(net, cfg, o, m, done + [AdmitEvent(ToWire(h.pending[0]))]);
            && m'.fault == NoFault && m'.step == h.step && m'.admitted == Wires(h'.admitted)
            && (m'.sched == h'.sched <==> !StartsSchema(cfg, o, h))
  {
    hide Sound, Next, InBounds, Enabled, Scheduler.Admit, TooLong, ShapeOk;
    var a := h.pending[0];
    var spec := o.active(h.step, h.sched);
    GateLeavesRoom(cfg, h);
    assert (done + [AdmitEvent(ToWire(a))])[..|done|] == done;
    assert Wires(h.admitted + [a]) == Wires(h.admitted) + [ToWire(a)];
    ArriveIs(net, cfg, h.sched, a, spec);
    ArriveIs(net, cfg, h.sched, IntoRequest(ToWire(a)), spec);
    FreeSlot(net, cfg, h.sched);
    AdmitSplits(net, cfg, h.sched, a, spec);
  }

  lemma ArriveIs(net: Network, cfg: Config, st: Sched, a: Arrival, spec: bool)
    requires Sound(net, cfg, st) && st.pf.None? && |st.lanes| < cfg.maxBatch
    ensures ShapeOk(cfg, st) && Enabled(cfg, st, Arrive(a, spec)) && InBounds(net, cfg, st, Arrive(a, spec))
    ensures Next(net, cfg, st, Arrive(a, spec)) == Scheduler.Admit(net, cfg, st, a, spec)
  {
    SoundInBounds(net, cfg, st, Arrive(a, spec));
    hide Inv, Faithful, Scheduler.Admit;
  }

  lemma FreeSlot(net: Network, cfg: Config, st: Sched)
    requires Sound(net, cfg, st) && st.pf.None? && |st.lanes| < cfg.maxBatch
    ensures st.free != []
  {
    SlotsConserved(cfg, st);
    hide Owned, Faithful;
  }

  lemma GateLeavesRoom(cfg: Config, h: Head)
    requires GateOk(cfg, h) && AdmitsNow(h)
    ensures |h.sched.lanes| < cfg.maxBatch
  {
  }

  lemma GateSame(cfg: Config, h: Head, h': Head)
    requires GateOk(cfg, h) && Busy(h'.sched) == Busy(h.sched) && h'.pending == h.pending
    requires h'.waiting == h.waiting && h'.closed == h.closed
    ensures GateOk(cfg, h')
  {
  }

  /** Admission and the step that follows never load the table past its width. */
  lemma BusyAfterAdmit(net: Network, cfg: Config, st: Sched, a: Arrival, spec: bool)
    requires Sound(net, cfg, st) && st.pf.None? && |st.lanes| < cfg.maxBatch
    ensures Enabled(cfg, st, Arrive(a, spec)) && InBounds(net, cfg, st, Arrive(a, spec))
    ensures Busy(Next(net, cfg, st, Arrive(a, spec))) <= Busy(st) + 1
  {
    hide Inv, Faithful, Choice, TooLong, Restore, ShapeOk;
    SoundInBounds(net, cfg, st, Arrive(a, spec));
  }

  lemma {:induction false} KeptFewer(lanes: seq<Lane>, over: seq<bool>)
    requires |lanes| == |over|
    ensures |Kept(lanes, over)| <= |lanes|
    decreases |lanes|
  {
    if lanes != [] {
      KeptFewer(lanes[..|lanes| - 1], over[..|lanes| - 1]);
    }
  }

  lemma BusyAfterWindow(net: Network, cfg: Config, st: Sched)
    requires InBounds(net, cfg, st, Window) && Enabled(cfg, st, Window)
    ensures Busy(Next(net, cfg, st, Window)) <= Busy(st)
  {
    hide ShapeOk, SnapshotDev, SnapshotSlot, WindowEnd;
  }

  lemma BusyAfterStep(net: Network, cfg: Config, st: Sched, inp: StepIn)
    requires InBounds(net, cfg, st, Step(inp)) && Enabled(cfg, st, Step(inp))
    ensures Busy(Next(net, cfg, st, Step(inp))) <= Busy(st)
  {
    hide ShapeOk, ServeFirst, Kept;
    var p := ServeFirst(net, cfg, st, inp, |st.lanes|);
    ServedKeepsPf(net, cfg, st, inp, |st.lanes|);
    KeptFewer(p.st.lanes, p.over);
  }

  lemma BusyAfterPacked(net: Network, cfg: Config, st: Sched, packs: ForestIn)
    requires InBounds(net, cfg, st, PackedStep(packs)) && Enabled(cfg, st, PackedStep(packs))
    ensures Busy(Next(net, cfg, st, PackedStep(packs))) <= Busy(st)
  {
    var p, order := PackedPass(net, cfg, st, packs), Singles(st.lanes, packs);
    PassSizes(net, cfg, st, packs);
    PassKeepsPf(net, cfg, st, packs, |Packed(st.lanes, packs)|);
    var r := ServeEach(net, cfg, p, packs, order, |order|);
    KeptFewer(r.st.lanes, r.over);
    hide ShapeOk, ServeEach, PackedFirst, Packed, Singles, Kept, ForestOk, ForestLegal, EachFits;
  }

  lemma {:induction false} PassKeepsPf(net: Network, cfg: Config, st: Sched, packs: ForestIn, k: nat)
    requires PacksFit(cfg, st, packs) && k <= |Packed(st.lanes, packs)|
    ensures PackedFirst(net, cfg, st, packs, k).st.pf == st.pf
    decreases k
  {
    hide PackedDev, PackServed, PacksOf, Packed, Update, PacksFit;
    if k > 0 {
      hide PackedFirst;
      PassKeepsPf(net, cfg, st, packs, k - 1);
      var r := PackedUnroll(net, cfg, st, packs, k);
    }
  }

  lemma {:induction false} ServedKeepsPf(net: Network, cfg: Config, st: Sched, inp: StepIn, k: nat)
    requires DecodeOk(cfg, st, inp) && k <= |st.lanes|
    ensures ServeFirst(net, cfg, st, inp, k).st.pf == st.pf
    decreases k
  {
    if k > 0 {
      ServedKeepsPf(net, cfg, st, inp, k - 1);
      hide Serve, Update, LaneFits, ShapeOk;
    }
  }

  lemma BusyAfterAdvance(net: Network, cfg: Config, o: Replicated, step: nat, st: Sched)
    requires CanAdvance(net, cfg, o, step, st)
    ensures Busy(Advance(net, cfg, o, step, st)) <= Busy(st)
  {
    hide Next, InBounds, Enabled, Busy;
    BusyAfterWindow(net, cfg, st);
    var st1 := Next(net, cfg, st, Window);
    if st1.lanes != [] {
      match o.decode(step, st1)
      case Together(inp) => BusyAfterStep(net, cfg, st1, inp);
      case Packing(packs) => BusyAfterPacked(net, cfg, st1, packs);
    }
  }

  /** Bookkeeping of requests: each one is admitted, pending or queued, in arrival order. */
  ghost predicate InOrder(h: Head) {
    && h.arrived == h.admitted + h.pending + h.queue
    && (h.closed ==> h.queue == [] && !h.open)
  }

  lemma LookedInOrder(cfg: Config, h: Head, w: World)
    requires GateOk(cfg, h) && InOrder(h)
    ensures var r := Look(cfg, Receive(h, w));
            && GateOk(cfg, r) && InOrder(r) && r.sched == h.sched && r.step == h.step && r.admitted == h.admitted
            && r.ended == h.ended
  {
    var h1 := Receive(h, w);
    LookKeeps(cfg, h1);
    hide Look;
    assert h.admitted + h.pending + h.queue + w.arrivals == h.admitted + h.pending + (h.queue + w.arrivals);
    var r := Look(cfg, h1);
    assert r.admitted + r.pending + r.queue == r.admitted + (r.pending + r.queue);
    assert h1.admitted + h1.pending + h1.queue == h1.admitted + (h1.pending + h1.queue);
  }

  lemma AdmittedInOrder(net: Network, cfg: Config, o: Replicated, h: Head)
    requires Sound(net, cfg, h.sched) && h.pending != [] && h.sched.pf.None? && |h.sched.lanes| < cfg.maxBatch
    requires InOrder(h) && GateOk(cfg, h)
    ensures InOrder(AdmitHead(net, cfg, o, h)) && GateOk(cfg, AdmitHead(net, cfg, o, h))
  {
    hide Sound, Next, InBounds;
    BusyAfterAdmit(net, cfg, h.sched, h.pending[0], o.active(h.step, h.sched));
    assert h.admitted + [h.pending[0]] + h.pending[1..] == h.admitted + h.pending;
  }

  /** The head and mirror as one system, between steps. */
  ghost predicate Twins(net: Network, cfg: Config, h: Head, m: Mirror) {
    && Sound(net, cfg, h.sched) && GateOk(cfg, h) && InOrder(h) && !h.ended
    && m == Mirror(h.sched, h.step, Wires(h.admitted), NoFault)
  }

  /** Shutdown finds nothing in flight, and every request admitted once, in arrival order. */
  ghost predicate CleanEnd(h: Head, m: Mirror) {
    && h.ended && m.fault == CleanExit && m.sched == h.sched && m.admitted == Wires(h.admitted)
    && h.sched.lanes == [] && h.sched.pf.None? && h.pending == [] && h.queue == [] && h.admitted == h.arrived
  }

  lemma WorkInOrder(net: Network, cfg: Config, o: Replicated, h: Head, gone: nat -> bool)
    requires LegalOracle(cfg, o) && Sound(net, cfg, h.sched) && GateOk(cfg, h) && InOrder(h)
    ensures InOrder(Work(net, cfg, o, h, gone)) && GateOk(cfg, Work(net, cfg, o, h, gone))
    ensures Work(net, cfg, o, h, gone).ended == h.ended
  {
    hide Marked, Sound, LegalOracle, Next, CanAdvance, Advance, InBounds;
    MarkedSound(net, cfg, o, h, gone);
    MarkedHead(net, cfg, h, gone);
    var marked := Marked(h, gone);
    if AdmitsNow(marked) {
      AdmittedInOrder(net, cfg, o, marked);
    }
    BusyAfterAdvance(net, cfg, o, h.step, Admitted(net, cfg, o, marked).sched);
  }

  /** A head iteration with work to do, and the mirror's replay of its message. */
  lemma StepTwins(net: Network, cfg: Config, o: Replicated, h: Head, m: Mirror, gone: nat -> bool)
    requires LegalOracle(cfg, o) && Twins(net, cfg, h, m) && !h.waiting && !StartsSchema(cfg, o, Marked(h, gone))
    ensures Twins(net, cfg, Work(net, cfg, o, h, gone), MirrorStep(net, cfg, o, m, StepMsg(h.step, EventsOf(h, gone))))
  {
    hide Marked, Sound, LegalOracle, CanAdvance, Advance, Admitted, InOrder, GateOk, EventsOf, Replay, AdmitsNow;
    WorkInOrder(net, cfg, o, h, gone);
    MarkedSound(net, cfg, o, h, gone);
    ReplayFollows(net, cfg, o, h, m, gone);
  }

  /** An iteration that ships a step, and in it starts a request with a schema. */
  ghost predicate SchemaStep(cfg: Config, o: Replicated, h: Head, w: World) {
    var r := Look(cfg, Receive(h, w));
    !Idle(r) && StartsSchema(cfg, o, Marked(r, w.gone))
  }

  /** One iteration, whatever arrives, hangs up or goes away, that starts no schema request: the
      mirror's replay keeps it the head's twin, or both end cleanly. */
  lemma RoundKeepsTwins(net: Network, cfg: Config, o: Replicated, h: Head, m: Mirror, w: World)
    requires LegalOracle(cfg, o) && Twins(net, cfg, h, m) && !SchemaStep(cfg, o, h, w)
    ensures match HeadStep(net, cfg, o, h, w)
            case Blocked(h') => Twins(net, cfg, h', m)
            case Sent(h', msg) =>
              var m' := MirrorStep(net, cfg, o, m, msg);
              if msg.Shutdown? then CleanEnd(h', m') else Twins(net, cfg, h', m')
  {
    LookedInOrder(cfg, h, w);
    var r := Look(cfg, Receive(h, w));
    if Idle(r) {
      hide Sound, LegalOracle, Look, Receive, Work, EventsOf, Marked;
      if r.closed {
        EndsClean(r);
      }
    } else {
      hide Sound, LegalOracle, Look, Receive, InOrder, Work, EventsOf, Marked, StartsSchema;
      StepTwins(net, cfg, o, r, m, w.gone);
    }
  }

  lemma EndsClean(h: Head)
    requires InOrder(h) && h.closed && Idle(h)
    ensures h.queue == [] && h.admitted == h.arrived && h.sched.lanes == [] && h.sched.pf.None?
  {
    assert h.admitted + [] + [] == h.admitted;
  }

  /** A message that gets lost is noticed: the next step message finds the mirror behind, and it
      stops with its scheduler as it was. */
  lemma LostMessage(net: Network, cfg: Config, o: Replicated, h: Head, m: Mirror, w: World, w': World)
    requires LegalOracle(cfg, o) && Twins(net, cfg, h, m) && HeadStep(net, cfg, o, h, w).Sent? && HeadStep(net, cfg, o, h, w).msg.StepMsg?
    ensures var h1 := HeadStep(net, cfg, o, h, w).head;
            && Sound(net, cfg, h1.sched) && GateOk(cfg, h1) && !h1.ended
            && var s := HeadStep(net, cfg, o, h1, w');
               s.Sent? && s.msg.StepMsg? ==> MirrorStep(net, cfg, o, m, s.msg) == m.(fault := Desync)
  {
    hide LegalOracle, Look, Marked, Admitted, Advance, CanAdvance, EventsOf, Replay, Work;
    hide Sound, InOrder, GateOk;
    TwinsHead(net, cfg, h, m);
    LookedInOrder(cfg, h, w);
    var r := Look(cfg, Receive(h, w));
    SteppedHead(net, cfg, o, r, w.gone);
    ReceivedGate(cfg, HeadStep(net, cfg, o, h, w).head, w');
    LookKeeps(cfg, Receive(HeadStep(net, cfg, o, h, w).head, w'));
  }

  lemma ReceivedGate(cfg: Config, h: Head, w: World)
    requires GateOk(cfg, h)
    ensures GateOk(cfg, Receive(h, w)) && Receive(h, w).step == h.step
  {
  }

  lemma TwinsHead(net: Network, cfg: Config, h: Head, m: Mirror)
    requires Twins(net, cfg, h, m)
    ensures Sound(net, cfg, h.sched) && GateOk(cfg, h) && InOrder(h) && !h.ended && m.step == h.step && m.fault == NoFault
  {
    hide Sound, InOrder, GateOk;
  }

  lemma SteppedHead(net: Network, cfg: Config, o: Replicated, h: Head, gone: nat -> bool)
    requires LegalOracle(cfg, o) && Sound(net, cfg, h.sched) && GateOk(cfg, h) && InOrder(h)
    ensures var r := Work(net, cfg, o, h, gone);
            Sound(net, cfg, r.sched) && GateOk(cfg, r) && r.ended == h.ended && r.step == h.step + 1
  {
    hide LegalOracle, Marked, Admitted, Advance, CanAdvance, Sound, InOrder, GateOk;
    WorkInOrder(net, cfg, o, h, gone);
    MarkedSound(net, cfg, o, h, gone);
  }

  // ------------------------------------------------------------------ whole sessions

  /** A session's states: each follows from the one before by one head iteration and, if it
      shipped a message, the mirror's replay. */
  ghost predicate SessionStep(net: Network, cfg: Config, o: Replicated, h: Head, m: Mirror, w: World, h': Head, m': Mirror)
    requires LegalOracle(cfg, o)
  {
    if Sound(net, cfg, h.sched) && !h.ended && GateOk(cfg, h) && m.fault == NoFault then
      match HeadStep(net, cfg, o, h, w)
      case Blocked(next) => h' == next && m' == m
      case Sent(next, msg) => h' == next && m' == MirrorStep(net, cfg, o, m, msg)
    else h' == h && m' == m
  }

  ghost predicate Session(net: Network, cfg: Config, o: Replicated, hs: seq<Head>, ms: seq<Mirror>, ws: seq<World>)
    requires LegalOracle(cfg, o)
  {
    && |hs| == |ms| == |ws| + 1 && cfg.maxBatch > 0 && GridMode(cfg)
    && Fresh(cfg, hs[0].sched) && hs[0] == Head(hs[0].sched, [], [], true, false, false, 0, [], [], false)
    && ms[0] == Mirror(hs[0].sched, 0, [], NoFault)
    && forall k :: 0 <= k < |ws| ==> SessionStep(net, cfg, o, hs[k], ms[k], ws[k], hs[k + 1], ms[k + 1])
  }

  /** Equal and running, or ended cleanly together. */
  ghost predicate InStep(net: Network, cfg: Config, h: Head, m: Mirror) {
    Twins(net, cfg, h, m) || CleanEnd(h, m)
  }

  lemma StaysInStep(net: Network, cfg: Config, o: Replicated, h: Head, m: Mirror, w: World, h': Head, m': Mirror)
    requires LegalOracle(cfg, o) && SessionStep(net, cfg, o, h, m, w, h', m')
    requires InStep(net, cfg, h, m) && !SchemaStep(cfg, o, h, w)
    ensures InStep(net, cfg, h', m')
  {
    hide LegalOracle, Sound, InOrder, HeadStep, MirrorStep, GateOk, SchemaStep;
    if Twins(net, cfg, h, m) {
      RoundKeepsTwins(net, cfg, o, h, m, w);
    }
  }

  /** No iteration before the k-th that the head ran started a request with a schema. */
  ghost predicate NoSchemaStarted(cfg: Config, o: Replicated, hs: seq<Head>, ws: seq<World>, k: nat)
    requires k <= |hs| && k <= |ws|
  {
    forall i :: 0 <= i < k && !hs[i].ended ==> !SchemaStep(cfg, o, hs[i], ws[i])
  }

  /** In every session, while no request with a schema has been started, the ranks hold equal
      schedulers after every message, no message is a desync, and an ended session admitted
      everything in order. */
  lemma {:induction false} RanksNeverPart(net: Network, cfg: Config, o: Replicated, hs: seq<Head>, ms: seq<Mirror>, ws: seq<World>, k: nat)
    requires LegalOracle(cfg, o) && Session(net, cfg, o, hs, ms, ws) && k <= |ws| && NoSchemaStarted(cfg, o, hs, ws, k)
    ensures InStep(net, cfg, hs[k], ms[k])
    decreases k
  {
    if k == 0 {
      FreshSound(net, cfg, hs[0].sched);
    } else {
      assert NoSchemaStarted(cfg, o, hs, ws, k - 1);
      RanksNeverPart(net, cfg, o, hs, ms, ws, k - 1);
      assert SessionStep(net, cfg, o, hs[k - 1], ms[k - 1], ws[k - 1], hs[k], ms[k]);
      assert !hs[k - 1].ended ==> !SchemaStep(cfg, o, hs[k - 1], ws[k - 1]);
      hide LegalOracle, Sound, Fresh, InOrder, HeadStep, MirrorStep, GateOk, SchemaStep;
      if hs[k - 1].ended {
        hide Session;
      } else {
        StaysInStep(net, cfg, o, hs[k - 1], ms[k - 1], ws[k - 1], hs[k], ms[k]);
      }
    }
  }

  // ------------------------------------------------------------------ where they part

  /** Once its events are replayed, the step that this iteration ships finds both ranks with the
      same scheduler. */
  ghost predicate AdmitsAlike(net: Network, cfg: Config, o: Replicated, h: Head, m: Mirror, w: World) {
    var r := Look(cfg, Receive(h, w));
    !h.ended && Sound(net, cfg, r.sched) && GateOk(cfg, r) && !Idle(r) ==>
      MarksSound(net, cfg, r, w.gone)
      && Replay(net, cfg, o, m, EventsOf(r, w.gone)).sched == Admitted(net, cfg, o, Marked(r, w.gone)).sched
  }

  ghost predicate MarksSound(net: Network, cfg: Config, h: Head, gone: nat -> bool) {
    Sound(net, cfg, Marked(h, gone).sched) && GateOk(cfg, Marked(h, gone))
  }

  lemma TwinsAdmitAlike(net: Network, cfg: Config, o: Replicated, h: Head, m: Mirror, w: World)
    requires Twins(net, cfg, h, m)
    ensures AdmitsAlike(net, cfg, o, h, m, w) <==> !SchemaStep(cfg, o, h, w)
  {
    LookedInOrder(cfg, h, w);
    var r := Look(cfg, Receive(h, w));
    if !Idle(r) {
      hide Sound, Look, Receive, InOrder, EventsOf, Marked, StartsSchema, Admitted, Replay, GateOk;
      ReplayFollows(net, cfg, o, r, m, w.gone);
    }
  }

  /** In every session the two schedulers are the same after the admissions of every step exactly
      as long as no request with a schema has been started; one that is turned away harms nothing. */
  lemma {:induction false} AlikeExactly(net: Network, cfg: Config, o: Replicated, hs: seq<Head>, ms: seq<Mirror>, ws: seq<World>, k: nat)
    requires LegalOracle(cfg, o) && Session(net, cfg, o, hs, ms, ws) && k <= |ws|
    ensures (forall i :: 0 <= i < k ==> AdmitsAlike(net, cfg, o, hs[i], ms[i], ws[i])) <==> NoSchemaStarted(cfg, o, hs, ws, k)
    decreases k
  {
    hide LegalOracle, AdmitsAlike, SchemaStep, InStep, SessionStep, Fresh;
    if k > 0 {
      AlikeExactly(net, cfg, o, hs, ms, ws, k - 1);
      if NoSchemaStarted(cfg, o, hs, ws, k - 1) {
        RanksNeverPart(net, cfg, o, hs, ms, ws, k - 1);
        LastAlike(net, cfg, o, hs[k - 1], ms[k - 1], ws[k - 1]);
      }
    }
  }

  lemma LastAlike(net: Network, cfg: Config, o: Replicated, h: Head, m: Mirror, w: World)
    requires InStep(net, cfg, h, m)
    ensures AdmitsAlike(net, cfg, o, h, m, w) <==> h.ended || !SchemaStep(cfg, o, h, w)
  {
    if Twins(net, cfg, h, m) {
      TwinsAdmitAlike(net, cfg, o, h, m, w);
    }
    hide Sound, Look, GateOk;
  }
}
