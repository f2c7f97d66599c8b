// The work runs out: a turn of the serve loop that has anything to do leaves less of it, so every
// queue is served to its end, and every arrival gets exactly one outcome.

module SchedLive {
  import opened Wrappers
  import opened Trunk
  import opened Device
  import opened GreedyLane
  import opened Slots
  import opened LaneSteps
  import opened Scheduler
  import opened SchedInvariant
  import opened SchedPrefill
  import opened SchedForest
  import opened SchedStreams
  import opened SchedRuns
  import opened SchedTurns
  import opened SchedAnswers
  import opened SchedJobs

  // ------------------------------------------------------------------ what is left to do

  /** The tokens a lane may still send, and the step that ends it. */
  function LaneLoad(l: Lane): nat {
    Monus(l.req.maxNew, |l.sent|) + 1
  }

  function Loads(lanes: seq<Lane>): nat {
    if lanes == [] then 0 else Loads(lanes[..|lanes| - 1]) + LaneLoad(lanes[|lanes| - 1])
  }

  /** The prompt tokens a prefill has not consumed, its installation, and the answer. */
  function CursorLoad(pf: Option<Cursor>): nat {
    match pf
    case None => 0
    case Some(c) => Monus(|c.req.prompt|, c.w0) + c.req.maxNew + 2
  }

  function Load(st: Sched): nat {
    Loads(st.lanes) + CursorLoad(st.pf)
  }

  function ArrivalLoad(a: Arrival): nat {
    |a.req.prompt| + a.req.maxNew + 2
  }

  function QueueLoad(queue: seq<Arrival>): nat {
    if queue == [] then 0 else ArrivalLoad(queue[0]) + QueueLoad(queue[1..])
  }

  predicate Idle(st: Sched) {
    st.lanes == [] && st.pf.None?
  }

  // ------------------------------------------------------------------ decode steps

  /** Every lane that goes on has come at least one token nearer to its budget. */
  lemma LaneTires(net: Network, cfg: Config, st: Sched, m: Sched, over: seq<bool>, roles: Roles, i: nat)
    requires i < |st.lanes| == |m.lanes| && st.lanes[i].phys < |st.slots| == |m.slots|
    requires Turned(cfg, st, m, over, roles, i) && i < |over| && !over[i]
    requires LaneLaw(net, cfg, st.lanes[i], st.slots[st.lanes[i].phys].cache)
    ensures LaneLoad(m.lanes[i]) < LaneLoad(st.lanes[i])
  {
    hide BookedBy, HowOk, LaneLaw;
    var how :| TurnedBy(cfg, st, m, over, roles, i, how);
    LaneSent(net, cfg, st.lanes[i], st.slots[st.lanes[i].phys].cache);
    BookedLaw(cfg, st.lanes[i], st.slots[st.lanes[i].phys].cache, how);
  }

  lemma {:induction false} KeptTires(lanes: seq<Lane>, lanes': seq<Lane>, over: seq<bool>)
    requires |lanes| == |lanes'| == |over|
    requires forall i :: 0 <= i < |lanes| && !over[i] ==> LaneLoad(lanes'[i]) < LaneLoad(lanes[i])
    ensures Loads(Kept(lanes', over)) + |lanes| <= Loads(lanes)
    decreases |lanes|
  {
    if lanes != [] {
      var n := |lanes| - 1;
      hide LaneLoad;
      KeptTires(lanes[..n], lanes'[..n], over[..n]);
      var k := Kept(lanes'[..n], over[..n]);
      if !over[n] {
        assert (k + [lanes'[n]])[..|k|] == k;
      } else {
        assert Kept(lanes', over) == k;
        assert LaneLoad(lanes[n]) >= 1 by { SomeLoad(lanes[n]); }
      }
    }
  }

  lemma SomeLoad(l: Lane)
    ensures LaneLoad(l) >= 1
  {
  }

  lemma DecodedTires(net: Network, cfg: Config, st: Sched, st': Sched, roles: Roles)
    requires Lawful(net, cfg, st) && Decoded(cfg, st, st', roles)
    ensures Load(st') + |st.lanes| <= Load(st)
  {
    hide Turned, LaneLaw, AnswerLaw, LaneLoad, Loads, CursorLoad;
    var m, over :| DecodedBy(cfg, st, st', roles, m, over);
    forall i | 0 <= i < |st.lanes| && !over[i] ensures LaneLoad(m.lanes[i]) < LaneLoad(st.lanes[i]) {
      LaneTires(net, cfg, st, m, over, roles, i);
    }
    KeptTires(st.lanes, m.lanes, over);
    CompactedParts(m, over);
  }

  // ------------------------------------------------------------------ windows and arrivals

  /** A window consumes prompt tokens, or turns the cursor into a lane with less left to do. */
  lemma WindowTires(net: Network, cfg: Config, st: Sched)
    requires ShapeOk(cfg, st) && CursorShape(cfg, st)
    ensures var r := PfAdvance(net, cfg, st); Load(r) + (if st.pf.Some? then 1 else 0) <= Load(st)
  {
    hide RunWindow, PfFinish, Loads;
    if st.pf.Some? {
      var c := st.pf.value;
      if c.w0 >= |c.req.prompt| {
        FinishTires(cfg, st, c);
      } else {
        var r := RunWindow(net, cfg, st, c);
        RunTires(net, cfg, st, c);
        if r.pf.value.w0 >= |c.req.prompt| {
          FinishTires(cfg, r, r.pf.value);
        }
      }
    }
  }

  lemma RunTires(net: Network, cfg: Config, st: Sched, c: Cursor)
    requires ShapeOk(cfg, st) && CursorShape(cfg, st) && st.pf == Some(c) && c.w0 < |c.req.prompt|
    ensures RunWindow(net, cfg, st, c).pf.Some? && Load(RunWindow(net, cfg, st, c)) < Load(st)
  {
    hide SnapshotDev, SnapshotSlot, Consume, WindowEnd, Loads;
  }

  lemma FinishTires(cfg: Config, st: Sched, c: Cursor)
    requires ShapeOk(cfg, st) && st.pf == Some(c)
    ensures Load(PfFinish(cfg, st, c)) < Load(st)
  {
    hide CopyCell, Loads;
    LoadsSnoc(st.lanes, Install(c));
  }

  lemma LoadsSnoc(lanes: seq<Lane>, l: Lane)
    ensures Loads(lanes + [l]) == Loads(lanes) + LaneLoad(l)
  {
    assert (lanes + [l])[..|lanes|] == lanes;
  }

  /** An arrival brings no more work than it asks for. */
  lemma ArrivalBrings(net: Network, cfg: Config, st: Sched, a: Arrival, spec: bool)
    requires ShapeOk(cfg, st) && st.pf.None? && st.free != []
    ensures Load(Admit(net, cfg, st, a, spec)) <= Load(st) + ArrivalLoad(a)
  {
    var j := AdmitGrants(net, cfg, st, a, spec);
    hide Admit, Loads, Servable;
  }

  // ------------------------------------------------------------------ what has been reached

  function ArrivalsOf(es: seq<Event>): (r: seq<Arrival>) {
    if es == [] then []
    else ArrivalsOf(es[..|es| - 1]) + (if es[|es| - 1].Arrive? then [es[|es| - 1].arrival] else [])
  }

  /** Some run of the serve loop that took exactly these arrivals, in this order, ends in `st`. */
  ghost predicate Reached(net: Network, cfg: Config, st: Sched, took: seq<Arrival>) {
    exists sts, es :: ReachedBy(net, cfg, st, took, sts, es)
  }

  ghost predicate ReachedBy(net: Network, cfg: Config, st: Sched, took: seq<Arrival>, sts: seq<Sched>, es: seq<Event>) {
    IsRun(net, cfg, sts, es) && sts[|es|] == st && ArrivalsOf(es) == took
  }

  lemma ReachedIs(net: Network, cfg: Config, st: Sched, took: seq<Arrival>)
    requires Reached(net, cfg, st, took)
    ensures Sound(net, cfg, st) && Lawful(net, cfg, st)
  {
    hide Sound, Lawful, IsRun;
    var sts, es :| ReachedBy(net, cfg, st, took, sts, es);
    EveryRunIsSound(net, cfg, sts, es, |es|);
    EveryRunIsLawful(net, cfg, sts, es, |es|);
  }

  /** One more step of a run. */
  lemma RunGrows(net: Network, cfg: Config, sts: seq<Sched>, es: seq<Event>, e: Event, next: Sched)
    requires IsRun(net, cfg, sts, es) && Enabled(cfg, sts[|es|], e)
    requires InBounds(net, cfg, sts[|es|], e) ==> next == Next(net, cfg, sts[|es|], e)
    ensures IsRun(net, cfg, sts + [next], es + [e])
  {
    hide Next, Enabled, InBounds, Fresh;
    forall k | 0 <= k < |es + [e]| ensures StepOk(net, cfg, sts + [next], es + [e], k) {
      if k < |es| {
        assert StepOk(net, cfg, sts, es, k);
      }
    }
  }

  lemma ReachedNext(net: Network, cfg: Config, st: Sched, took: seq<Arrival>, e: Event)
    requires Reached(net, cfg, st, took) && Enabled(cfg, st, e)
    ensures InBounds(net, cfg, st, e) && Reached(net, cfg, Next(net, cfg, st, e), took + (if e.Arrive? then [e.arrival] else []))
  {
    hide Sound, Lawful, Next, Enabled, InBounds, IsRun;
    ReachedIs(net, cfg, st, took);
    SoundInBounds(net, cfg, st, e);
    var sts, es :| ReachedBy(net, cfg, st, took, sts, es);
    var next := Next(net, cfg, st, e);
    RunShape(net, cfg, sts, es);
    RunGrows(net, cfg, sts, es, e, next);
    assert (es + [e])[..|es|] == es;
    assert ReachedBy(net, cfg, next, took + (if e.Arrive? then [e.arrival] else []), sts + [next], es + [e]);
  }

  lemma RunShape(net: Network, cfg: Config, sts: seq<Sched>, es: seq<Event>)
    requires IsRun(net, cfg, sts, es)
    ensures |sts| == |es| + 1
  {
    hide Fresh;
  }

  // ------------------------------------------------------------------ one turn

  /** The gate has a slot behind it, so an arrival is taken, and is no more work than it asks for. */
  lemma TakesArrival(net: Network, cfg: Config, st: Sched, took: seq<Arrival>, a: Arrival, active: bool)
    requires Reached(net, cfg, st, took) && st.pf.None? && |st.lanes| < cfg.maxBatch
    ensures Enabled(cfg, st, Arrive(a, active)) && InBounds(net, cfg, st, Arrive(a, active))
    ensures var s := Next(net, cfg, st, Arrive(a, active)); Reached(net, cfg, s, took + [a]) && Load(s) <= Load(st) + ArrivalLoad(a)
  {
    hide Reached, Lawful, Load, ArrivalLoad, Faithful, SlotsOk, LanesOk, CursorOk, Owned, Admit;
    ReachedNext(net, cfg, st, took, Arrive(a, active));
    ReachedIs(net, cfg, st, took);
    SlotsConserved(cfg, st);
    ArrivalBrings(net, cfg, st, a, active);
  }

  lemma {:induction false} DrainTakes(net: Network, cfg: Config, st: Sched, took: seq<Arrival>, queue: seq<Arrival>, active: bool)
    requires Reached(net, cfg, st, took) && Sound(net, cfg, st)
    ensures var (s, rest) := Drained(net, cfg, st, queue, active);
            && |rest| <= |queue| && rest == queue[|queue| - |rest|..]
            && Reached(net, cfg, s, took + queue[..|queue| - |rest|])
            && Load(s) + QueueLoad(rest) <= Load(st) + QueueLoad(queue)
    decreases |queue|
  {
    hide *;
    if st.pf.None? && |st.lanes| < cfg.maxBatch && queue != [] {
      TakesArrival(net, cfg, st, took, queue[0], active);
      ArriveSound(net, cfg, st, queue[0], active);
      var next := Next(net, cfg, st, Arrive(queue[0], active));
      DrainTakes(net, cfg, next, took + [queue[0]], queue[1..], active);
      DrainUnrolls(net, cfg, st, queue, active);
      var rest := Drained(net, cfg, st, queue, active).1;
      RestOfRest(queue, rest);
      TakenFirst(took, queue, |queue| - |rest|);
      QueueFirst(queue);
    } else {
      DrainedStops(net, cfg, st, queue, active);
      assert took + queue[..0] == took;
    }
  }

  lemma DrainUnrolls(net: Network, cfg: Config, st: Sched, queue: seq<Arrival>, active: bool)
    requires Sound(net, cfg, st) && st.pf.None? && |st.lanes| < cfg.maxBatch && queue != []
    requires Enabled(cfg, st, Arrive(queue[0], active)) && InBounds(net, cfg, st, Arrive(queue[0], active))
    requires Sound(net, cfg, Next(net, cfg, st, Arrive(queue[0], active)))
    ensures Drained(net, cfg, st, queue, active) == Drained(net, cfg, Next(net, cfg, st, Arrive(queue[0], active)), queue[1..], active)
  {
    hide Sound, Next, Enabled, InBounds;
  }

  lemma TakenFirst(took: seq<Arrival>, queue: seq<Arrival>, n: nat)
    requires 0 < n <= |queue|
    ensures took + [queue[0]] + queue[1..][..n - 1] == took + queue[..n]
  {
  }

  lemma QueueFirst(queue: seq<Arrival>)
    requires queue != []
    ensures QueueLoad(queue) == ArrivalLoad(queue[0]) + QueueLoad(queue[1..])
  {
  }

  /** A step that serves lanes leaves less of their work. */
  lemma DecodeTires(net: Network, cfg: Config, st: Sched, e: Event)
    requires Sound(net, cfg, st) && Lawful(net, cfg, st) && (e.Step? || e.PackedStep?) && Enabled(cfg, st, e) && InBounds(net, cfg, st, e)
    ensures Load(Next(net, cfg, st, e)) + |st.lanes| <= Load(st)
  {
    hide SlotsOk, LanesOk, Owned, CursorOk, Lawful, Load, Faithful, Decoded, DecodeStep, ForestStep, ForestOk, EachFits, Singles, PackedPass,
         DecodeOk, RolesIn, RolesPacked, ShapeOk, CursorShape;
    match e
    case Step(inp) =>
      StepDecoded(net, cfg, st, inp);
      DecodedTires(net, cfg, st, DecodeStep(net, cfg, st, inp), RolesIn(st, inp));
    case PackedStep(packs) =>
      ForestDecoded(net, cfg, st, packs);
      DecodedTires(net, cfg, st, ForestStep(net, cfg, st, packs), RolesPacked(st, packs));
    case _ =>
  }

  /** Working on anything at all leaves less of it. */
  lemma WorkTires(net: Network, cfg: Config, st: Sched, took: seq<Arrival>, decode: Sched -> Decoding)
    requires Reached(net, cfg, st, took) && Sound(net, cfg, st) && forall s :: Enabled(cfg, s, DecodeEvent(decode(s)))
    ensures var r := Worked(net, cfg, st, decode); Reached(net, cfg, r, took) && Load(r) <= Load(st) && (Idle(st) || Load(r) < Load(st))
  {
    hide Reached, Sound, Lawful, Next, InBounds, Enabled, Load;
    assert Enabled(cfg, st, Window) by { WindowEnabled(cfg, st); }
    ReachedNext(net, cfg, st, took, Window);
    var s := Next(net, cfg, st, Window);
    assert took + [] == took;
    WindowStep(net, cfg, st);
    ReachedIs(net, cfg, s, took);
    if s.lanes != [] {
      ReachedNext(net, cfg, s, took, DecodeEvent(decode(s)));
      DecodeTires(net, cfg, s, DecodeEvent(decode(s)));
    }
    WorkedIs(net, cfg, st, decode);
  }

  lemma WindowEnabled(cfg: Config, st: Sched)
    ensures Enabled(cfg, st, Window)
  {
  }

  lemma WindowStep(net: Network, cfg: Config, st: Sched)
    requires Sound(net, cfg, st) && InBounds(net, cfg, st, Window) && Enabled(cfg, st, Window)
    ensures var s := Next(net, cfg, st, Window);
            && Load(s) <= Load(st) && (st.pf.Some? ==> Load(s) < Load(st))
            && (st.pf.None? ==> s == st)
  {
    hide Sound, Load;
    WindowTires(net, cfg, st);
  }

  lemma WorkedIs(net: Network, cfg: Config, st: Sched, decode: Sched -> Decoding)
    requires Sound(net, cfg, st) && forall s :: Enabled(cfg, s, DecodeEvent(decode(s)))
    requires InBounds(net, cfg, st, Window) && Enabled(cfg, st, Window)
    ensures var s := Next(net, cfg, st, Window);
            && (s.lanes == [] ==> Worked(net, cfg, st, decode) == s)
            && (s.lanes != [] && InBounds(net, cfg, s, DecodeEvent(decode(s))) ==>
                  Worked(net, cfg, st, decode) == Next(net, cfg, s, DecodeEvent(decode(s))))
  {
    hide Sound, Next, InBounds, Enabled;
  }

  // ------------------------------------------------------------------ the loop

  /** What a turn is told from outside: whether to speculate, and what the drafters and draws say. */
  datatype Plan = Plan(active: bool, decode: Sched -> Decoding)

  ghost predicate PlansOk(cfg: Config, plan: nat -> Plan) {
    forall k: nat, s: Sched :: Enabled(cfg, s, DecodeEvent(plan(k).decode(s)))
  }

  /** Plans there are: speculation off, and anything drawn. */
  lemma PlansExist(cfg: Config, draws: nat -> Token) returns (plan: nat -> Plan)
    ensures PlansOk(cfg, plan)
  {
    plan := (k: nat) => Plan(false, (s: Sched) => Together(StepIn(false, ChainDraft([], 0, 0), draws)));
  }

  /** At most n turns over a queue whose channel is closed. */
  ghost function Serving(net: Network, cfg: Config, st: Sched, queue: seq<Arrival>, plan: nat -> Plan, n: nat): (t: Turn)
    requires Sound(net, cfg, st) && 0 < cfg.maxBatch && PlansOk(cfg, plan)
    ensures Sound(net, cfg, t.st)
    decreases n
  {
    hide Sound;
    if n == 0 then Turn(st, queue, false)
    else
      var t := Serving(net, cfg, st, queue, plan, n - 1);
      if t.ended then t else ServeTurn(net, cfg, t.st, t.rest, None, plan(n - 1).active, plan(n - 1).decode)
  }

  /** A turn that does not end the loop leaves less to do; one that does leaves nothing. */
  lemma TurnTires(net: Network, cfg: Config, st: Sched, took: seq<Arrival>, queue: seq<Arrival>, active: bool, decode: Sched -> Decoding)
    requires Reached(net, cfg, st, took) && Sound(net, cfg, st) && 0 < cfg.maxBatch && forall s :: Enabled(cfg, s, DecodeEvent(decode(s)))
    ensures var t := ServeTurn(net, cfg, st, queue, None, active, decode);
            && |t.rest| <= |queue| && t.rest == queue[|queue| - |t.rest|..]
            && Reached(net, cfg, t.st, took + queue[..|queue| - |t.rest|])
            && (if t.ended then Idle(t.st) && t.rest == []
                else Load(t.st) + QueueLoad(t.rest) < Load(st) + QueueLoad(queue))
  {
    hide Reached, Sound, Lawful, Load, QueueLoad, Drained, Worked, Enabled;
    DrainTakes(net, cfg, st, took, queue, active);
    DrainedInOrder(net, cfg, st, queue, active);
    var (s, rest) := Drained(net, cfg, st, queue, active);
    if !Idle(s) {
      WorkTires(net, cfg, s, took + queue[..|queue| - |rest|], decode);
    }
  }

  lemma {:induction false} ServingTires(net: Network, cfg: Config, st: Sched, took: seq<Arrival>, queue: seq<Arrival>, plan: nat -> Plan, n: nat)
    requires Reached(net, cfg, st, took) && Sound(net, cfg, st) && 0 < cfg.maxBatch && PlansOk(cfg, plan)
    ensures var t := Serving(net, cfg, st, queue, plan, n);
            && |t.rest| <= |queue| && t.rest == queue[|queue| - |t.rest|..]
            && Reached(net, cfg, t.st, took + queue[..|queue| - |t.rest|])
            && (if t.ended then Idle(t.st) && t.rest == []
                else Load(t.st) + QueueLoad(t.rest) + n <= Load(st) + QueueLoad(queue))
    decreases n
  {
    hide Reached, Sound, Lawful, Load, QueueLoad, ServeTurn, Enabled, Idle;
    if n == 0 {
      assert took + queue[..0] == took;
    } else {
      ServingTires(net, cfg, st, took, queue, plan, n - 1);
      var t := Serving(net, cfg, st, queue, plan, n - 1);
      if !t.ended {
        var took' := took + queue[..|queue| - |t.rest|];
        TurnTires(net, cfg, t.st, took', t.rest, plan(n - 1).active, plan(n - 1).decode);
        var t' := ServeTurn(net, cfg, t.st, t.rest, None, plan(n - 1).active, plan(n - 1).decode);
        TakenMore(took, queue, t.rest, t'.rest);
      }
    }
  }

  lemma TakenMore(took: seq<Arrival>, queue: seq<Arrival>, rest: seq<Arrival>, rest': seq<Arrival>)
    requires |rest'| <= |rest| <= |queue| && rest == queue[|queue| - |rest|..] && rest' == rest[|rest| - |rest'|..]
    ensures rest' == queue[|queue| - |rest'|..]
    ensures took + queue[..|queue| - |rest|] + rest[..|rest| - |rest'|] == took + queue[..|queue| - |rest'|]
  {
  }

  // ------------------------------------------------------------------ everyone is answered

  lemma {:induction false} OutcomesSplit(os: seq<Outcome>)
    ensures |Answered(os)| + |Refused(os)| == |os|
    decreases |os|
  {
    if os != [] {
      OutcomesSplit(os[..|os| - 1]);
    }
  }

  lemma {:induction false} ArrivalsSplit(cfg: Config, es: seq<Event>, k: nat)
    requires k <= |es|
    ensures |Granted(cfg, es, k)| + |TurnedAway(cfg, es, k)| == |ArrivalsOf(es[..k])|
    decreases k
  {
    hide Servable;
    if k > 0 {
      ArrivalsSplit(cfg, es, k - 1);
      assert es[..k][..k - 1] == es[..k - 1];
    }
  }

  /** An idle server has answered or turned away every arrival it took, each exactly once. */
  lemma IdleHasAnswered(net: Network, cfg: Config, st: Sched, took: seq<Arrival>) returns (sts: seq<Sched>, es: seq<Event>, js: seq<Job>)
    requires Reached(net, cfg, st, took) && Idle(st)
    ensures |st.outcomes| == |took|
    ensures IsRun(net, cfg, sts, es) && sts[|es|] == st && ArrivalsOf(es) == took
    ensures |js| == |Granted(cfg, es, |es|)| && multiset(js) == multiset(Answered(st.outcomes))
    ensures forall i :: 0 <= i < |js| ==> GrantedAs(cfg, Granted(cfg, es, |es|)[i].arrival, Granted(cfg, es, |es|)[i].spec, js[i])
    ensures Refused(st.outcomes) == TurnedAway(cfg, es, |es|)
  {
    hide IsRun, GrantedAs, Granted, TurnedAway, Answered, Refused;
    sts, es :| ReachedBy(net, cfg, st, took, sts, es);
    js := EveryArrivalHasItsFate(net, cfg, sts, es, |es|);
    assert es[..|es|] == es;
    ArrivalsSplit(cfg, es, |es|);
    OutcomesSplit(st.outcomes);
    assert multiset(LaneJobs(st.lanes)) == multiset{} && multiset(CursorJob(st.pf)) == multiset{};
    assert |multiset(js)| == |js| && |multiset(Answered(st.outcomes))| == |Answered(st.outcomes)|;
  }

  /** From any reachable state, whatever is drafted or drawn: after one turn more than there is work,
      the loop has ended, idle, with the whole queue taken in order and one outcome per arrival. */
  lemma EveryoneIsAnswered(net: Network, cfg: Config, st: Sched, took: seq<Arrival>, queue: seq<Arrival>, plan: nat -> Plan, n: nat)
    requires Reached(net, cfg, st, took) && Sound(net, cfg, st) && 0 < cfg.maxBatch && PlansOk(cfg, plan)
    requires n > Load(st) + QueueLoad(queue)
    ensures var t := Serving(net, cfg, st, queue, plan, n);
            && t.ended && t.rest == [] && Idle(t.st)
            && Reached(net, cfg, t.st, took + queue) && |t.st.outcomes| == |took| + |queue|
  {
    hide Reached, Sound, Load, QueueLoad, Serving, PlansOk, Idle;
    ServingTires(net, cfg, st, took, queue, plan, n);
    var t := Serving(net, cfg, st, queue, plan, n);
    assert queue[..|queue|] == queue;
    var sts, es, js := IdleHasAnswered(net, cfg, t.st, took + queue);
  }
}
