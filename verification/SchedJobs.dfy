// Every arrival has exactly one fate: it is turned away, or it is granted a budget and from then on is
// in the cursor, in one lane, or answered, with the request it came with.

module SchedJobs {
  import opened Wrappers
  import opened Trunk
  import opened Device
  import opened GreedyLane
  import opened Slots
  import opened LaneSteps
  import opened Scheduler
  import opened SchedInvariant
  import opened SchedAdmit
  import opened SchedPrefill
  import opened SchedForest
  import opened SchedStreams
  import opened SchedRuns
  import opened SchedTurns

  // ------------------------------------------------------------------ what admission grants

  /** Rows kept free behind the last token: one to write, or the widest verify. */
  function Spare(spec: bool): nat {
    if spec then 16 else 1
  }

  /** A request that is under way, under which id, and whether its drafter state was primed. */
  datatype Job = Job(id: nat, req: Request, primed: bool)

  ghost predicate BudgetFits(cfg: Config, a: Arrival, spec: bool, b: nat) {
    0 < b <= a.req.maxNew && |a.req.prompt| + b + Spare(spec) <= cfg.kvStride
  }

  /** The job an arrival becomes: its own request, with the whole budget it asked for if that fits
      and otherwise with exactly what does. */
  ghost predicate GrantedAs(cfg: Config, a: Arrival, spec: bool, j: Job) {
    && j.id == a.id && j.primed == spec && j.req == a.req.(maxNew := j.req.maxNew) && BudgetFits(cfg, a, spec, j.req.maxNew)
    && (j.req.maxNew == a.req.maxNew || |a.req.prompt| + j.req.maxNew + Spare(spec) == cfg.kvStride)
  }

  /** Some positive budget fits. */
  ghost predicate Servable(cfg: Config, a: Arrival, spec: bool) {
    exists b: nat :: BudgetFits(cfg, a, spec, b)
  }

  function CursorJob(pf: Option<Cursor>): seq<Job> {
    if pf.Some? then [Job(pf.value.id, pf.value.req, pf.value.primed)] else []
  }

  function LaneJobs(lanes: seq<Lane>): (r: seq<Job>)
    ensures |r| == |lanes|
  {
    seq(|lanes|, i requires 0 <= i < |lanes| => Job(lanes[i].id, lanes[i].req, lanes[i].primed))
  }

  function Answered(os: seq<Outcome>): seq<Job> {
    if os == [] then []
    else Answered(os[..|os| - 1]) + match os[|os| - 1] { case Answer(id, req, _, _, _, primed) => [Job(id, req, primed)] case Refusal(_, _) => [] }
  }

  function Refused(os: seq<Outcome>): seq<(nat, Reason)> {
    if os == [] then []
    else Refused(os[..|os| - 1]) + match os[|os| - 1] { case Answer(_, _, _, _, _, _) => [] case Refusal(id, why) => [(id, why)] }
  }

  /** Everything under way or answered. */
  ghost function Jobs(st: Sched): multiset<Job> {
    multiset(LaneJobs(st.lanes)) + multiset(CursorJob(st.pf)) + multiset(Answered(st.outcomes))
  }

  // ------------------------------------------------------------------ admission

  /** The drafter is primed exactly while speculation is on, the first window starts where the reuse
      ends, and the boundary the client named is kept exactly if the prefill will pass it. */
  ghost predicate ArmedFor(cfg: Config, a: Arrival, spec: bool, c: Cursor) {
    && c.primed == spec && c.w0 == c.reuse
    && (c.ckptAt.Some? <==> cfg.prefixCache && a.ckptAt.Some? && c.reuse < a.ckptAt.value < |a.req.prompt|)
    && (c.ckptAt.Some? ==> c.ckptAt == a.ckptAt)
  }

  /** Admission starts exactly the requests some positive budget fits. */
  lemma AdmitGrants(net: Network, cfg: Config, st: Sched, a: Arrival, spec: bool) returns (j: Job)
    requires ShapeOk(cfg, st) && st.pf.None? && st.free != []
    ensures var r := Admit(net, cfg, st, a, spec);
            if Servable(cfg, a, spec)
            then r.pf.Some? && j == Job(r.pf.value.id, r.pf.value.req, r.pf.value.primed) && GrantedAs(cfg, a, spec, j)
                 && r.lanes == st.lanes && r.outcomes == st.outcomes && ArmedFor(cfg, a, spec, r.pf.value)
            else r.pf.None? && r.lanes == st.lanes && r.outcomes == st.outcomes + [Refusal(a.id, ContextLength)]
  {
    hide Choice, Restore, Invalidated;
    ChoiceIsFree(cfg, st.free, st.slots, a.req.prompt);
    var r := Admit(net, cfg, st, a, spec);
    Fitting(cfg, a, spec);
    j := if r.pf.Some? then Job(r.pf.value.id, r.pf.value.req, r.pf.value.primed) else Job(0, a.req, false);
  }

  /** The source's test and clamp, against the budgets that fit. */
  lemma Fitting(cfg: Config, a: Arrival, spec: bool)
    ensures var plen, b := |a.req.prompt|, ClampedBudget(cfg, |a.req.prompt|, a.req.maxNew, spec);
            && (TooLong(cfg, plen, a.req.maxNew, spec) <==> !Servable(cfg, a, spec))
            && (Servable(cfg, a, spec) ==> GrantedAs(cfg, a, spec, Job(a.id, a.req.(maxNew := b), spec)))
  {
    var plen, b := |a.req.prompt|, ClampedBudget(cfg, |a.req.prompt|, a.req.maxNew, spec);
    if !TooLong(cfg, plen, a.req.maxNew, spec) {
      assert BudgetFits(cfg, a, spec, b);
    }
  }

  // ------------------------------------------------------------------ decode steps

  lemma AnsweredSnoc(os: seq<Outcome>, o: Outcome)
    ensures Answered(os + [o]) == Answered(os) + match o { case Answer(id, req, _, _, _, primed) => [Job(id, req, primed)] case Refusal(_, _) => [] }
    ensures Refused(os + [o]) == Refused(os) + match o { case Answer(_, _, _, _, _, _) => [] case Refusal(id, why) => [(id, why)] }
  {
    assert (os + [o])[..|os|] == os;
  }

  /** Lanes that are over become answers. */
  lemma {:induction false} LanesAnswered(os: seq<Outcome>, gone: seq<Lane>)
    ensures Answered(os + OutcomesOf(gone)) == Answered(os) + LaneJobs(gone)
    ensures Refused(os + OutcomesOf(gone)) == Refused(os)
    decreases |gone|
  {
    if gone == [] {
      assert OutcomesOf(gone) == [] && os + [] == os && LaneJobs(gone) == [];
    } else {
      hide *;
      var init, l := gone[..|gone| - 1], gone[|gone| - 1];
      assert gone == init + [l];
      LanesAnswered(os, init);
      AnsweredNext(os, init, l);
    }
  }

  lemma AnsweredNext(os: seq<Outcome>, init: seq<Lane>, l: Lane)
    requires Answered(os + OutcomesOf(init)) == Answered(os) + LaneJobs(init) && Refused(os + OutcomesOf(init)) == Refused(os)
    ensures Answered(os + OutcomesOf(init + [l])) == Answered(os) + LaneJobs(init + [l])
    ensures Refused(os + OutcomesOf(init + [l])) == Refused(os)
  {
    hide Answered, Refused, LaneJobs, OutcomesOf;
    var before, o := os + OutcomesOf(init), OutcomeOf(l);
    OutcomesSnoc(init, l);
    LaneJobsSnoc(init, l);
    AnsweredSnoc(before, o);
    assert os + OutcomesOf(init + [l]) == before + [o];
    assert Answered(os) + LaneJobs(init) + [Job(l.id, l.req, l.primed)] == Answered(os) + LaneJobs(init + [l]);
  }

  lemma OutcomesSnoc(lanes: seq<Lane>, l: Lane)
    ensures OutcomesOf(lanes + [l]) == OutcomesOf(lanes) + [OutcomeOf(l)]
  {
  }

  lemma LaneJobsSnoc(lanes: seq<Lane>, l: Lane)
    ensures LaneJobs(lanes + [l]) == LaneJobs(lanes) + [Job(l.id, l.req, l.primed)]
    ensures multiset(LaneJobs(lanes + [l])) == multiset(LaneJobs(lanes)) + multiset{Job(l.id, l.req, l.primed)}
  {
    assert LaneJobs(lanes + [l]) == LaneJobs(lanes) + [Job(l.id, l.req, l.primed)];
  }

  /** Compaction loses no job. */
  lemma {:induction false} JobsSplit(lanes: seq<Lane>, over: seq<bool>)
    requires |lanes| == |over|
    ensures multiset(LaneJobs(Kept(lanes, over))) + multiset(LaneJobs(Ended(lanes, over))) == multiset(LaneJobs(lanes))
    decreases |lanes|
  {
    if lanes != [] {
      var n := |lanes| - 1;
      JobsSplit(lanes[..n], over[..n]);
      assert lanes == lanes[..n] + [lanes[n]];
      LaneJobsSnoc(lanes[..n], lanes[n]);
      hide LaneJobs;
      if over[n] {
        LaneJobsSnoc(Ended(lanes[..n], over[..n]), lanes[n]);
        assert Kept(lanes, over) == Kept(lanes[..n], over[..n]);
      } else {
        LaneJobsSnoc(Kept(lanes[..n], over[..n]), lanes[n]);
        assert Ended(lanes, over) == Ended(lanes[..n], over[..n]);
      }
    }
  }

  /** A decode step moves jobs from the table to the answers, and turns no one away. */
  lemma DecodedJobs(cfg: Config, st: Sched, st': Sched, roles: Roles)
    requires Decoded(cfg, st, st', roles)
    ensures Jobs(st') == Jobs(st) && Refused(st'.outcomes) == Refused(st.outcomes) && st'.pf == st.pf
  {
    var m, over :| DecodedBy(cfg, st, st', roles, m, over);
    assert LaneJobs(m.lanes) == LaneJobs(st.lanes) by {
      forall i: nat | i < |st.lanes| ensures m.lanes[i].id == st.lanes[i].id && m.lanes[i].req == st.lanes[i].req && m.lanes[i].primed == st.lanes[i].primed {
        assert Turned(cfg, st, m, over, roles, i);
        TurnedJob(cfg, st, m, over, roles, i);
      }
    }
    hide DecodedBy, LaneJobs, Kept, Ended, OutcomesOf, Answered, Refused, Turned;
    JobsSplit(m.lanes, over);
    LanesAnswered(st.outcomes, Ended(m.lanes, over));
    CompactedParts(m, over);
    MovedJobs(multiset(LaneJobs(Kept(m.lanes, over))), multiset(CursorJob(st.pf)), Answered(st.outcomes), LaneJobs(Ended(m.lanes, over)));
  }

  lemma TurnedJob(cfg: Config, st: Sched, m: Sched, over: seq<bool>, roles: Roles, i: nat)
    requires i < |st.lanes| == |m.lanes| && st.lanes[i].phys < |st.slots| == |m.slots| && Turned(cfg, st, m, over, roles, i)
    ensures m.lanes[i].id == st.lanes[i].id && m.lanes[i].req == st.lanes[i].req && m.lanes[i].primed == st.lanes[i].primed
  {
    hide BookedBy, HowOk;
    var how :| TurnedBy(cfg, st, m, over, roles, i, how);
  }

  lemma CompactedParts(m: Sched, over: seq<bool>)
    requires |m.lanes| == |over|
    ensures var r := Compacted(m, over);
            r.lanes == Kept(m.lanes, over) && r.outcomes == m.outcomes + OutcomesOf(Ended(m.lanes, over)) && r.pf == m.pf
  {
  }

  lemma MovedJobs(kept: multiset<Job>, cursor: multiset<Job>, done: seq<Job>, gone: seq<Job>)
    ensures kept + cursor + multiset(done + gone) == kept + multiset(gone) + cursor + multiset(done)
  {
  }

  // ------------------------------------------------------------------ which slot is next

  /** A request nothing can be resumed for. */
  ghost predicate NothingCached(cfg: Config, st: Sched, prompt: seq<Token>)
    requires forall p :: p in st.free ==> p < |st.slots|
  {
    cfg.prefixCache ==> Hits(cfg, st.free, st.slots, prompt, |st.free|) == []
  }

  lemma {:induction false} LastEnded(lanes: seq<Lane>, over: seq<bool>, i: nat)
    requires i < |lanes| == |over| && over[i] && forall j :: i < j < |over| ==> !over[j]
    ensures Ended(lanes, over) != [] && Ended(lanes, over)[|Ended(lanes, over)| - 1] == lanes[i]
    decreases |lanes|
  {
    if i < |lanes| - 1 {
      LastEnded(lanes[..|lanes| - 1], over[..|lanes| - 1], i);
    }
  }

  /** Slots are given out last freed first: a step frees its lanes' slots in lane order behind those
      that were free, and the next request that resumes nothing gets the last one. */
  lemma FreedFirst(cfg: Config, st: Sched, over: seq<bool>, i: nat, prompt: seq<Token>)
    requires |over| == |st.lanes| && i < |over| && over[i] && forall j :: i < j < |over| ==> !over[j]
    requires forall p :: p in Compacted(st, over).free ==> p < |st.slots|
    requires NothingCached(cfg, Compacted(st, over), prompt)
    ensures var k := Choice(cfg, Compacted(st, over).free, st.slots, prompt);
            k.Some? && k.value.phys == st.lanes[i].phys && k.value.reuse == 0 && st.free <= k.value.free
  {
    LastEnded(st.lanes, over, i);
    hide Ended, Kept, OutcomesOf, Hits;
  }

  /** So is the slot of a request that was turned away. */
  lemma TurnedAwayFirst(cfg: Config, st: Sched, a: Arrival, k: Pick, prompt: seq<Token>)
    requires k.phys < |st.slots| && k.phys < |st.dev.cells|
    requires forall p :: p in Rejected(cfg, st, a, k).free ==> p < |st.slots|
    requires NothingCached(cfg, Rejected(cfg, st, a, k), prompt)
    ensures Choice(cfg, Rejected(cfg, st, a, k).free, Rejected(cfg, st, a, k).slots, prompt) == Some(Pick(k.phys, 0, None, k.free))
  {
    hide Hits, Restore, Invalidated;
    var f := Rejected(cfg, st, a, k).free;
    assert f[..|f| - 1] == k.free && f[|f| - 1] == k.phys;
  }

  // ------------------------------------------------------------------ the other steps

  /** A window at most turns the cursor into a lane. */
  lemma WindowJobs(net: Network, cfg: Config, st: Sched)
    requires ShapeOk(cfg, st) && CursorShape(cfg, st)
    ensures var r := PfAdvance(net, cfg, st); Jobs(r) == Jobs(st) && r.outcomes == st.outcomes
  {
    hide RunWindow, Answered, LaneJobs;
    if st.pf.Some? {
      var c := st.pf.value;
      if c.w0 >= |c.req.prompt| {
        FinishJobs(cfg, st, c);
      } else {
        var r := RunWindow(net, cfg, st, c);
        RunJobs(net, cfg, st, c);
        if r.pf.value.w0 >= |c.req.prompt| {
          FinishJobs(cfg, r, r.pf.value);
        }
      }
    }
  }

  /** The lane a finished prefill becomes: the cursor's, trusted if it was primed, not hung up on. */
  lemma InstallsCursor(net: Network, cfg: Config, st: Sched)
    requires ShapeOk(cfg, st) && CursorShape(cfg, st) && st.pf.Some? && PfAdvance(net, cfg, st).pf.None?
    ensures var c, r := st.pf.value, PfAdvance(net, cfg, st);
            && |r.lanes| == |st.lanes| + 1 && r.lanes[..|st.lanes|] == st.lanes
            && var l := r.lanes[|st.lanes|];
               l.id == c.id && l.req == c.req && l.phys == c.phys && l.primed == c.primed && !l.stale && !l.cancelled
  {
    hide SnapshotDev, SnapshotSlot, Consume, WindowEnd, CopyCell;
  }

  lemma RunJobs(net: Network, cfg: Config, st: Sched, c: Cursor)
    requires ShapeOk(cfg, st) && CursorShape(cfg, st) && st.pf == Some(c) && c.w0 < |c.req.prompt|
    ensures var r := RunWindow(net, cfg, st, c); Jobs(r) == Jobs(st) && r.outcomes == st.outcomes
  {
    hide Answered, LaneJobs, SnapshotDev, SnapshotSlot, Consume, WindowEnd;
  }

  lemma FinishJobs(cfg: Config, st: Sched, c: Cursor)
    requires ShapeOk(cfg, st) && st.pf == Some(c)
    ensures var r := PfFinish(cfg, st, c); Jobs(r) == Jobs(st) && r.outcomes == st.outcomes
  {
    LaneJobsSnoc(st.lanes, Install(c));
    hide Answered, LaneJobs, CopyCell;
  }

  lemma CancelJobs(st: Sched, i: nat)
    requires i < |st.lanes|
    ensures Jobs(Cancel(st, i)) == Jobs(st)
  {
    assert LaneJobs(Cancel(st, i).lanes) == LaneJobs(st.lanes);
  }

  /** A started arrival adds its job, a refused one its id; nothing else changes. */
  ghost predicate Fate(cfg: Config, st: Sched, st': Sched, a: Arrival, spec: bool, j: Job) {
    if Servable(cfg, a, spec)
    then GrantedAs(cfg, a, spec, j) && Jobs(st') == Jobs(st) + multiset{j} && Refused(st'.outcomes) == Refused(st.outcomes)
    else Jobs(st') == Jobs(st) && Refused(st'.outcomes) == Refused(st.outcomes) + [(a.id, ContextLength)]
  }

  lemma ArriveFate(net: Network, cfg: Config, st: Sched, a: Arrival, spec: bool) returns (j: Job)
    requires Inv(net, cfg, st) && st.pf.None? && |st.lanes| < cfg.maxBatch
    ensures Fate(cfg, st, Admit(net, cfg, st, a, spec), a, spec, j)
  {
    hide Admit, Answered, Refused, LaneJobs, Servable, GrantedAs, ShapeOk, CursorShape, SlotsOk, LanesOk, CursorOk, Owned, AllSlots, Owners;
    SlotsConserved(cfg, st);
    j := AdmitGrants(net, cfg, st, a, spec);
    AnsweredSnoc(st.outcomes, Refusal(a.id, ContextLength));
    NoCursorJob();
  }

  lemma NoCursorJob()
    ensures multiset(CursorJob(None)) == multiset{}
    ensures forall c: Cursor :: multiset(CursorJob(Some(c))) == multiset{Job(c.id, c.req, c.primed)}
  {
  }

  /** Every other step neither makes nor loses a job. */
  lemma QuietJobs(net: Network, cfg: Config, st: Sched, e: Event)
    requires Inv(net, cfg, st) && Enabled(cfg, st, e) && InBounds(net, cfg, st, e) && !e.Arrive?
    ensures var r := Next(net, cfg, st, e); Jobs(r) == Jobs(st) && Refused(r.outcomes) == Refused(st.outcomes)
  {
    hide SlotsOk, LanesOk, Owned, CursorOk, Jobs, Refused, Decoded, DecodeStep, ForestStep, ForestOk, EachFits, Singles, PackedPass,
         PfAdvance, DecodeOk, RolesIn, RolesPacked, ShapeOk, CursorShape;
    match e
    case Window => WindowJobs(net, cfg, st);
    case Step(inp) =>
      StepDecoded(net, cfg, st, inp);
      DecodedJobs(cfg, st, DecodeStep(net, cfg, st, inp), RolesIn(st, inp));
    case PackedStep(packs) =>
      ForestDecoded(net, cfg, st, packs);
      DecodedJobs(cfg, st, ForestStep(net, cfg, st, packs), RolesPacked(st, packs));
    case CancelLane(i) => CancelJobs(st, i);
  }

  // ------------------------------------------------------------------ whole runs

  /** The arrivals among the first k events that some budget fits, in order. */
  ghost function Granted(cfg: Config, es: seq<Event>, k: nat): (r: seq<Event>)
    requires k <= |es|
    ensures forall i :: 0 <= i < |r| ==> r[i].Arrive? && r[i] in es[..k]
  {
    if k == 0 then []
    else
      assert es[..k] == es[..k - 1] + [es[k - 1]];
      Granted(cfg, es, k - 1)
      + (if es[k - 1].Arrive? && Servable(cfg, es[k - 1].arrival, es[k - 1].spec) then [es[k - 1]] else [])
  }

  /** What the others are told. */
  ghost function TurnedAway(cfg: Config, es: seq<Event>, k: nat): seq<(nat, Reason)>
    requires k <= |es|
  {
    if k == 0 then []
    else
      TurnedAway(cfg, es, k - 1)
      + (if es[k - 1].Arrive? && !Servable(cfg, es[k - 1].arrival, es[k - 1].spec) then [(es[k - 1].arrival.id, ContextLength)] else [])
  }

  /** In every reachable state the jobs under way or answered are exactly those of the arrivals some
      budget fits, one each, and the refusals are exactly those of the others, in order. */
  lemma {:induction false} EveryArrivalHasItsFate(net: Network, cfg: Config, sts: seq<Sched>, es: seq<Event>, k: nat) returns (js: seq<Job>)
    requires IsRun(net, cfg, sts, es) && k <= |es|
    ensures |js| == |Granted(cfg, es, k)| && multiset(js) == Jobs(sts[k])
    ensures forall i :: 0 <= i < |js| ==> GrantedAs(cfg, Granted(cfg, es, k)[i].arrival, Granted(cfg, es, k)[i].spec, js[i])
    ensures Refused(sts[k].outcomes) == TurnedAway(cfg, es, k)
    decreases k
  {
    hide Inv, Faithful, Enabled, InBounds, Next, Jobs, Refused, GrantedAs, Servable;
    if k == 0 {
      js := [];
      FreshJobs(cfg, sts[0]);
    } else {
      var prev := EveryArrivalHasItsFate(net, cfg, sts, es, k - 1);
      var j := FateAt(net, cfg, sts, es, k - 1);
      js := if es[k - 1].Arrive? && Servable(cfg, es[k - 1].arrival, es[k - 1].spec) then prev + [j] else prev;
    }
  }

  lemma FreshJobs(cfg: Config, st: Sched)
    requires Fresh(cfg, st)
    ensures Jobs(st) == multiset{} && Refused(st.outcomes) == []
  {
    assert LaneJobs(st.lanes) == [];
  }

  /** What the k-th event of a run does to jobs and refusals. */
  lemma FateAt(net: Network, cfg: Config, sts: seq<Sched>, es: seq<Event>, k: nat) returns (j: Job)
    requires IsRun(net, cfg, sts, es) && k < |es|
    ensures if es[k].Arrive? then Fate(cfg, sts[k], sts[k + 1], es[k].arrival, es[k].spec, j)
            else Jobs(sts[k + 1]) == Jobs(sts[k]) && Refused(sts[k + 1].outcomes) == Refused(sts[k].outcomes)
  {
    hide Inv, Faithful, Fate, Jobs, Refused, InBounds, Fresh;
    EveryRunIsSound(net, cfg, sts, es, k);
    assert StepOk(net, cfg, sts, es, k);
    assert Inv(net, cfg, sts[k]);
    var e := es[k];
    if e.Arrive? {
      j := ArriveFate(net, cfg, sts[k], e.arrival, e.spec);
    } else {
      QuietJobs(net, cfg, sts[k], e);
      j := Job(0, Request([], 0, 0, false, false, false, None), false);
    }
  }

  /** So every answer answers an arrival: under its id, with its request and its granted budget. */
  lemma AnswersAnArrival(net: Network, cfg: Config, sts: seq<Sched>, es: seq<Event>, k: nat, i: nat) returns (n: nat)
    requires IsRun(net, cfg, sts, es) && k <= |es| && i < |sts[k].outcomes| && sts[k].outcomes[i].Answer?
    ensures n < k && es[n].Arrive?
    ensures GrantedAs(cfg, es[n].arrival, es[n].spec, Job(sts[k].outcomes[i].id, sts[k].outcomes[i].req, sts[k].outcomes[i].primed))
  {
    var js := EveryArrivalHasItsFate(net, cfg, sts, es, k);
    var o := sts[k].outcomes[i];
    AnsweredHas(sts[k].outcomes, i);
    hide IsRun, GrantedAs, Answered, LaneJobs, Granted;
    assert Job(o.id, o.req, o.primed) in multiset(js);
    var q :| 0 <= q < |js| && js[q] == Job(o.id, o.req, o.primed);
    n :| 0 <= n < k && es[n] == Granted(cfg, es, k)[q];
  }

  lemma {:induction false} AnsweredHas(os: seq<Outcome>, i: nat)
    requires i < |os| && os[i].Answer?
    ensures Job(os[i].id, os[i].req, os[i].primed) in Answered(os)
    decreases |os|
  {
    if i < |os| - 1 {
      AnsweredHas(os[..|os| - 1], i);
    }
  }
}
