// Where a schema lane's machine stands: after exactly the tokens the client was sent, as long as no
// step served the lane without its mask.

module SchedSchemas {
  import opened Wrappers
  import opened Trunk
  import opened Device
  import opened GreedyLane
  import opened Slots
  import opened LaneSteps
  import opened Scheduler
  import opened SchedInvariant
  import opened SchedAdmit
  import opened SchedPrefill
  import opened SchedForest
  import opened SchedStreams
  import opened SchedRuns
  import opened SchedTurns
  import opened SchedAnswers

  /** The machine's state after a document so far, if it takes all of it. */
  function Machine(sm: Schema, doc: seq<Token>): Option<nat> {
    if doc == [] then Some(sm.start)
    else match Machine(sm, doc[..|doc| - 1])
      case None => None
      case Some(st) => sm.step(st, doc[|doc| - 1])
  }

  /** The document is closed, or the machine refused its last token. */
  ghost predicate TurnOver(sm: Schema, doc: seq<Token>) {
    match Machine(sm, doc)
    case None => true
    case Some(st) => sm.complete(st)
  }

  lemma MachineSnoc(sm: Schema, doc: seq<Token>, t: Token)
    ensures Machine(sm, doc + [t]) == match Machine(sm, doc) case None => None case Some(st) => sm.step(st, t)
  {
    assert (doc + [t])[..|doc|] == doc;
  }

  /** A refusal is final. */
  lemma {:induction false} MachineStays(sm: Schema, doc: seq<Token>, ts: seq<Token>)
    requires Machine(sm, doc).None?
    ensures Machine(sm, doc + ts).None?
    decreases |ts|
  {
    if ts == [] {
      assert doc + ts == doc;
    } else {
      MachineStays(sm, doc, ts[..|ts| - 1]);
      MachineSnoc(sm, doc + ts[..|ts| - 1], ts[|ts| - 1]);
      assert doc + ts == doc + ts[..|ts| - 1] + [ts[|ts| - 1]];
    }
  }

  /** The scheduler's own advance, read on the whole document. */
  lemma {:induction false} AdvanceRuns(req: Request, sm: Schema, doc: seq<Token>, ts: seq<Token>)
    requires req.schema == Some(sm) && Machine(sm, doc).Some?
    ensures var (st, done) := SchemaAdvance(req, Machine(sm, doc).value, ts);
            && (done <==> TurnOver(sm, doc + ts))
            && (!done ==> Machine(sm, doc + ts) == Some(st))
    decreases |ts|
  {
    if ts == [] {
      assert doc + ts == doc;
    } else {
      MachineSnoc(sm, doc, ts[0]);
      assert doc + [ts[0]] + ts[1..] == doc + ts;
      if Machine(sm, doc + [ts[0]]).None? {
        MachineStays(sm, doc + [ts[0]], ts[1..]);
      } else {
        AdvanceRuns(req, sm, doc + [ts[0]], ts[1..]);
      }
    }
  }

  // ------------------------------------------------------------------ lanes and answers

  ghost predicate LaneInState(l: Lane) {
    l.req.schema.Some? ==>
      Machine(l.req.schema.value, l.sent) == Some(l.schemaState) && (l.sent != [] ==> !TurnOver(l.req.schema.value, l.sent))
  }

  ghost predicate Ended(eos: set<Token>, req: Request, sent: seq<Token>) {
    |sent| >= req.maxNew || (sent != [] && EndsAt(eos, req, sent, |sent|))
  }

  /** A document the client did not hang up on ends by the stop rule, or because it is over. */
  ghost predicate DocumentLaw(cfg: Config, o: Outcome) {
    o.Answer? && o.req.schema.Some? && !o.cancelled ==>
      Ended(cfg.eos, o.req, o.sent) || TurnOver(o.req.schema.value, o.sent)
  }

  /** A masked step keeps the machine with the document. */
  lemma BookedState(cfg: Config, l: Lane, cache: seq<Token>, how: How)
    requires |l.sent| == l.generated && l.req.schema.Some? && LaneInState(l) && (how.Plain? || how.Chained?)
    ensures var s, sm := BookedBy(cfg, l, cache, how), l.req.schema.value;
            && (!s.finished ==> Machine(sm, s.sent) == Some(s.schemaState) && !TurnOver(sm, s.sent))
            && (s.finished ==> Ended(cfg.eos, l.req, s.sent) || TurnOver(sm, s.sent))
  {
    match how
    case Plain(t) =>
      TakeLaw(cfg, l, cache, t);
      AdvanceRuns(l.req, l.req.schema.value, l.sent, [t]);
      hide SchemaAdvance, Machine, TurnOver;
    case Chained(path, bonus) =>
      EmitLaw(cfg.eos, l.req, l.sent, path, bonus);
      AdvanceRuns(l.req, l.req.schema.value, l.sent, Emit(cfg.eos, l.req, |l.sent|, path, bonus).0);
      hide Emit, SchemaAdvance, Machine, TurnOver, EndsAt, RememberAll;
  }

  /** No step so far served a schema lane without its mask. */
  ghost predicate InMask(st: Sched, roles: Roles) {
    forall i :: i in roles.blind && i < |st.lanes| ==> st.lanes[i].req.schema.None?
  }

  ghost predicate Masked(st: Sched, e: Event) {
    (e.Step? ==> InMask(st, RolesIn(st, e.inp))) && (e.PackedStep? ==> InMask(st, RolesPacked(st, e.packs)))
  }

  ghost predicate InState(cfg: Config, st: Sched) {
    && (forall i :: 0 <= i < |st.lanes| ==> LaneInState(st.lanes[i]))
    && (forall i :: 0 <= i < |st.outcomes| ==> DocumentLaw(cfg, st.outcomes[i]))
  }

  lemma GoesOnInState(cfg: Config, l: Lane, cache: seq<Token>, how: How, l': Lane)
    requires |l.sent| == l.generated && LaneInState(l) && (l.req.schema.Some? ==> how.Plain? || how.Chained?)
    requires var s := BookedBy(cfg, l, cache, how); l' == Update(l, s, l'.pos).(stale := l'.stale) && !s.finished
    ensures LaneInState(l')
  {
    hide BookedBy, Machine, TurnOver;
    if l.req.schema.Some? {
      BookedState(cfg, l, cache, how);
    }
  }

  lemma AnswersInState(cfg: Config, l: Lane, cache: seq<Token>, how: How)
    requires |l.sent| == l.generated && LaneInState(l) && (l.req.schema.Some? ==> how.Plain? || how.Chained?)
    requires BookedBy(cfg, l, cache, how).finished || l.cancelled
    ensures DocumentLaw(cfg, OutcomeOf(Update(l, BookedBy(cfg, l, cache, how), 0)))
  {
    hide BookedBy, Machine, TurnOver, EndsAt;
    if l.req.schema.Some? {
      BookedState(cfg, l, cache, how);
    }
  }

  lemma DecodedInState(net: Network, cfg: Config, st: Sched, st': Sched, roles: Roles)
    requires Lawful(net, cfg, st) && InState(cfg, st) && Decoded(cfg, st, st', roles) && InMask(st, roles)
    ensures InState(cfg, st')
  {
    hide Decoded, LaneLaw, AnswerLaw, LaneInState, DocumentLaw, BookedBy, OutcomeOf;
    OldOutcomes(cfg, st, st', roles);
    forall j | 0 <= j < |st'.lanes| ensures LaneInState(st'.lanes[j]) {
      var i, how := LaneWas(cfg, st, st', roles, j);
      LaneSent(net, cfg, st.lanes[i], st.slots[st.lanes[i].phys].cache);
      GoesOnInState(cfg, st.lanes[i], st.slots[st.lanes[i].phys].cache, how, st'.lanes[j]);
    }
    forall j | 0 <= j < |st'.outcomes| ensures DocumentLaw(cfg, st'.outcomes[j]) {
      if j < |st.outcomes| {
        assert st'.outcomes[j] == st.outcomes[j];
      } else {
        var i, how := OutcomeWas(cfg, st, st', roles, j);
        LaneSent(net, cfg, st.lanes[i], st.slots[st.lanes[i].phys].cache);
        AnswersInState(cfg, st.lanes[i], st.slots[st.lanes[i].phys].cache, how);
      }
    }
  }

  // ------------------------------------------------------------------ the other steps, and runs

  lemma StayInState(cfg: Config, st: Sched, st': Sched)
    requires InState(cfg, st) && LanesStay(st, st')
    ensures InState(cfg, st')
  {
    forall i | 0 <= i < |st'.lanes| ensures LaneInState(st'.lanes[i]) {
      assert LaneInState(st.lanes[i]);
    }
    forall i | 0 <= i < |st'.outcomes| ensures DocumentLaw(cfg, st'.outcomes[i]) {
      if i < |st.outcomes| {
        assert st'.outcomes[i] == st.outcomes[i];
      }
    }
  }

  lemma InstallInState(c: Cursor)
    ensures LaneInState(Install(c))
  {
  }

  lemma FinishInState(cfg: Config, st: Sched, c: Cursor)
    requires ShapeOk(cfg, st) && InState(cfg, st) && st.pf == Some(c)
    ensures InState(cfg, PfFinish(cfg, st, c))
  {
    hide LaneInState, DocumentLaw, Install, CopyCell;
    InstallInState(c);
  }

  lemma WindowInState(net: Network, cfg: Config, st: Sched)
    requires Inv(net, cfg, st) && InState(cfg, st)
    ensures InState(cfg, PfAdvance(net, cfg, st))
  {
    hide InState, RunWindow, PfFinish, SlotsOk, LanesOk, Owned, CursorOk;
    if st.pf.Some? {
      var c := st.pf.value;
      if c.w0 >= |c.req.prompt| {
        FinishInState(cfg, st, c);
      } else {
        WindowStays(net, cfg, st, c);
        var r := RunWindow(net, cfg, st, c);
        StayInState(cfg, st, r);
        if r.pf.value.w0 >= |c.req.prompt| {
          FinishInState(cfg, r, r.pf.value);
        }
      }
    }
  }

  lemma NextInState(net: Network, cfg: Config, st: Sched, e: Event)
    requires Inv(net, cfg, st) && Enabled(cfg, st, e) && InBounds(net, cfg, st, e)
    requires Lawful(net, cfg, st) && InState(cfg, st) && Masked(st, e)
    ensures InState(cfg, Next(net, cfg, st, e))
  {
    hide SlotsOk, LanesOk, Owned, CursorOk, Lawful, InState, InMask, Decoded, Admit, DecodeStep, ForestStep, ForestOk, EachFits, Singles,
         PackedPass, PfAdvance, DecodeOk, RolesIn, RolesPacked;
    match e
    case Arrive(a, spec) =>
      AdmitStays(net, cfg, st, a, spec);
      StayInState(cfg, st, Admit(net, cfg, st, a, spec));
    case Window => WindowInState(net, cfg, st);
    case Step(inp) =>
      StepDecoded(net, cfg, st, inp);
      DecodedInState(net, cfg, st, DecodeStep(net, cfg, st, inp), RolesIn(st, inp));
    case PackedStep(packs) =>
      ForestDecoded(net, cfg, st, packs);
      DecodedInState(net, cfg, st, ForestStep(net, cfg, st, packs), RolesPacked(st, packs));
    case CancelLane(i) =>
      assert LanesStay(st, Cancel(st, i));
      StayInState(cfg, st, Cancel(st, i));
  }

  /** While every step so far masked the schema lanes it served, each of them stands in the state
      its document leads to, which is not over, and every finished document ended for a reason. */
  lemma {:induction false} SchemaFollowsDocument(net: Network, cfg: Config, sts: seq<Sched>, es: seq<Event>, k: nat)
    requires IsRun(net, cfg, sts, es) && k <= |es| && forall i :: 0 <= i < k ==> Masked(sts[i], es[i])
    ensures InState(cfg, sts[k])
    decreases k
  {
    hide Inv, Lawful, InState, Faithful, Enabled, InBounds, Next, Masked;
    if k == 0 {
      FreshInState(cfg, sts[0]);
    } else {
      SchemaFollowsDocument(net, cfg, sts, es, k - 1);
      EveryRunIsSound(net, cfg, sts, es, k - 1);
      EveryRunIsLawful(net, cfg, sts, es, k - 1);
      assert StepOk(net, cfg, sts, es, k - 1);
      SoundInv(net, cfg, sts[k - 1]);
      NextInState(net, cfg, sts[k - 1], es[k - 1]);
    }
  }

  lemma FreshInState(cfg: Config, st: Sched)
    requires Fresh(cfg, st)
    ensures InState(cfg, st)
  {
    hide LaneInState, DocumentLaw;
  }
}
