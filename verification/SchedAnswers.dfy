// When an answer ends, and with which tokens: laws over whole runs, on the fields a client sees.

module SchedAnswers {
  import opened Wrappers
  import opened Trunk
  import opened Device
  import opened GreedyLane
  import opened Slots
  import opened LaneSteps
  import opened Scheduler
  import opened SchedInvariant
  import opened SchedAdmit
  import opened SchedPrefill
  import opened SchedForest
  import opened SchedStreams
  import opened SchedRuns
  import opened SchedTurns
  import Penalty

  // ------------------------------------------------------------------ the law of the stop rule

  /** After k tokens the answer is used up, or its k-th token may end it. */
  ghost predicate EndsAt(eos: set<Token>, req: Request, sent: seq<Token>, k: nat)
    requires 0 < k <= |sent|
  {
    k >= req.maxNew || (sent[k - 1] in eos && !req.ignoreEos && k >= req.minNew)
  }

  /** No proper prefix longer than the first n tokens is an end. */
  ghost predicate NoEndBefore(eos: set<Token>, req: Request, sent: seq<Token>, n: nat) {
    forall k: nat :: n < k < |sent| ==> !EndsAt(eos, req, sent, k)
  }

  /** What a step may append to an answer: nothing past an end, and a lane that goes on has not
      reached one, was sent what it was fed, and feeds its last token next. */
  ghost predicate StepLaw(eos: set<Token>, l: Lane, cache: seq<Token>, s: Stream) {
    && l.sent <= s.sent && s.generated == |s.sent|
    && s.history == RememberAll(l.history, s.sent[|l.sent|..])
    && NoEndBefore(eos, l.req, s.sent, |l.sent|)
    && (!s.finished ==>
          && |s.sent| > |l.sent| && !EndsAt(eos, l.req, s.sent, |s.sent|)
          && s.cache + [s.last] == cache + [l.last] + s.sent[|l.sent|..])
    && (s.finished && l.req.schema.None? && s.sent != [] ==> EndsAt(eos, l.req, s.sent, |s.sent|))
  }

  lemma TakeLaw(cfg: Config, l: Lane, cache: seq<Token>, t: Token)
    requires |l.sent| == l.generated
    ensures StepLaw(cfg.eos, l, cache, BookedBy(cfg, l, cache, Plain(t)))
  {
    assert (l.sent + [t])[|l.sent|..] == [t];
    assert RememberAll(Remember(l.history, t), []) == Remember(l.history, t);
  }

  /** The emit loop: what it keeps of the accepted tokens and the bonus. */
  lemma {:induction false} DraftsLaw(eos: set<Token>, req: Request, sent: seq<Token>, ds: seq<Token>)
    ensures var (toks, hit) := EmitDrafts(eos, req, |sent|, ds);
            && toks <= ds && NoEndBefore(eos, req, sent + toks, |sent|)
            && (hit ==> toks != [] && EndsAt(eos, req, sent + toks, |sent + toks|))
            && (!hit && |sent + toks| < req.maxNew ==>
                  toks == ds && (toks != [] ==> !EndsAt(eos, req, sent + toks, |sent + toks|)))
    decreases |ds|
  {
    if ds != [] && |sent| < req.maxNew {
      var next := sent + [ds[0]];
      var (toks, hit) := EmitDrafts(eos, req, |next|, ds[1..]);
      if EosHit(eos, req, |sent| + 1, ds[0]) {
        assert EmitDrafts(eos, req, |sent|, ds) == ([ds[0]], true);
      } else {
        DraftsLaw(eos, req, next, ds[1..]);
        assert sent + ([ds[0]] + toks) == next + toks;
        LawShifts(eos, req, sent, ds[0], toks);
      }
    }
  }

  lemma LawShifts(eos: set<Token>, req: Request, sent: seq<Token>, t: Token, toks: seq<Token>)
    requires |sent| < req.maxNew && !EosHit(eos, req, |sent| + 1, t)
    requires NoEndBefore(eos, req, sent + [t] + toks, |sent| + 1) && (toks == [] || |sent| + 1 < req.maxNew)
    ensures NoEndBefore(eos, req, sent + [t] + toks, |sent|)
    ensures toks == [] && |sent| + 1 < req.maxNew ==> !EndsAt(eos, req, sent + [t] + toks, |sent| + 1)
  {
    assert (sent + [t] + toks)[|sent|] == t;
  }

  /** And then the bonus. */
  lemma EmitLaw(eos: set<Token>, req: Request, sent: seq<Token>, ds: seq<Token>, bonus: Token)
    ensures var (toks, hit) := Emit(eos, req, |sent|, ds, bonus);
            var over := hit || |sent + toks| >= req.maxNew;
            && NoEndBefore(eos, req, sent + toks, |sent|)
            && (over && sent + toks != [] ==> EndsAt(eos, req, sent + toks, |sent + toks|))
            && (!over ==> toks == ds + [bonus] && !EndsAt(eos, req, sent + toks, |sent + toks|))
  {
    DraftsLaw(eos, req, sent, ds);
    var (toks, hit) := EmitDrafts(eos, req, |sent|, ds);
    if !hit && |sent| + |toks| < req.maxNew {
      var all := sent + (toks + [bonus]);
      assert all == sent + toks + [bonus];
      forall k: nat | |sent| < k < |all| ensures !EndsAt(eos, req, all, k) {
        assert all[k - 1] == (sent + toks)[k - 1];
        assert k < |sent + toks| ==> !EndsAt(eos, req, sent + toks, k);
      }
    }
  }

  /** A chain step's bookkeeping, with or without the schema machine. */
  lemma CommitLaw(cfg: Config, l: Lane, cache: seq<Token>, req: Request, path: seq<Token>, bonus: Token)
    requires |l.sent| == l.generated && (req == l.req || req == Unmasked(l.req))
    ensures StepLaw(cfg.eos, l, cache, Commit(cfg.eos, req, View(l, cache, false), path, bonus))
  {
    EmitLaw(cfg.eos, req, l.sent, path, bonus);
    hide Emit, RememberAll;
    var s := Commit(cfg.eos, req, View(l, cache, false), path, bonus);
    SameEnds(cfg.eos, req, l.req, s.sent);
    assert s.sent[|l.sent|..] == Emit(cfg.eos, req, l.generated, path, bonus).0;
    assert !s.finished ==> s.sent[|l.sent|..] == path + [bonus];
  }

  /** Ends do not depend on the schema. */
  lemma SameEnds(eos: set<Token>, req: Request, req': Request, sent: seq<Token>)
    requires req == req' || req == Unmasked(req')
    ensures forall k: nat :: 0 < k <= |sent| ==> EndsAt(eos, req, sent, k) == EndsAt(eos, req', sent, k)
  {
  }

  /** The sampled step's cut. */
  lemma {:induction false} CutLaw(eos: set<Token>, req: Request, sent: seq<Token>, ts: seq<Token>)
    requires ts != []
    ensures var toks := Cut(eos, req, |sent|, ts);
            && toks != [] && NoEndBefore(eos, req, sent + toks, |sent|)
            && (EndsAt(eos, req, sent + toks, |sent + toks|) <==> Stops(eos, req, |sent + toks|, toks[|toks| - 1]))
            && (toks == ts || EndsAt(eos, req, sent + toks, |sent + toks|))
    decreases |ts|
  {
    hide NoEndBefore, EndsAt, Stops;
    OneToken(eos, req, sent, ts[0]);
    if Stops(eos, req, |sent| + 1, ts[0]) || |ts| == 1 {
      assert |ts| == 1 ==> Cut(eos, req, |sent| + 1, ts[1..]) == [] && ts == [ts[0]];
      assert Cut(eos, req, |sent|, ts) == [ts[0]];
    } else {
      var toks := Cut(eos, req, |sent| + 1, ts[1..]);
      CutLaw(eos, req, sent + [ts[0]], ts[1..]);
      assert sent + ([ts[0]] + toks) == sent + [ts[0]] + toks;
      NotYetOver(eos, req, sent, ts[0], toks);
    }
  }

  lemma OneToken(eos: set<Token>, req: Request, sent: seq<Token>, t: Token)
    ensures NoEndBefore(eos, req, sent + [t], |sent|)
    ensures EndsAt(eos, req, sent + [t], |sent| + 1) <==> Stops(eos, req, |sent| + 1, t)
  {
  }

  lemma NotYetOver(eos: set<Token>, req: Request, sent: seq<Token>, t: Token, toks: seq<Token>)
    requires !Stops(eos, req, |sent| + 1, t) && toks != [] && NoEndBefore(eos, req, sent + [t] + toks, |sent| + 1)
    ensures NoEndBefore(eos, req, sent + [t] + toks, |sent|)
  {
    hide NoEndBefore;
    LawShifts(eos, req, sent, t, toks);
  }

  lemma DrawnLaw(cfg: Config, l: Lane, cache: seq<Token>, path: seq<Token>, tail: Token)
    requires |l.sent| == l.generated
    ensures StepLaw(cfg.eos, l, cache, SampledStream(cfg, l, cache, path, tail))
  {
    hide Cut, Stops, EndsAt, RememberAll, NoEndBefore;
    CutLaw(cfg.eos, l.req, l.sent, path + [tail]);
    var s, toks := SampledStream(cfg, l, cache, path, tail), Cut(cfg.eos, l.req, l.generated, path + [tail]);
    assert s.sent[|l.sent|..] == toks;
    if !s.finished {
      FedPath(cache, l.last, path, tail);
    }
  }

  lemma FedPath(cache: seq<Token>, last: Token, path: seq<Token>, tail: Token)
    ensures cache + [last] + path + [tail] == cache + [last] + (path + [tail]) && (path + [tail])[|path|] == tail
  {
  }

  /** Every kind of step keeps to the law. */
  lemma BookedLaw(cfg: Config, l: Lane, cache: seq<Token>, how: How)
    requires |l.sent| == l.generated
    ensures StepLaw(cfg.eos, l, cache, BookedBy(cfg, l, cache, how))
  {
    hide StepLaw, Commit, SampledStream, Take;
    match how
    case Plain(t) => TakeLaw(cfg, l, cache, t);
    case Chained(path, bonus) => CommitLaw(cfg, l, cache, l.req, path, bonus);
    case Blind(path, bonus) => CommitLaw(cfg, l, cache, Unmasked(l.req), path, bonus);
    case Drawn(path, tail) => DrawnLaw(cfg, l, cache, path, tail);
  }

  // ------------------------------------------------------------------ lanes and answers

  /** The history is the end of everything generated: all of it, or at least 128 tokens. */
  ghost predicate HistoryLaw(history: seq<Token>, all: seq<Token>) {
    |history| <= |all| && history == all[|all| - |history|..] && (|history| == |all| || |history| >= 128)
  }

  lemma {:induction false} HistoryGrows(history: seq<Token>, all: seq<Token>, ts: seq<Token>)
    requires HistoryLaw(history, all)
    ensures HistoryLaw(RememberAll(history, ts), all + ts)
    decreases |ts|
  {
    hide HistoryLaw, Remember;
    if ts == [] {
      assert all + ts == all;
    } else {
      RememberKeeps(history, all, ts[0]);
      HistoryGrows(Remember(history, ts[0]), all + [ts[0]], ts[1..]);
      assert all + [ts[0]] + ts[1..] == all + ts;
    }
  }

  lemma RememberKeeps(history: seq<Token>, all: seq<Token>, t: Token)
    requires HistoryLaw(history, all)
    ensures HistoryLaw(Remember(history, t), all + [t])
  {
  }

  /** So the last 64 tokens generated are there. */
  lemma RecentIsRecent(history: seq<Token>, all: seq<Token>)
    requires HistoryLaw(history, all)
    ensures Penalty.Recent(history) == Penalty.Recent(all)
  {
  }

  /** What a lane was fed and sent: the prompt, for a schema lane the prefill token it keeps to
      itself, and then exactly what the client has; no part of that is an end. */
  ghost predicate LaneLaw(net: Network, cfg: Config, l: Lane, cache: seq<Token>) {
    && |l.sent| == l.generated
    && cache + [l.last] == l.req.prompt + Unsent(net, l.req) + l.sent
    && HistoryLaw(l.history, Unsent(net, l.req) + l.sent)
    && (l.req.schema.None? ==> l.sent != [] && l.sent[0] == FirstToken(net, l.req.prompt))
    && NoEndBefore(cfg.eos, l.req, l.sent, Given(l.req))
    && (|l.sent| > Given(l.req) ==> !EndsAt(cfg.eos, l.req, l.sent, |l.sent|))
  }

  function Unsent(net: Network, req: Request): seq<Token> {
    if req.schema.Some? then [FirstToken(net, req.prompt)] else []
  }

  /** What a client got: nothing past an end, and an end unless it hung up or a document closed;
      the reason says whether the budget was used up. */
  ghost predicate AnswerLaw(net: Network, cfg: Config, o: Outcome) {
    o.Answer? ==>
      && NoEndBefore(cfg.eos, o.req, o.sent, Given(o.req))
      && (o.req.schema.None? ==> o.sent != [] && o.sent[0] == FirstToken(net, o.req.prompt))
      && (o.req.schema.None? && !o.cancelled ==> EndsAt(cfg.eos, o.req, o.sent, |o.sent|))
      && o.reason == if |o.sent| >= o.req.maxNew then Length else Stop
  }

  ghost predicate Lawful(net: Network, cfg: Config, st: Sched) {
    && (forall i :: 0 <= i < |st.lanes| ==>
          st.lanes[i].phys < |st.slots| && LaneLaw(net, cfg, st.lanes[i], st.slots[st.lanes[i].phys].cache))
    && (forall i :: 0 <= i < |st.outcomes| ==> AnswerLaw(net, cfg, st.outcomes[i]))
  }

  /** A lane that goes on keeps its law. */
  lemma LaneGoesOn(net: Network, cfg: Config, l: Lane, cache: seq<Token>, s: Stream, l': Lane)
    requires LaneLaw(net, cfg, l, cache) && StepLaw(cfg.eos, l, cache, s) && !s.finished
    requires l' == Update(l, s, l'.pos).(stale := l'.stale)
    ensures LaneLaw(net, cfg, l', s.cache)
  {
    hide FirstToken, HistoryLaw, RememberAll, NoEndBefore, EndsAt, Unsent;
    EndsExtend(cfg.eos, l.req, l.sent, s.sent, Given(l.req));
    var ts := s.sent[|l.sent|..];
    HistoryGrows(l.history, Unsent(net, l.req) + l.sent, ts);
    SentGrows(l.req.prompt, Unsent(net, l.req), l.sent, s.sent);
  }

  lemma SentGrows(prompt: seq<Token>, first: seq<Token>, sent: seq<Token>, sent': seq<Token>)
    requires sent <= sent'
    ensures prompt + first + sent + sent'[|sent|..] == prompt + first + sent'
    ensures first + sent + sent'[|sent|..] == first + sent' && (sent != [] ==> sent'[0] == sent[0])
  {
    assert sent' == sent + sent'[|sent|..];
  }

  lemma EndsExtend(eos: set<Token>, req: Request, sent: seq<Token>, sent': seq<Token>, n: nat)
    requires sent <= sent' && NoEndBefore(eos, req, sent, n) && NoEndBefore(eos, req, sent', |sent|)
    requires |sent| > n ==> !EndsAt(eos, req, sent, |sent|)
    ensures NoEndBefore(eos, req, sent', n)
  {
    forall k: nat | n < k < |sent'| ensures !EndsAt(eos, req, sent', k) {
      if k <= |sent| {
        assert sent'[k - 1] == sent[k - 1];
        assert k < |sent| ==> !EndsAt(eos, req, sent, k);
      }
    }
  }

  /** A lane that is over leaves a lawful answer. */
  lemma LaneAnswers(net: Network, cfg: Config, l: Lane, cache: seq<Token>, s: Stream)
    requires LaneLaw(net, cfg, l, cache) && StepLaw(cfg.eos, l, cache, s) && (s.finished || l.cancelled)
    ensures AnswerLaw(net, cfg, OutcomeOf(Update(l, s, 0)))
  {
    hide FirstToken;
    EndsExtend(cfg.eos, l.req, l.sent, s.sent, Given(l.req));
    assert l.sent != [] ==> s.sent[0] == l.sent[0];
  }

  lemma DecodedLawful(net: Network, cfg: Config, st: Sched, st': Sched, roles: Roles)
    requires Lawful(net, cfg, st) && Decoded(cfg, st, st', roles)
    ensures Lawful(net, cfg, st')
  {
    hide Decoded, LaneLaw, AnswerLaw, StepLaw, BookedBy, HowOk, OutcomeOf;
    OldOutcomes(cfg, st, st', roles);
    forall j | 0 <= j < |st'.lanes|
      ensures st'.lanes[j].phys < |st'.slots| && LaneLaw(net, cfg, st'.lanes[j], st'.slots[st'.lanes[j].phys].cache)
    {
      var i, how := LaneWas(cfg, st, st', roles, j);
      var l := st.lanes[i];
      LaneSent(net, cfg, l, st.slots[l.phys].cache);
      BookedLaw(cfg, l, st.slots[l.phys].cache, how);
      LaneGoesOn(net, cfg, l, st.slots[l.phys].cache, BookedBy(cfg, l, st.slots[l.phys].cache, how), st'.lanes[j]);
    }
    forall j | 0 <= j < |st'.outcomes| ensures AnswerLaw(net, cfg, st'.outcomes[j]) {
      if j < |st.outcomes| {
        assert st'.outcomes[j] == st.outcomes[j];
      } else {
        var i, how := OutcomeWas(cfg, st, st', roles, j);
        var l := st.lanes[i];
        LaneSent(net, cfg, l, st.slots[l.phys].cache);
        BookedLaw(cfg, l, st.slots[l.phys].cache, how);
        LaneAnswers(net, cfg, l, st.slots[l.phys].cache, BookedBy(cfg, l, st.slots[l.phys].cache, how));
      }
    }
  }

  lemma LaneSent(net: Network, cfg: Config, l: Lane, cache: seq<Token>)
    requires LaneLaw(net, cfg, l, cache)
    ensures |l.sent| == l.generated
  {
    hide NoEndBefore, EndsAt, FirstToken;
  }

  // ------------------------------------------------------------------ the other steps

  /** A step that leaves every lane and its cache alone, and at most turns someone away. */
  ghost predicate LanesStay(st: Sched, st': Sched) {
    && |st'.lanes| == |st.lanes| && |st'.slots| == |st.slots|
    && (forall i :: 0 <= i < |st.lanes| ==>
          && st'.lanes[i] == st.lanes[i].(cancelled := st'.lanes[i].cancelled)
          && (st.lanes[i].phys < |st.slots| ==> st'.slots[st.lanes[i].phys].cache == st.slots[st.lanes[i].phys].cache))
    && st.outcomes <= st'.outcomes && forall i :: |st.outcomes| <= i < |st'.outcomes| ==> st'.outcomes[i].Refusal?
  }

  lemma StayLawful(net: Network, cfg: Config, st: Sched, st': Sched)
    requires Lawful(net, cfg, st) && LanesStay(st, st')
    ensures Lawful(net, cfg, st')
  {
    forall i | 0 <= i < |st'.lanes|
      ensures st'.lanes[i].phys < |st'.slots| && LaneLaw(net, cfg, st'.lanes[i], st'.slots[st'.lanes[i].phys].cache)
    {
      assert LaneLaw(net, cfg, st.lanes[i], st.slots[st.lanes[i].phys].cache);
    }
    forall i | 0 <= i < |st'.outcomes| ensures AnswerLaw(net, cfg, st'.outcomes[i]) {
      if i < |st.outcomes| {
        assert st'.outcomes[i] == st.outcomes[i];
      }
    }
  }

  lemma AdmitStays(net: Network, cfg: Config, st: Sched, a: Arrival, spec: bool)
    requires Inv(net, cfg, st) && st.pf.None?
    ensures LanesStay(st, Admit(net, cfg, st, a, spec))
  {
    hide SlotsOk, LanesOk, CursorOk, Choice, PickOk, Owned, TooLong, Restore, Invalidated, ClampedBudget, Boundary;
    ChoiceOk(cfg, st.free, st.slots, a.req.prompt);
    ChoiceIsFree(cfg, st.free, st.slots, a.req.prompt);
    if Choice(cfg, st.free, st.slots, a.req.prompt).Some? {
      PickedFree(cfg, st, Choice(cfg, st.free, st.slots, a.req.prompt).value);
    }
  }

  /** A window leaves the lanes alone, or adds the one whose prompt it finished. */
  lemma WindowLawful(net: Network, cfg: Config, st: Sched)
    requires Inv(net, cfg, st) && Lawful(net, cfg, st)
    ensures Lawful(net, cfg, PfAdvance(net, cfg, st))
  {
    hide Lawful, RunWindow, PfFinish, SlotsOk, LanesOk, Owned, CursorOk;
    if st.pf.Some? {
      var c := st.pf.value;
      if c.w0 >= |c.req.prompt| {
        InstallLawful(net, cfg, st, c);
      } else {
        WindowStays(net, cfg, st, c);
        StayLawful(net, cfg, st, RunWindow(net, cfg, st, c));
        WindowKeepsInv(net, cfg, st, c);
        var r := RunWindow(net, cfg, st, c);
        hide Inv;
        if r.pf.value.w0 >= |c.req.prompt| {
          InstallLawful(net, cfg, r, r.pf.value);
        }
      }
    }
  }

  lemma WindowStays(net: Network, cfg: Config, st: Sched, c: Cursor)
    requires Inv(net, cfg, st) && st.pf == Some(c) && c.w0 < |c.req.prompt|
    ensures LanesStay(st, RunWindow(net, cfg, st, c))
  {
    hide SlotsOk, LanesOk, Owned, CursorOk, Consume, SnapshotDev, WindowEnd;
    CursorAlone(cfg, st);
  }

  lemma InstallLawful(net: Network, cfg: Config, st: Sched, c: Cursor)
    requires Inv(net, cfg, st) && Lawful(net, cfg, st) && st.pf == Some(c) && c.w0 >= |c.req.prompt|
    ensures Lawful(net, cfg, PfFinish(cfg, st, c))
  {
    CursorAlone(cfg, st);
    InstallLaw(net, cfg, c);
    hide LaneLaw, AnswerLaw, Install, SlotsOk, LanesOk, Owned, CursorOk, CopyCell;
    var r := PfFinish(cfg, st, c);
    assert Install(c).phys == c.phys by { InstallPhys(c); }
    forall i | 0 <= i < |r.lanes| ensures r.lanes[i].phys < |r.slots| && LaneLaw(net, cfg, r.lanes[i], r.slots[r.lanes[i].phys].cache) {
      if i < |st.lanes| {
        assert LaneLaw(net, cfg, st.lanes[i], st.slots[st.lanes[i].phys].cache);
      }
    }
  }

  lemma InstallLaw(net: Network, cfg: Config, c: Cursor)
    requires c.firstTok == FirstToken(net, c.req.prompt)
    ensures LaneLaw(net, cfg, Install(c), c.req.prompt)
  {
    hide FirstToken;
  }

  lemma NextLawful(net: Network, cfg: Config, st: Sched, e: Event)
    requires Inv(net, cfg, st) && Enabled(cfg, st, e) && InBounds(net, cfg, st, e) && Lawful(net, cfg, st)
    ensures Lawful(net, cfg, Next(net, cfg, st, e))
  {
    hide SlotsOk, LanesOk, Owned, CursorOk, Lawful, Decoded, Admit, DecodeStep, ForestStep, ForestOk, EachFits, Singles, PackedPass, PfAdvance, DecodeOk;
    match e
    case Arrive(a, spec) =>
      AdmitStays(net, cfg, st, a, spec);
      StayLawful(net, cfg, st, Admit(net, cfg, st, a, spec));
    case Window => WindowLawful(net, cfg, st);
    case Step(inp) =>
      StepDecoded(net, cfg, st, inp);
      DecodedLawful(net, cfg, st, DecodeStep(net, cfg, st, inp), RolesIn(st, inp));
    case PackedStep(packs) =>
      ForestDecoded(net, cfg, st, packs);
      DecodedLawful(net, cfg, st, ForestStep(net, cfg, st, packs), RolesPacked(st, packs));
    case CancelLane(i) =>
      assert LanesStay(st, Cancel(st, i));
      StayLawful(net, cfg, st, Cancel(st, i));
  }

  // ------------------------------------------------------------------ over whole runs

  lemma {:induction false} EveryRunIsLawful(net: Network, cfg: Config, sts: seq<Sched>, es: seq<Event>, k: nat)
    requires IsRun(net, cfg, sts, es) && k <= |es|
    ensures Lawful(net, cfg, sts[k])
    decreases k
  {
    hide Inv, Lawful, Faithful, Enabled, InBounds, Next, Fresh;
    if k > 0 {
      EveryRunIsLawful(net, cfg, sts, es, k - 1);
      EveryRunIsSound(net, cfg, sts, es, k - 1);
      assert StepOk(net, cfg, sts, es, k - 1);
      SoundInv(net, cfg, sts[k - 1]);
      NextLawful(net, cfg, sts[k - 1], es[k - 1]);
    } else {
      FreshLawful(net, cfg, sts[0]);
    }
  }

  lemma FreshLawful(net: Network, cfg: Config, st: Sched)
    requires Fresh(cfg, st)
    ensures Lawful(net, cfg, st)
  {
    hide LaneLaw, AnswerLaw;
  }

  lemma SoundInv(net: Network, cfg: Config, st: Sched)
    requires Sound(net, cfg, st)
    ensures Inv(net, cfg, st)
  {
    hide Inv, Faithful;
  }

  /** A client that did not hang up and asked for no schema gets the prefill token and then tokens up
      to the first that uses up the budget or is an end token it had not waived, past its minimum. */
  lemma AnswersEndRight(net: Network, cfg: Config, sts: seq<Sched>, es: seq<Event>, k: nat, i: nat)
    requires IsRun(net, cfg, sts, es) && k <= |es| && i < |sts[k].outcomes|
    requires var o := sts[k].outcomes[i]; o.Answer? && o.req.schema.None? && !o.cancelled
    ensures var o := sts[k].outcomes[i];
            var n := |o.sent|;
            && n > 0 && (o.req.prompt != [] ==> o.sent[0] == net.pick(Fold(net, o.req.prompt), multiset{}, None))
            && (n >= o.req.maxNew || (o.sent[n - 1] in cfg.eos && !o.req.ignoreEos && n >= o.req.minNew))
            && (forall m: nat :: 1 < m < n ==> !EndsAt(cfg.eos, o.req, o.sent, m))
            && (o.reason == Length <==> n >= o.req.maxNew) && (o.reason == Stop <==> n < o.req.maxNew)
  {
    hide Lawful, FirstToken, AnswerLaw;
    EveryRunIsLawful(net, cfg, sts, es, k);
    LawfulAnswer(net, cfg, sts[k], i);
    LawSpelled(net, cfg, sts[k].outcomes[i]);
  }

  lemma LawSpelled(net: Network, cfg: Config, o: Outcome)
    requires AnswerLaw(net, cfg, o) && o.Answer? && o.req.schema.None? && !o.cancelled
    ensures var n := |o.sent|;
            && n > 0 && (o.req.prompt != [] ==> o.sent[0] == net.pick(Fold(net, o.req.prompt), multiset{}, None))
            && (n >= o.req.maxNew || (o.sent[n - 1] in cfg.eos && !o.req.ignoreEos && n >= o.req.minNew))
            && (forall m: nat :: 1 < m < n ==> !EndsAt(cfg.eos, o.req, o.sent, m))
            && (o.reason == Length <==> n >= o.req.maxNew) && (o.reason == Stop <==> n < o.req.maxNew)
  {
  }

  lemma LawfulAnswer(net: Network, cfg: Config, st: Sched, i: nat)
    requires Lawful(net, cfg, st) && i < |st.outcomes|
    ensures AnswerLaw(net, cfg, st.outcomes[i])
  {
    hide AnswerLaw, LaneLaw;
  }

  /** In every reachable state a lane's slot holds the prompt and what the client was sent, but for
      the token that is fed next: sampled, packed and tree lanes included. */
  lemma FeedsWhatItSent(net: Network, cfg: Config, sts: seq<Sched>, es: seq<Event>, k: nat, i: nat)
    requires IsRun(net, cfg, sts, es) && k <= |es| && i < |sts[k].lanes|
    ensures var l := sts[k].lanes[i];
            && l.phys < |sts[k].slots| && |l.sent| == l.generated
            && sts[k].slots[l.phys].cache + [l.last]
                 == l.req.prompt + (if l.req.schema.Some? then [FirstToken(net, l.req.prompt)] else []) + l.sent
  {
    EveryRunIsLawful(net, cfg, sts, es, k);
    assert LaneLaw(net, cfg, sts[k].lanes[i], sts[k].slots[sts[k].lanes[i].phys].cache);
  }

  /** And the penalty table of its next step counts exactly the last 64 tokens generated. */
  lemma PenaltiesSeeTheAnswer(net: Network, cfg: Config, sts: seq<Sched>, es: seq<Event>, k: nat, i: nat)
    requires IsRun(net, cfg, sts, es) && k <= |es| && i < |sts[k].lanes|
    ensures var l := sts[k].lanes[i];
            Penalty.Meaning(Penalty.DecodeTable(l.history)) == multiset(Penalty.Recent(Unsent(net, l.req) + l.sent))
  {
    hide Lawful, Unsent;
    EveryRunIsLawful(net, cfg, sts, es, k);
    LawfulHistory(net, cfg, sts[k], i);
    RecentIsRecent(sts[k].lanes[i].history, Unsent(net, sts[k].lanes[i].req) + sts[k].lanes[i].sent);
    Penalty.DecodeTableMeaning(sts[k].lanes[i].history);
  }

  lemma LawfulHistory(net: Network, cfg: Config, st: Sched, i: nat)
    requires Lawful(net, cfg, st) && i < |st.lanes|
    ensures HistoryLaw(st.lanes[i].history, Unsent(net, st.lanes[i].req) + st.lanes[i].sent)
  {
    hide HistoryLaw, Unsent, NoEndBefore;
    assert LaneLaw(net, cfg, st.lanes[i], st.slots[st.lanes[i].phys].cache);
  }
}
