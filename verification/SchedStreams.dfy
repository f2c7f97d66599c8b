// Streams under the scheduler: every step leaves each unconstrained greedy request with its own
// cold, plain, greedy stream, sent so far or answered.

module SchedStreams {
  import opened Wrappers
  import opened Trunk
  import opened Device
  import opened GreedyLane
  import opened Lossless
  import opened Slots
  import opened LaneSteps
  import opened Scheduler
  import opened SchedInvariant
  import opened SchedAdmit
  import opened SchedPrefill
  import opened SchedDecode
  import opened SchedForest
  import opened Forest

  // ------------------------------------------------------------------ faithful streams

  /** Greedy, without penalties and without a schema, and asking for more than one token. */
  ghost predicate Unconstrained(req: Request) {
    req.greedy && !req.penalized && req.schema.None? && req.maxNew >= 2
  }

  /** Or greedy with whatever else it asks for, on a lane that is never speculated for. */
  ghost predicate Plainly(req: Request, primed: bool) {
    Unconstrained(req) || (req.greedy && !primed)
  }

  /** A fresh server's stream for this request after prefill: one prompt, and one token, which is sent
      unless there is a schema. */
  function Start(net: Network, req: Request): Stream {
    var t := FirstToken(net, req.prompt);
    match req.schema
    case None => Stream(req.prompt, t, 1, [t], 0, [t], false)
    case Some(sm) => Stream(req.prompt, t, 0, [t], sm.start, [], false)
  }

  /** The stream after at most `n` one-token decode steps on that fresh server. */
  function Cold(net: Network, cfg: Config, req: Request, n: nat): Stream {
    Decodes(net, cfg.eos, req, Start(net, req), n)
  }

  ghost predicate StreamOk(net: Network, cfg: Config, l: Lane, cache: seq<Token>) {
    Plainly(l.req, l.primed) ==> exists n :: View(l, cache, false) == Cold(net, cfg, l.req, n)
  }

  /** The client got a prefix of the cold stream, and all of it unless it hung up. */
  ghost predicate OutcomeOk(net: Network, cfg: Config, o: Outcome) {
    o.Answer? && Plainly(o.req, o.primed) ==>
      exists n :: Cold(net, cfg, o.req, n).sent == o.sent && (Cold(net, cfg, o.req, n).finished || o.cancelled)
  }

  ghost predicate Faithful(net: Network, cfg: Config, st: Sched)
    requires ShapeOk(cfg, st)
  {
    && (forall i :: 0 <= i < |st.lanes| ==> StreamOk(net, cfg, st.lanes[i], st.slots[st.lanes[i].phys].cache))
    && (forall i :: 0 <= i < |st.outcomes| ==> OutcomeOk(net, cfg, st.outcomes[i]))
  }

  // ------------------------------------------------------------------ one served lane

  /** Any step of an unconstrained greedy lane, plain or speculative, is some plain steps. */
  lemma ServeDecodes(net: Network, cfg: Config, d: Dev, l: Lane, cache: seq<Token>, spec: bool, draft: Draft, draw: Token)
    returns (k: nat)
    requires Plainly(l.req, l.primed) && LaneOk(net, cfg, d, l, cache)
    requires spec ==> l.primed && LegalDraft(cfg, l.req, draft)
    requires Ready(net, cfg, d, l, cache, Rows(spec))
    ensures SameLane(Serve(net, cfg, d, l, cache, spec, draft, draw).stream,
                     Decodes(net, cfg.eos, l.req, View(l, cache, false), k))
  {
    var s := View(l, cache, false);
    hide ServedOk, ChainStep, SampledStep, TreeStep, PlainStep, NewTokens, Chain, QuietUntilLast, Live;
    if spec {
      hide SameLane;
      match draft
      case ChainDraft(drafts, accepted, tail) =>
        ChainStepOk(net, cfg, d, l, cache, drafts);
        NoSchemaIsQuiet(l.req, s.schemaState, NewTokens(net, cfg.eos, l.req, s, drafts));
        ChainIsPlain(net, cfg.eos, l.req, s, drafts);
        k := |NewTokens(net, cfg.eos, l.req, s, drafts)|;
      case TreeDraft(parent, nodes) =>
        k := TreeStepDecodes(net, cfg, d, l, cache, parent, nodes);
    } else {
      PlainStepOk(net, cfg, d, l, cache, draw);
      k := 1;
      assert Decodes(net, cfg.eos, l.req, s, 1) == Decode(net, cfg.eos, l.req, s);
    }
  }

  /** The stream a served lane shows is a cold stream again. */
  lemma ServedStream(net: Network, cfg: Config, d: Dev, l: Lane, cache: seq<Token>, spec: bool, draft: Draft, draw: Token)
    requires StreamOk(net, cfg, l, cache) && LaneOk(net, cfg, d, l, cache)
    requires spec ==> l.primed && LegalDraft(cfg, l.req, draft)
    requires Ready(net, cfg, d, l, cache, Rows(spec))
    ensures var r := Serve(net, cfg, d, l, cache, spec, draft, draw);
            Plainly(l.req, l.primed) ==> exists n :: SameLane(r.stream, Cold(net, cfg, l.req, n))
  {
    if Plainly(l.req, l.primed) {
      var m :| View(l, cache, false) == Cold(net, cfg, l.req, m);
      var k := ServeDecodes(net, cfg, d, l, cache, spec, draft, draw);
      hide Serve, LegalDraft, Ready, LaneOk, SameLane, Decodes, View;
      DecodesAdd(net, cfg.eos, l.req, Start(net, l.req), m, k);
      assert SameLane(Serve(net, cfg, d, l, cache, spec, draft, draw).stream, Cold(net, cfg, l.req, m + k));
    }
  }

  /** Lanes in the middle of a decode step: those over already have their outcome. */
  ghost predicate MidFaithful(net: Network, cfg: Config, p: Progress)
    requires ShapeOk(cfg, p.st)
  {
    && |p.over| <= |p.st.lanes|
    && (forall i :: 0 <= i < |p.st.lanes| ==>
          if i < |p.over| && p.over[i] then OutcomeOk(net, cfg, OutcomeOf(p.st.lanes[i]))
          else StreamOk(net, cfg, p.st.lanes[i], p.st.slots[p.st.lanes[i].phys].cache))
    && (forall i :: 0 <= i < |p.st.outcomes| ==> OutcomeOk(net, cfg, p.st.outcomes[i]))
  }

  lemma UpdatedLane(net: Network, cfg: Config, l: Lane, r: Served, stale: bool)
    requires Plainly(l.req, l.primed) ==> exists n :: SameLane(r.stream, Cold(net, cfg, l.req, n))
    ensures var l' := Update(l, r.stream, r.pos).(stale := stale);
            if r.stream.finished || l.cancelled then OutcomeOk(net, cfg, OutcomeOf(l'))
            else StreamOk(net, cfg, l', r.stream.cache)
  {
    hide Cold;
    var l' := Update(l, r.stream, r.pos).(stale := stale);
    if Plainly(l.req, l.primed) {
      var n :| SameLane(r.stream, Cold(net, cfg, l.req, n));
      assert Cold(net, cfg, l.req, n).sent == r.stream.sent == l'.sent;
      if !r.stream.finished && !l.cancelled {
        assert View(l', r.stream.cache, false) == Cold(net, cfg, l.req, n);
      }
    }
  }

  lemma OthersFaithful(net: Network, cfg: Config, p: Progress, k: nat, r: Served, spec: bool)
    requires ShapeOk(cfg, p.st) && Owned(cfg, p.st) && MidFaithful(net, cfg, p) && |p.over| == k < |p.st.lanes|
    requires ShapeOk(cfg, ApplyServed(p.st, k, r, spec))
    requires var l := p.st.lanes[k];
             Plainly(l.req, l.primed) ==> exists n :: SameLane(r.stream, Cold(net, cfg, l.req, n))
    ensures MidFaithful(net, cfg, Progress(ApplyServed(p.st, k, r, spec), p.over + [r.stream.finished || p.st.lanes[k].cancelled]))
  {
    var p' := Progress(ApplyServed(p.st, k, r, spec), p.over + [r.stream.finished || p.st.lanes[k].cancelled]);
    UpdatedLane(net, cfg, p.st.lanes[k], r, p.st.lanes[k].stale || !spec);
    hide ShapeOk, StreamOk, OutcomeOk, Cold, SameLane, Plainly, OutcomeOf, Owned, Update;
    forall i | 0 <= i < |p.st.lanes|
      ensures if i < |p'.over| && p'.over[i] then OutcomeOk(net, cfg, OutcomeOf(p'.st.lanes[i]))
              else StreamOk(net, cfg, p'.st.lanes[i], p'.st.slots[p'.st.lanes[i].phys].cache)
    {
      if i != k {
        LanesApart(cfg, p.st, i, k);
      }
    }
  }

  lemma NextFaithful(net: Network, cfg: Config, p: Progress, inp: StepIn, spec: bool, k: nat)
    requires MidStep(net, cfg, p) && MidFaithful(net, cfg, p)
    requires |p.over| == k < |p.st.lanes| && (spec ==> p.st.lanes[k].primed && LegalDraft(cfg, p.st.lanes[k].req, inp.draft))
    ensures LaneFits(cfg, p.st.lanes[k], spec, inp.draft)
    ensures ShapeOk(cfg, ServeNext(net, cfg, p, inp, spec, k).st)
    ensures MidFaithful(net, cfg, ServeNext(net, cfg, p, inp, spec, k))
  {
    var l := p.st.lanes[k];
    var cache := p.st.slots[l.phys].cache;
    assert StreamOk(net, cfg, l, cache);
    hide Serve, LegalDraft, ServedOk, Counts, LaneOk, StandingOk, SlotsOk, StreamOk, CursorOk, Ready, MidFaithful, ShapeOk, Owned, ApplyServed;
    var r := NextServed(net, cfg, p, inp, spec, k);
    ServeNextFits(net, cfg, p, inp, spec, k);
    LaneReady(net, cfg, p.st, l, spec);
    ServedStream(net, cfg, p.st.dev, l, cache, spec, inp.draft, inp.draws(k));
    OthersFaithful(net, cfg, p, k, r, spec);
  }

  lemma ServeFirstOpens(net: Network, cfg: Config, st: Sched, inp: StepIn)
    requires DecodeOk(cfg, st, inp) && Faithful(net, cfg, st)
    ensures MidFaithful(net, cfg, ServeFirst(net, cfg, st, inp, 0))
  {
    hide DecodeOk, ServeNext, Speculates, StreamOk, OutcomeOk;
  }

  lemma {:induction false} ServeFirstFaithful(net: Network, cfg: Config, st: Sched, inp: StepIn, k: nat)
    requires Inv(net, cfg, st) && DecodeOk(cfg, st, inp) && Faithful(net, cfg, st) && k <= |st.lanes|
    ensures MidFaithful(net, cfg, ServeFirst(net, cfg, st, inp, k))
    decreases k
  {
    hide *;
    if k == 0 {
      ServeFirstOpens(net, cfg, st, inp);
    } else {
      ServeFirstFaithful(net, cfg, st, inp, k - 1);
      ServeFirstKeeps(net, cfg, st, inp, k - 1);
      var p := ServeFirstUnroll(net, cfg, st, inp, k);
      NextFaithful(net, cfg, p, inp, Speculates(st, inp), k - 1);
    }
  }

  lemma {:induction false} EndedOnly(lanes: seq<Lane>, over: seq<bool>, j: nat) returns (i: nat)
    requires |lanes| == |over| && j < |Ended(lanes, over)|
    ensures i < |lanes| && over[i] && Ended(lanes, over)[j] == lanes[i]
    decreases |lanes|
  {
    var n := |lanes| - 1;
    if j < |Ended(lanes[..n], over[..n])| {
      i := EndedOnly(lanes[..n], over[..n], j);
    } else {
      i := n;
    }
  }

  lemma CompactedFaithful(net: Network, cfg: Config, p: Progress)
    requires ShapeOk(cfg, p.st) && MidFaithful(net, cfg, p) && |p.over| == |p.st.lanes|
    requires ShapeOk(cfg, Compacted(p.st, p.over))
    ensures Faithful(net, cfg, Compacted(p.st, p.over))
  {
    var st' := Compacted(p.st, p.over);
    hide StreamOk, OutcomeOk, ShapeOk, OutcomeOf;
    forall j | 0 <= j < |st'.lanes| ensures StreamOk(net, cfg, st'.lanes[j], st'.slots[st'.lanes[j].phys].cache) {
      var i := KeptOnly(p.st.lanes, p.over, j);
    }
    forall j | 0 <= j < |st'.outcomes| ensures OutcomeOk(net, cfg, st'.outcomes[j]) {
      if j >= |p.st.outcomes| {
        var i := EndedOnly(p.st.lanes, p.over, j - |p.st.outcomes|);
      }
    }
  }

  lemma DecodeFaithful(net: Network, cfg: Config, st: Sched, inp: StepIn)
    requires Inv(net, cfg, st) && DecodeOk(cfg, st, inp) && Faithful(net, cfg, st)
    ensures ShapeOk(cfg, DecodeStep(net, cfg, st, inp)) && Faithful(net, cfg, DecodeStep(net, cfg, st, inp))
  {
    ServeFirstFaithful(net, cfg, st, inp, |st.lanes|);
    DecodeKeepsInv(net, cfg, st, inp);
    var p := ServeFirst(net, cfg, st, inp, |st.lanes|);
    assert ShapeOk(cfg, Compacted(p.st, p.over)) by { hide ShapeOk, ServeFirst; }
    hide MidFaithful, Inv, ServeFirst, ShapeOk, Faithful;
    CompactedFaithful(net, cfg, p);
  }

  // ------------------------------------------------------------------ a step with packed lanes

  lemma SettleFaithful(net: Network, cfg: Config, p: Progress, k: nat, r: Served, spec: bool)
    requires ShapeOk(cfg, p.st) && Owned(cfg, p.st) && MidFaithful(net, cfg, p) && k < |p.over| == |p.st.lanes|
    requires ShapeOk(cfg, Settle(p, k, r, spec).st)
    requires var l := p.st.lanes[k];
             Plainly(l.req, l.primed) ==> exists n :: SameLane(r.stream, Cold(net, cfg, l.req, n))
    ensures MidFaithful(net, cfg, Settle(p, k, r, spec))
  {
    var p' := Settle(p, k, r, spec);
    UpdatedLane(net, cfg, p.st.lanes[k], r, p.st.lanes[k].stale || !spec);
    hide ShapeOk, StreamOk, OutcomeOk, Cold, SameLane, Plainly, OutcomeOf, Owned, Update;
    forall i | 0 <= i < |p.st.lanes|
      ensures if i < |p'.over| && p'.over[i] then OutcomeOk(net, cfg, OutcomeOf(p'.st.lanes[i]))
              else StreamOk(net, cfg, p'.st.lanes[i], p'.st.slots[p'.st.lanes[i].phys].cache)
    {
      if i != k {
        LanesApart(cfg, p.st, i, k);
      }
    }
  }

  /** A packed lane shows a cold stream again. */
  lemma PackedStream(net: Network, cfg: Config, d: Dev, packs: seq<Pack>, k: nat)
    requires PacksOk(net, cfg, d, packs) && k < |packs| && |packs[k].drafts| < Penalty.MAX_VERIFY
    requires packs[k].l.primed && StreamOk(net, cfg, packs[k].l, packs[k].cache) && LaneOk(net, cfg, d, packs[k].l, packs[k].cache)
    ensures InPlane(d, packs[k].l.phys, packs[k].l.pos)
    ensures var l := packs[k].l;
            Plainly(l.req, l.primed) ==> exists n :: SameLane(ForestStream(net, cfg, d, packs[k]), Cold(net, cfg, l.req, n))
  {
    PlanesReady(net, cfg, d, packs);
    var p := packs[k];
    if Plainly(p.l.req, p.l.primed) {
      var m :| View(p.l, p.cache, false) == Cold(net, cfg, p.l.req, m);
      var n := ForestIsPlain(net, cfg, d, packs, k);
      hide ForestStream, PacksOk, LaneOk, SameLane, Decodes, View;
      DecodesAdd(net, cfg.eos, p.l.req, Start(net, p.l.req), m, n);
      assert SameLane(ForestStream(net, cfg, d, p), Cold(net, cfg, p.l.req, m + n));
    }
  }

  lemma PackStarts(net: Network, cfg: Config, st: Sched, inp: ForestIn, k: nat)
    requires Inv(net, cfg, st) && Faithful(net, cfg, st) && PacksFit(cfg, st, inp) && k < |Packed(st.lanes, inp)|
    ensures var p := PacksOf(cfg, st, inp)[k];
            && |p.drafts| < Penalty.MAX_VERIFY && p.l.primed && StreamOk(net, cfg, p.l, p.cache)
            && LaneOk(net, cfg, st.dev, p.l, p.cache)
  {
    hide StreamOk, OutcomeOk, LaneOk, Ready, PacksOf, Packed, PacksFit, LanesOk, SlotsOk, Owned, CursorOk;
    PackReadyAt(net, cfg, st, inp, k);
    PackTrusted(st.lanes, inp, k);
    PackedCount(st.lanes, inp);
    var i := Packed(st.lanes, inp)[k];
    assert StreamOk(net, cfg, st.lanes[i], st.slots[st.lanes[i].phys].cache);
    hide Inv, Faithful;
  }

  lemma FaithfulStarts(net: Network, cfg: Config, st: Sched)
    requires Inv(net, cfg, st) && Faithful(net, cfg, st)
    ensures ShapeOk(cfg, st) && MidFaithful(net, cfg, Progress(st, Falses(|st.lanes|)))
  {
    hide StreamOk, OutcomeOk;
  }

  lemma {:induction false} HalfwayFaithful(net: Network, cfg: Config, st: Sched, inp: ForestIn, k: nat)
    requires Inv(net, cfg, st) && Faithful(net, cfg, st) && PacksFit(cfg, st, inp)
    requires 0 < |Packed(st.lanes, inp)| && k <= |Packed(st.lanes, inp)|
    ensures MidStep(net, cfg, Halfway(net, cfg, st, inp, k)) && MidFaithful(net, cfg, Halfway(net, cfg, st, inp, k))
    decreases k
  {
    hide *;
    HalfwayKeeps(net, cfg, st, inp, k);
    if k == 0 {
      WaitsAtFirst(net, cfg, st, inp, 0);
      FaithfulStarts(net, cfg, st);
    } else {
      HalfwayFaithful(net, cfg, st, inp, k - 1);
      PackTurnFaithful(net, cfg, st, inp, k - 1);
    }
  }

  lemma PackTurnFaithful(net: Network, cfg: Config, st: Sched, inp: ForestIn, k: nat)
    requires Inv(net, cfg, st) && Faithful(net, cfg, st) && PacksFit(cfg, st, inp) && k < |Packed(st.lanes, inp)|
    requires MidStep(net, cfg, Halfway(net, cfg, st, inp, k)) && MidStep(net, cfg, Halfway(net, cfg, st, inp, k + 1))
    requires MidFaithful(net, cfg, Halfway(net, cfg, st, inp, k))
    ensures MidFaithful(net, cfg, Halfway(net, cfg, st, inp, k + 1))
  {
    hide Inv, Faithful, PacksFit, Packed, PacksOf, Halfway, MidFaithful, ServedOk, Counts, StreamOk, LaneOk, PacksOk, SameLane,
         Cold, ForestStream, Settle, SlotsOk, StandingOk, CursorOk, Owned, ShapeOk;
    var packs, h, i := PacksOf(cfg, st, inp), Halfway(net, cfg, st, inp, k), Packed(st.lanes, inp)[k];
    PacksReady(net, cfg, st, inp);
    PackStarts(net, cfg, st, inp, k);
    PackWaits(net, cfg, st, inp, k, k);
    PackedStream(net, cfg, st.dev, packs, k);
    var s := PackTurn(net, cfg, st, inp, k);
    SettleFaithful(net, cfg, h, i, s, true);
  }

  lemma PassFaithful(net: Network, cfg: Config, st: Sched, inp: ForestIn)
    requires Inv(net, cfg, st) && Faithful(net, cfg, st) && PacksFit(cfg, st, inp)
    ensures ShapeOk(cfg, PackedPass(net, cfg, st, inp).st) && MidFaithful(net, cfg, PackedPass(net, cfg, st, inp))
  {
    var n := |Packed(st.lanes, inp)|;
    PackedKeeps(net, cfg, st, inp);
    if n == 0 {
      FaithfulStarts(net, cfg, st);
      hide Inv, PacksFit, Packed, MidFaithful, Faithful;
    } else {
      hide Inv, Faithful, MidFaithful, Packed, PacksFit, PackedFirst, PackedDev, PacksOf, Mixed;
      HalfwayFaithful(net, cfg, st, inp, n);
      PassIsHalfway(net, cfg, st, inp);
    }
  }

  lemma TurnFaithful(net: Network, cfg: Config, p: Progress, inp: ForestIn, i: nat)
    requires MidStep(net, cfg, p) && MidFaithful(net, cfg, p)
    requires |p.over| == |p.st.lanes| && FitsAt(cfg, p.st, inp, i) && !p.over[i]
    ensures ShapeOk(cfg, p.st) && ShapeOk(cfg, ServeAt(net, cfg, p, inp, i).st)
    ensures MidFaithful(net, cfg, ServeAt(net, cfg, p, inp, i))
  {
    var l, spec := p.st.lanes[i], SpecAt(p.st, inp, i);
    var cache := p.st.slots[l.phys].cache;
    assert StreamOk(net, cfg, l, cache);
    var r := NextTurn(net, cfg, p, inp, i);
    ServeAtMoves(net, cfg, p, inp, i);
    hide Serve, LegalDraft, ServedOk, Counts, LaneOk, StandingOk, SlotsOk, StreamOk, CursorOk, Ready, MidFaithful, Owned, Settle, ServeAt;
    ServedStream(net, cfg, p.st.dev, l, cache, spec, inp.drafts(i), inp.draws(i));
    SettleFaithful(net, cfg, p, i, r, spec);
  }

  lemma {:induction false} EachFaithful(net: Network, cfg: Config, p: Progress, inp: ForestIn, order: seq<nat>, n: nat)
    requires MidStep(net, cfg, p) && MidFaithful(net, cfg, p) && EachFits(cfg, p, inp, order) && n <= |order|
    requires forall k :: 0 <= k < |order| ==> order[k] < |p.over| && !p.over[order[k]]
    ensures MidStep(net, cfg, ServeEach(net, cfg, p, inp, order, n))
    ensures MidFaithful(net, cfg, ServeEach(net, cfg, p, inp, order, n))
    decreases n
  {
    hide *;
    EachKeeps(net, cfg, p, inp, order, n);
    if n == 0 {
      EachNone(net, cfg, p, inp, order);
    } else {
      EachFaithful(net, cfg, p, inp, order, n - 1);
      var q := EachUnroll(net, cfg, p, inp, order, n);
      TurnFaithful(net, cfg, q, inp, order[n - 1]);
    }
  }

  /** A step with packed lanes leaves every request with its own cold stream. */
  lemma ForestFaithful(net: Network, cfg: Config, st: Sched, inp: ForestIn)
    requires Inv(net, cfg, st) && Faithful(net, cfg, st) && ForestOk(cfg, st, inp)
    ensures EachFits(cfg, PackedPass(net, cfg, st, inp), inp, Singles(st.lanes, inp))
    ensures ShapeOk(cfg, ForestStep(net, cfg, st, inp)) && Faithful(net, cfg, ForestStep(net, cfg, st, inp))
  {
    SinglesFit(net, cfg, st, inp);
    PackedKeeps(net, cfg, st, inp);
    PassFaithful(net, cfg, st, inp);
    ForestKeepsInv(net, cfg, st, inp);
    var order := Singles(st.lanes, inp);
    var p := ServeEach(net, cfg, PackedPass(net, cfg, st, inp), inp, order, |order|);
    assert ShapeOk(cfg, Compacted(p.st, p.over)) by { hide ShapeOk, ServeEach, PackedPass, Singles, EachFits; }
    hide Inv, MidStep, MidFaithful, Faithful, ForestOk, EachFits, PackedPass, ServeEach, Compacted, Singles, ShapeOk;
    EachFaithful(net, cfg, PackedPass(net, cfg, st, inp), inp, order, |order|);
    CompactedFaithful(net, cfg, p);
  }

  // ------------------------------------------------------------------ the other steps

  /** A lane starts where a cold prefill leaves off. */
  lemma InstallFaithful(net: Network, cfg: Config, c: Cursor)
    requires c.firstTok == FirstToken(net, c.req.prompt)
    ensures StreamOk(net, cfg, Install(c), c.req.prompt)
  {
    var l := Install(c);
    assert Plainly(l.req, l.primed) ==> View(l, c.req.prompt, false) == Cold(net, cfg, l.req, 0);
  }

  lemma FinishFaithful(net: Network, cfg: Config, st: Sched, c: Cursor)
    requires Inv(net, cfg, st) && Faithful(net, cfg, st) && st.pf == Some(c) && c.w0 >= |c.req.prompt|
    ensures ShapeOk(cfg, PfFinish(cfg, st, c)) && Faithful(net, cfg, PfFinish(cfg, st, c))
  {
    hide OutcomeOk, StreamOk, Install, Live, SlotOk, LaneOk, CopyCell, FirstToken;
    FinishOwners(cfg, st, c);
    CursorAlone(cfg, st);
    InstallFaithful(net, cfg, c);
    assert Install(c).phys == c.phys by { InstallPhys(c); }
    hide SlotsOk, LanesOk, Owned, CursorOk;
  }

  lemma InstallPhys(c: Cursor)
    ensures Install(c).phys == c.phys
  {
  }

  lemma WindowFaithful(net: Network, cfg: Config, st: Sched, c: Cursor)
    requires Inv(net, cfg, st) && Faithful(net, cfg, st) && st.pf == Some(c) && c.w0 < |c.req.prompt|
    ensures Faithful(net, cfg, RunWindow(net, cfg, st, c))
  {
    hide StreamOk, OutcomeOk, SlotsOk, LanesOk, Owned, CursorOk;
    var r := RunWindow(net, cfg, st, c);
    CursorAlone(cfg, st);
    assert r.lanes == st.lanes && r.outcomes == st.outcomes;
  }

  lemma PfAdvanceFaithful(net: Network, cfg: Config, st: Sched)
    requires Inv(net, cfg, st) && Faithful(net, cfg, st)
    ensures ShapeOk(cfg, PfAdvance(net, cfg, st)) && Faithful(net, cfg, PfAdvance(net, cfg, st))
  {
    hide Faithful, RunWindow, PfFinish, SlotsOk, LanesOk, Owned, CursorOk;
    if st.pf.Some? {
      var c := st.pf.value;
      if c.w0 >= |c.req.prompt| {
        FinishFaithful(net, cfg, st, c);
      } else {
        WindowFaithful(net, cfg, st, c);
        WindowKeepsInv(net, cfg, st, c);
        var r := RunWindow(net, cfg, st, c);
        hide Inv;
        if r.pf.value.w0 >= |c.req.prompt| {
          FinishFaithful(net, cfg, r, r.pf.value);
        }
      }
    }
  }

  /** A step that leaves lanes and their caches alone, and only adds turned-away outcomes. */
  lemma LanesUntouched(net: Network, cfg: Config, st: Sched, st': Sched)
    requires ShapeOk(cfg, st) && ShapeOk(cfg, st') && Faithful(net, cfg, st)
    requires |st'.lanes| == |st.lanes|
    requires forall i :: 0 <= i < |st.lanes| ==>
               && st'.lanes[i] == st.lanes[i].(cancelled := st'.lanes[i].cancelled)
               && st'.slots[st.lanes[i].phys].cache == st.slots[st.lanes[i].phys].cache
    requires st.outcomes <= st'.outcomes
    requires forall i :: |st.outcomes| <= i < |st'.outcomes| ==> st'.outcomes[i].Refusal?
    ensures Faithful(net, cfg, st')
  {
    forall i | 0 <= i < |st'.lanes| ensures StreamOk(net, cfg, st'.lanes[i], st'.slots[st'.lanes[i].phys].cache) {
      assert StreamOk(net, cfg, st.lanes[i], st.slots[st.lanes[i].phys].cache);
      assert forall c :: View(st'.lanes[i], c, false) == View(st.lanes[i], c, false);
    }
    forall i | 0 <= i < |st'.outcomes| ensures OutcomeOk(net, cfg, st'.outcomes[i]) {
      if i < |st.outcomes| {
        assert st'.outcomes[i] == st.outcomes[i];
      }
    }
  }

  lemma RejectedFaithful(net: Network, cfg: Config, st: Sched, a: Arrival, k: Pick)
    requires ShapeOk(cfg, st) && Owned(cfg, st) && Faithful(net, cfg, st) && st.pf.None?
    requires PickOk(cfg, st.free, st.slots, a.req.prompt, k)
    ensures k.phys < cfg.maxBatch && ShapeOk(cfg, Rejected(cfg, st, a, k)) && Faithful(net, cfg, Rejected(cfg, st, a, k))
  {
    PickedFree(cfg, st, k);
    hide Faithful, Restore, Invalidated, Owned, PickOk, ShapeOk, StreamOk, OutcomeOk;
    RejectedShape(net, cfg, st, a, k);
    LanesUntouched(net, cfg, st, Rejected(cfg, st, a, k));
  }

  lemma StartedFaithful(net: Network, cfg: Config, st: Sched, a: Arrival, spec: bool, k: Pick)
    requires ShapeOk(cfg, st) && Owned(cfg, st) && Faithful(net, cfg, st) && st.pf.None?
    requires PickOk(cfg, st.free, st.slots, a.req.prompt, k) && !TooLong(cfg, |a.req.prompt|, a.req.maxNew, spec)
    ensures k.phys < cfg.maxBatch
    ensures ShapeOk(cfg, Started(net, cfg, st, a, spec, k)) && Faithful(net, cfg, Started(net, cfg, st, a, spec, k))
  {
    PickedFree(cfg, st, k);
    hide Faithful, Restore, Invalidated, Owned, PickOk, ShapeOk, TooLong, ClampedBudget, Boundary;
    StartedShape(net, cfg, st, a, spec, k);
    LanesUntouched(net, cfg, st, Started(net, cfg, st, a, spec, k));
  }

  lemma AdmitFaithful(net: Network, cfg: Config, st: Sched, a: Arrival, spec: bool)
    requires Inv(net, cfg, st) && Faithful(net, cfg, st) && st.pf.None?
    ensures ShapeOk(cfg, Admit(net, cfg, st, a, spec)) && Faithful(net, cfg, Admit(net, cfg, st, a, spec))
  {
    ChoiceOk(cfg, st.free, st.slots, a.req.prompt);
    hide SlotsOk, LanesOk, CursorOk, Choice, PickOk, Owned, Rejected, Started, TooLong;
    match Choice(cfg, st.free, st.slots, a.req.prompt)
    case None =>
      LanesUntouched(net, cfg, st, Admit(net, cfg, st, a, spec));
    case Some(k) =>
      if TooLong(cfg, |a.req.prompt|, a.req.maxNew, spec) {
        RejectedFaithful(net, cfg, st, a, k);
      } else {
        StartedFaithful(net, cfg, st, a, spec, k);
      }
  }

  lemma CancelOwned(cfg: Config, st: Sched, i: nat)
    requires Owned(cfg, st) && i < |st.lanes|
    ensures Owned(cfg, Cancel(st, i))
  {
    assert PhysOf(Cancel(st, i).lanes) == PhysOf(st.lanes);
  }

  lemma CancelLanes(net: Network, cfg: Config, st: Sched, i: nat)
    requires ShapeOk(cfg, st) && CursorShape(cfg, st) && i < |st.lanes|
    ensures ShapeOk(cfg, Cancel(st, i)) && CursorShape(cfg, Cancel(st, i))
    ensures LanesOk(net, cfg, st) ==> LanesOk(net, cfg, Cancel(st, i))
    ensures SlotsOk(net, cfg, st) ==> SlotsOk(net, cfg, Cancel(st, i))
  {
    hide SlotOk;
    assert forall d, c :: LaneOk(net, cfg, d, st.lanes[i].(cancelled := true), c) == LaneOk(net, cfg, d, st.lanes[i], c);
    assert forall q :: 0 <= q < cfg.maxBatch ==> Agreed(Cancel(st, i), q) == Agreed(st, q);
  }

  lemma CancelKeeps(net: Network, cfg: Config, st: Sched, i: nat)
    requires Inv(net, cfg, st) && Faithful(net, cfg, st) && i < |st.lanes|
    ensures Inv(net, cfg, Cancel(st, i)) && Faithful(net, cfg, Cancel(st, i))
  {
    hide SlotsOk, LanesOk, CursorOk, Owned, Faithful;
    CancelOwned(cfg, st, i);
    CancelLanes(net, cfg, st, i);
    LanesUntouched(net, cfg, st, Cancel(st, i));
    hide ShapeOk, CursorShape;
  }
}
