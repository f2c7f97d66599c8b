// What one decode step does to each lane, whatever form the step takes: every lane gets the
// bookkeeping of exactly one kind of step, and nothing else about it changes.

module SchedTurns {
  import opened Wrappers
  import opened Trunk
  import opened Device
  import opened GreedyLane
  import opened Slots
  import opened LaneSteps
  import opened TreeWalk
  import opened Scheduler
  import opened SchedInvariant
  import opened SchedDecode
  import opened SchedForest
  import opened SchedStreams
  import Forest

  // ------------------------------------------------------------------ the kinds of bookkeeping

  /** A lane's record moves by one token, by a chain step, by a tree or packed step, which leave the
      schema machine alone, or by a sampled step. */
  datatype How =
    | Plain(t: Token)
    | Chained(path: seq<Token>, bonus: Token)
    | Blind(path: seq<Token>, bonus: Token)
    | Drawn(path: seq<Token>, tail: Token)

  function BookedBy(cfg: Config, l: Lane, cache: seq<Token>, how: How): Stream {
    match how
    case Plain(t) => Take(cfg.eos, l.req, View(l, cache, false), t)
    case Chained(path, bonus) => Commit(cfg.eos, l.req, View(l, cache, false), path, bonus)
    case Blind(path, bonus) => Commit(cfg.eos, Unmasked(l.req), View(l, cache, false), path, bonus)
    case Drawn(path, tail) => SampledStream(cfg, l, cache, path, tail)
  }

  /** The lanes a step may serve without their schema, and those it speculates for. */
  datatype Roles = Roles(blind: set<nat>, fast: set<nat>)

  /** Lane i takes a plain step exactly if the step does not speculate for it, a sampled one if it does
      and the lane samples, which has no schema then; only lanes in `blind` are served blind. */
  ghost predicate HowOk(l: Lane, how: How, roles: Roles, i: nat) {
    && (how.Plain? <==> i !in roles.fast) && (how.Drawn? <==> i in roles.fast && !l.req.greedy)
    && (how.Drawn? ==> l.req.schema.None?) && (how.Blind? ==> i in roles.blind)
  }

  /** The policy speculates, and the lane's drafter state is good: it was primed, it never took a plain
      step, and a schema lane is greedy. */
  ghost predicate Trusts(l: Lane, active: bool) {
    active && l.primed && !l.stale && (l.req.schema.None? || l.req.greedy)
  }

  /** A lane's own step is one of these. */
  lemma ServeHow(net: Network, cfg: Config, d: Dev, l: Lane, cache: seq<Token>, spec: bool, draft: Draft, draw: Token) returns (how: How)
    requires spec ==> LegalDraft(cfg, l.req, draft) && (l.req.schema.None? || l.req.greedy)
    requires Fits(d, cfg, l.phys, l.pos, Rows(spec))
    ensures Serve(net, cfg, d, l, cache, spec, draft, draw).stream == BookedBy(cfg, l, cache, how)
    ensures (how.Plain? <==> !spec) && (how.Drawn? <==> spec && !l.req.greedy) && (how.Blind? ==> spec && draft.TreeDraft?)
  {
    hide Commit, SampledStream, Take, Walk, ChainDevice, Verify, Adopt, IsTree;
    if !spec {
      how := Plain(PlainToken(net, Consume(net, d, l.phys, l.pos, [l.last]), l, draw));
    } else {
      match draft
      case ChainDraft(drafts, accepted, tail) =>
        if l.req.greedy {
          var preds := ChainPreds(net, MemAt(d, l.phys, l.pos), l, drafts);
          var nacc := Min(AcceptLen(preds, drafts), ValidLen(l.req, l.schemaState, drafts));
          how := Chained(drafts[..nacc], preds[nacc]);
        } else {
          how := Drawn(drafts[..accepted], tail);
        }
      case TreeDraft(parent, nodes) =>
        how := TreeHow(net, cfg, d, l, cache, parent, nodes);
    }
  }

  lemma TreeHow(net: Network, cfg: Config, d: Dev, l: Lane, cache: seq<Token>, parent: seq<int>, nodes: seq<Token>) returns (how: How)
    requires IsTree(parent) && |nodes| + 1 == |parent| <= cfg.checkpoints + 1 && Fits(d, cfg, l.phys, l.pos, |parent|)
    ensures how.Blind? && TreeStep(net, cfg, d, l, cache, parent, nodes).stream == BookedBy(cfg, l, cache, how)
  {
    var tokens := [l.last] + nodes;
    var preds := NodePreds(net, MemAt(d, l.phys, l.pos), l, parent, tokens);
    var path := Walk(parent, tokens, preds, 0);
    WalkFromRoot(parent, tokens, preds);
    WalkIsRootPath(parent, tokens, preds, path);
    hide Commit, Walk, Verify, Adopt, IsTree, NodePreds;
    var emitted := PredsAlong(preds, path);
    how := Blind(emitted[..|path| - 1], emitted[|path| - 1]);
  }

  lemma PackHow(net: Network, cfg: Config, d: Dev, p: Forest.Pack) returns (how: How)
    requires InPlane(d, p.l.phys, p.l.pos)
    ensures how.Blind? && Forest.ForestStream(net, cfg, d, p) == BookedBy(cfg, p.l, p.cache, how)
  {
    var preds := Forest.ForestPreds(net, d, p);
    var nacc := AcceptLen(preds, p.drafts);
    how := Blind(p.drafts[..nacc], preds[nacc]);
  }

  // ------------------------------------------------------------------ lanes in the middle of a step

  /** Lane i of `st` has had its turn: record, slot and verdict. */
  ghost predicate Turned(cfg: Config, st: Sched, m: Sched, over: seq<bool>, roles: Roles, i: nat)
    requires i < |st.lanes| == |m.lanes| && st.lanes[i].phys < |st.slots| == |m.slots|
  {
    exists how :: TurnedBy(cfg, st, m, over, roles, i, how)
  }

  ghost predicate TurnedBy(cfg: Config, st: Sched, m: Sched, over: seq<bool>, roles: Roles, i: nat, how: How)
    requires i < |st.lanes| == |m.lanes| && st.lanes[i].phys < |st.slots| == |m.slots|
  {
    var l, l' := st.lanes[i], m.lanes[i];
    var s := BookedBy(cfg, l, st.slots[l.phys].cache, how);
    && HowOk(l, how, roles, i)
    && l' == Update(l, s, l'.pos).(stale := l.stale || how.Plain?) && m.slots[l.phys].cache == s.cache
    && i < |over| && over[i] == (s.finished || l.cancelled)
  }

  ghost predicate Waiting(st: Sched, m: Sched, i: nat)
    requires i < |st.lanes| == |m.lanes| && st.lanes[i].phys < |st.slots| == |m.slots|
  {
    m.lanes[i] == st.lanes[i] && m.slots[st.lanes[i].phys].cache == st.slots[st.lanes[i].phys].cache
  }

  /** A step writes of the slots' records only what they have consumed. */
  ghost predicate OnlyCaches(slots: seq<Slot>, slots': seq<Slot>) {
    |slots'| == |slots| && forall p :: 0 <= p < |slots| ==> slots'[p] == slots[p].(cache := slots'[p].cache)
  }

  /** Every lane in `done` has had its turn, the others wait. */
  ghost predicate Mid(cfg: Config, st: Sched, m: Sched, over: seq<bool>, roles: Roles, done: set<nat>) {
    && ShapeOk(cfg, st) && |m.lanes| == |st.lanes| && |m.slots| == |st.slots|
    && m.outcomes == st.outcomes && m.pf == st.pf && m.free == st.free && OnlyCaches(st.slots, m.slots)
    && (forall i: nat :: i < |st.lanes| ==> if i in done then Turned(cfg, st, m, over, roles, i) else Waiting(st, m, i))
  }

  /** One more lane has its turn. */
  lemma TurnOne(cfg: Config, st: Sched, m: Sched, over: seq<bool>, over': seq<bool>, roles: Roles, done: set<nat>,
                i: nat, r: Served, spec: bool, how: How)
    requires Owned(cfg, st) && Mid(cfg, st, m, over, roles, done) && i < |st.lanes| && i !in done
    requires r.stream == BookedBy(cfg, st.lanes[i], st.slots[st.lanes[i].phys].cache, how) && HowOk(st.lanes[i], how, roles, i)
    requires spec <==> !how.Plain?
    requires forall j :: j in done && j < |over| ==> j < |over'| && over'[j] == over[j]
    requires i < |over'| && over'[i] == (r.stream.finished || st.lanes[i].cancelled)
    ensures i < |m.lanes| && m.lanes[i].phys < |m.slots|
    ensures Mid(cfg, st, ApplyServed(m, i, r, spec), over', roles, done + {i})
  {
    var m' := ApplyServed(m, i, r, spec);
    hide BookedBy, HowOk, Owned, Turned;
    forall j: nat | j < |st.lanes|
      ensures if j in done + {i} then Turned(cfg, st, m', over', roles, j) else Waiting(st, m', j)
    {
      if j == i {
        TurnedNow(cfg, st, m, over', roles, i, r, spec, how);
      } else {
        LanesApart(cfg, st, i, j);
        if j in done {
          TurnedStill(cfg, st, m, m', over, over', roles, j);
        }
      }
    }
  }

  lemma TurnedNow(cfg: Config, st: Sched, m: Sched, over: seq<bool>, roles: Roles, i: nat, r: Served, spec: bool, how: How)
    requires i < |st.lanes| == |m.lanes| && st.lanes[i].phys < |st.slots| == |m.slots| && Waiting(st, m, i)
    requires r.stream == BookedBy(cfg, st.lanes[i], st.slots[st.lanes[i].phys].cache, how) && HowOk(st.lanes[i], how, roles, i)
    requires (spec <==> !how.Plain?) && i < |over| && over[i] == (r.stream.finished || st.lanes[i].cancelled)
    ensures Turned(cfg, st, ApplyServed(m, i, r, spec), over, roles, i)
  {
    hide BookedBy, HowOk;
    assert TurnedBy(cfg, st, ApplyServed(m, i, r, spec), over, roles, i, how);
  }

  lemma TurnedStill(cfg: Config, st: Sched, m: Sched, m': Sched, over: seq<bool>, over': seq<bool>, roles: Roles, j: nat)
    requires j < |st.lanes| == |m.lanes| == |m'.lanes| && st.lanes[j].phys < |st.slots| == |m.slots| == |m'.slots|
    requires Turned(cfg, st, m, over, roles, j) && (j < |over| ==> j < |over'| && over'[j] == over[j])
    requires m'.lanes[j] == m.lanes[j] && m'.slots[st.lanes[j].phys].cache == m.slots[st.lanes[j].phys].cache
    ensures Turned(cfg, st, m', over', roles, j)
  {
    hide BookedBy, HowOk, Update;
    var how :| TurnedBy(cfg, st, m, over, roles, j, how);
    assert TurnedBy(cfg, st, m', over', roles, j, how);
  }

  lemma NoneTurned(cfg: Config, st: Sched, m: Sched, over: seq<bool>, roles: Roles)
    requires ShapeOk(cfg, st) && m == st.(dev := m.dev)
    ensures Mid(cfg, st, m, over, roles, {})
  {
  }

  // ------------------------------------------------------------------ the ordinary step

  /** Only a lone trusted lane is speculated for, and only a tree leaves its schema out. */
  ghost function RolesIn(st: Sched, inp: StepIn): Roles {
    var fast: set<nat> := if |st.lanes| == 1 && Trusts(st.lanes[0], inp.active) then {0} else {};
    Roles(if inp.draft.TreeDraft? then fast else {}, fast)
  }

  function Below(n: nat): (r: set<nat>)
    ensures forall i: nat :: i in r <==> i < n
  {
    if n == 0 then {} else Below(n - 1) + {n - 1}
  }

  lemma {:induction false} FirstTurned(net: Network, cfg: Config, st: Sched, inp: StepIn, k: nat)
    requires Owned(cfg, st) && DecodeOk(cfg, st, inp) && k <= |st.lanes|
    ensures var p := ServeFirst(net, cfg, st, inp, k); |p.over| == k && Mid(cfg, st, p.st, p.over, RolesIn(st, inp), Below(k))
    decreases k
  {
    hide *;
    if k == 0 {
      FirstOpens(net, cfg, st, inp);
    } else {
      FirstTurned(net, cfg, st, inp, k - 1);
      var p := ServeFirstUnroll(net, cfg, st, inp, k);
      NextTurned(net, cfg, st, p, inp, k - 1);
      assert Below(k) == Below(k - 1) + {k - 1};
    }
  }

  lemma FirstOpens(net: Network, cfg: Config, st: Sched, inp: StepIn)
    requires DecodeOk(cfg, st, inp)
    ensures var p := ServeFirst(net, cfg, st, inp, 0); |p.over| == 0 && Mid(cfg, st, p.st, p.over, RolesIn(st, inp), Below(0))
  {
    hide LaneFits, Turned;
    ServeNone(net, cfg, st, inp);
    NoneTurned(cfg, st, st, [], RolesIn(st, inp));
  }

  lemma NextTurned(net: Network, cfg: Config, st: Sched, p: Progress, inp: StepIn, k: nat)
    requires Owned(cfg, st) && k == |p.over| < |st.lanes| && Mid(cfg, st, p.st, p.over, RolesIn(st, inp), Below(k))
    requires ShapeOk(cfg, p.st) && k < |p.st.lanes| && LaneFits(cfg, p.st.lanes[k], Speculates(st, inp), inp.draft)
    ensures var q := ServeNext(net, cfg, p, inp, Speculates(st, inp), k);
            |q.over| == k + 1 && Mid(cfg, st, q.st, q.over, RolesIn(st, inp), Below(k) + {k})
  {
    assert Waiting(st, p.st, k);
    hide Serve, LegalDraft, Mid, Turned, Owned, BookedBy, ApplyServed;
    var spec, l := Speculates(st, inp), st.lanes[k];
    assert spec <==> k in RolesIn(st, inp).fast;
    var how := ServeHow(net, cfg, p.st.dev, l, p.st.slots[l.phys].cache, spec, inp.draft, inp.draws(k));
    assert HowOk(l, how, RolesIn(st, inp), k);
    var r := Serve(net, cfg, p.st.dev, l, p.st.slots[l.phys].cache, spec, inp.draft, inp.draws(k));
    hide RolesIn, HowOk, Speculates;
    TurnOne(cfg, st, p.st, p.over, p.over + [r.stream.finished || l.cancelled], RolesIn(st, inp), Below(k), k, r, spec, how);
  }

  // ------------------------------------------------------------------ a step with packed lanes

  /** Every trusted lane is speculated for; packing and trees leave the schema out. */
  ghost function RolesPacked(st: Sched, inp: ForestIn): Roles {
    Roles(set i: nat | i < |st.lanes| && (i in Packed(st.lanes, inp) || (Trusts(st.lanes[i], inp.active) && inp.drafts(i).TreeDraft?)),
          set i: nat | i < |st.lanes| && Trusts(st.lanes[i], inp.active))
  }

  function Elements(order: seq<nat>): (r: set<nat>)
    ensures forall i: nat :: i in r <==> i in order
  {
    set i | i in order
  }

  lemma {:induction false} PackedTurned(net: Network, cfg: Config, st: Sched, inp: ForestIn, k: nat)
    requires Owned(cfg, st) && PacksFit(cfg, st, inp) && k <= |Packed(st.lanes, inp)|
    ensures var p := PackedFirst(net, cfg, st, inp, k);
            |p.over| == |st.lanes| && Mid(cfg, st, p.st, p.over, RolesPacked(st, inp), Elements(Packed(st.lanes, inp)[..k]))
    decreases k
  {
    hide *;
    if k == 0 {
      PackedOpens(net, cfg, st, inp);
    } else {
      PackedTurned(net, cfg, st, inp, k - 1);
      PackTurned(net, cfg, st, inp, k - 1);
    }
  }

  lemma PackedOpens(net: Network, cfg: Config, st: Sched, inp: ForestIn)
    requires PacksFit(cfg, st, inp)
    ensures var p := PackedFirst(net, cfg, st, inp, 0);
            |p.over| == |st.lanes| && Mid(cfg, st, p.st, p.over, RolesPacked(st, inp), Elements(Packed(st.lanes, inp)[..0]))
  {
    hide Packed, PacksOf, Forest.ForestVerify, Turned, PackFitsAt;
    PassStarts(net, cfg, st, inp);
    var p := PackedFirst(net, cfg, st, inp, 0);
    NoneTurned(cfg, st, p.st, p.over, RolesPacked(st, inp));
    assert Elements(Packed(st.lanes, inp)[..0]) == {};
  }

  lemma PackTurned(net: Network, cfg: Config, st: Sched, inp: ForestIn, k: nat)
    requires Owned(cfg, st) && PacksFit(cfg, st, inp) && k < |Packed(st.lanes, inp)|
    requires var p := PackedFirst(net, cfg, st, inp, k);
             |p.over| == |st.lanes| && Mid(cfg, st, p.st, p.over, RolesPacked(st, inp), Elements(Packed(st.lanes, inp)[..k]))
    ensures var p := PackedFirst(net, cfg, st, inp, k + 1);
            |p.over| == |st.lanes| && Mid(cfg, st, p.st, p.over, RolesPacked(st, inp), Elements(Packed(st.lanes, inp)[..k + 1]))
  {
    hide *;
    var order, i := Packed(st.lanes, inp), Packed(st.lanes, inp)[k];
    PackedNext(net, cfg, st, inp, k);
    PackedOnce(st.lanes, inp, k);
    var how := PackServedHow(net, cfg, st, inp, k);
    var packs := PacksOf(cfg, st, inp);
    var r := PackServed(net, cfg, st.dev, packs, k, PackedDev(net, cfg, st.dev, packs, k + 1));
    assert order[..k + 1] == order[..k] + [i];
    assert Elements(order[..k + 1]) == Elements(order[..k]) + {i};
    TurnOneIn(cfg, st, PackedFirst(net, cfg, st, inp, k), RolesPacked(st, inp), Elements(order[..k]), i, r, true, how);
  }

  lemma PackServedHow(net: Network, cfg: Config, st: Sched, inp: ForestIn, k: nat) returns (how: How)
    requires PacksFit(cfg, st, inp) && k < |Packed(st.lanes, inp)|
    ensures var i, packs := Packed(st.lanes, inp)[k], PacksOf(cfg, st, inp);
            && i < |st.lanes| && st.lanes[i].phys < |st.slots|
            && PackServed(net, cfg, st.dev, packs, k, PackedDev(net, cfg, st.dev, packs, k + 1)).stream
                 == BookedBy(cfg, st.lanes[i], st.slots[st.lanes[i].phys].cache, how)
            && how.Blind? && HowOk(st.lanes[i], how, RolesPacked(st, inp), i)
  {
    hide Packed, PacksFit, BookedBy, PacksOf, PackedDev, Forest.ForestStream;
    var packs := PacksOf(cfg, st, inp);
    PackIs(cfg, st, inp, k);
    PackTrusted(st.lanes, inp, k);
    how := PackHow(net, cfg, st.dev, packs[k]);
  }

  /** The same with verdicts for all lanes. */
  lemma TurnOneIn(cfg: Config, st: Sched, p: Progress, roles: Roles, done: set<nat>, i: nat, r: Served, spec: bool, how: How)
    requires Owned(cfg, st) && |p.over| == |st.lanes| && Mid(cfg, st, p.st, p.over, roles, done) && i < |st.lanes| && i !in done
    requires r.stream == BookedBy(cfg, st.lanes[i], st.slots[st.lanes[i].phys].cache, how) && HowOk(st.lanes[i], how, roles, i)
    requires spec <==> !how.Plain?
    ensures i < |p.st.lanes| == |p.over| && p.st.lanes[i].phys < |p.st.slots|
    ensures var q := Settle(p, i, r, spec); |q.over| == |st.lanes| && Mid(cfg, st, q.st, q.over, roles, done + {i})
  {
    assert Waiting(st, p.st, i);
    hide Turned, Owned, BookedBy, HowOk;
    TurnOne(cfg, st, p.st, p.over, p.over[i := r.stream.finished || p.st.lanes[i].cancelled], roles, done, i, r, spec, how);
  }

  lemma PackIs(cfg: Config, st: Sched, inp: ForestIn, k: nat)
    requires PacksFit(cfg, st, inp) && k < |Packed(st.lanes, inp)|
    ensures var i, p := Packed(st.lanes, inp)[k], PacksOf(cfg, st, inp)[k];
            i < |st.lanes| && st.lanes[i].phys < |st.slots| && p.l == st.lanes[i] && p.cache == st.slots[p.l.phys].cache
  {
    hide Packed;
    PackSlot(cfg, st, inp, k);
  }

  lemma PackedOnce(lanes: seq<Lane>, inp: ForestIn, k: nat)
    requires k < |Packed(lanes, inp)|
    ensures Packed(lanes, inp)[k] !in Packed(lanes, inp)[..k]
  {
    ServedOnce(lanes, inp);
    hide Packed, Singles;
    var order := Packed(lanes, inp) + Singles(lanes, inp);
    assert order[k] == Packed(lanes, inp)[k] && forall j :: 0 <= j < k ==> order[j] == Packed(lanes, inp)[..k][j];
  }

  lemma {:induction false} EachTurned(net: Network, cfg: Config, st: Sched, p: Progress, inp: ForestIn, order: seq<nat>, n: nat, done: set<nat>)
    requires Owned(cfg, st) && EachFits(cfg, p, inp, order) && n <= |order|
    requires forall k :: 0 <= k < |order| ==> order[k] < |p.over| && !p.over[order[k]] && order[k] !in done
    requires |p.over| == |st.lanes| && Mid(cfg, st, p.st, p.over, RolesPacked(st, inp), done)
    ensures var q := ServeEach(net, cfg, p, inp, order, n);
            |q.over| == |st.lanes| && Mid(cfg, st, q.st, q.over, RolesPacked(st, inp), done + Elements(order[..n]))
    decreases n
  {
    hide *;
    if n == 0 {
      EachNone(net, cfg, p, inp, order);
      assert done + Elements(order[..0]) == done;
    } else {
      EachTurned(net, cfg, st, p, inp, order, n - 1, done);
      var q := EachUnroll(net, cfg, p, inp, order, n);
      NotYet(cfg, p, inp, order, n - 1);
      var i := order[n - 1];
      SingleTurned(net, cfg, st, q, inp, i, done + Elements(order[..n - 1]));
      assert order[..n] == order[..n - 1] + [i];
      assert done + Elements(order[..n]) == done + Elements(order[..n - 1]) + {i};
    }
  }

  lemma NotYet(cfg: Config, p: Progress, inp: ForestIn, order: seq<nat>, k: nat)
    requires EachFits(cfg, p, inp, order) && k < |order|
    ensures order[k] !in order[..k]
  {
    hide ShapeOk, FitsAt;
  }

  lemma SingleTurned(net: Network, cfg: Config, st: Sched, p: Progress, inp: ForestIn, i: nat, done: set<nat>)
    requires Owned(cfg, st) && ShapeOk(cfg, p.st) && FitsAt(cfg, p.st, inp, i) && i !in done
    requires |p.over| == |st.lanes| && Mid(cfg, st, p.st, p.over, RolesPacked(st, inp), done)
    ensures |p.over| == |p.st.lanes|
    ensures var q := ServeAt(net, cfg, p, inp, i);
            |q.over| == |st.lanes| && Mid(cfg, st, q.st, q.over, RolesPacked(st, inp), done + {i})
  {
    assert Waiting(st, p.st, i);
    var l, spec := p.st.lanes[i], SpecAt(p.st, inp, i);
    assert l == st.lanes[i] && i < |st.lanes|;
    hide Serve, LegalDraft, Mid, Turned, Owned, BookedBy, ApplyServed, Settle, Packed;
    assert spec <==> i in RolesPacked(st, inp).fast;
    var how := ServeHow(net, cfg, p.st.dev, l, p.st.slots[l.phys].cache, spec, inp.drafts(i), inp.draws(i));
    assert HowOk(l, how, RolesPacked(st, inp), i);
    var r := Serve(net, cfg, p.st.dev, l, p.st.slots[l.phys].cache, spec, inp.drafts(i), inp.draws(i));
    hide RolesPacked, HowOk, SpecAt;
    TurnOneIn(cfg, st, p, RolesPacked(st, inp), done, i, r, spec, how);
  }

  lemma PassTurned(net: Network, cfg: Config, st: Sched, inp: ForestIn)
    requires Owned(cfg, st) && PacksFit(cfg, st, inp)
    ensures var p := PackedPass(net, cfg, st, inp);
            |p.over| == |st.lanes| && Mid(cfg, st, p.st, p.over, RolesPacked(st, inp), Elements(Packed(st.lanes, inp)))
  {
    hide Packed, Mid, PackedFirst, PackFitsAt;
    var order := Packed(st.lanes, inp);
    if |order| == 0 {
      NoneTurned(cfg, st, st, Falses(|st.lanes|), RolesPacked(st, inp));
      assert Elements(order) == {};
    } else {
      PackedTurned(net, cfg, st, inp, |order|);
      assert order[..|order|] == order;
    }
  }

  // ------------------------------------------------------------------ whole steps

  /** A decode step from `st`: every lane had its turn, and the table was compacted. */
  ghost predicate Decoded(cfg: Config, st: Sched, st': Sched, roles: Roles) {
    exists m, over :: DecodedBy(cfg, st, st', roles, m, over)
  }

  ghost predicate DecodedBy(cfg: Config, st: Sched, st': Sched, roles: Roles, m: Sched, over: seq<bool>) {
    && ShapeOk(cfg, st) && |m.lanes| == |st.lanes| == |over| && |m.slots| == |st.slots|
    && m.outcomes == st.outcomes && m.pf == st.pf && m.free == st.free && OnlyCaches(st.slots, m.slots)
    && (forall i: nat :: i < |st.lanes| ==> Turned(cfg, st, m, over, roles, i))
    && st' == Compacted(m, over)
  }

  /** When all had their turn, compaction ends the step. */
  lemma MidEnds(cfg: Config, st: Sched, p: Progress, roles: Roles, done: set<nat>)
    requires |p.over| == |st.lanes| && Mid(cfg, st, p.st, p.over, roles, done) && forall i: nat :: i < |st.lanes| ==> i in done
    ensures |p.st.lanes| == |p.over| && Decoded(cfg, st, Compacted(p.st, p.over), roles)
  {
    hide Turned, Compacted;
    assert DecodedBy(cfg, st, Compacted(p.st, p.over), roles, p.st, p.over);
  }

  lemma StepDecoded(net: Network, cfg: Config, st: Sched, inp: StepIn)
    requires Owned(cfg, st) && DecodeOk(cfg, st, inp)
    ensures Decoded(cfg, st, DecodeStep(net, cfg, st, inp), RolesIn(st, inp))
  {
    hide Mid, Decoded, DecodeOk, RolesIn, ServeFirst, Compacted, Below;
    FirstTurned(net, cfg, st, inp, |st.lanes|);
    MidEnds(cfg, st, ServeFirst(net, cfg, st, inp, |st.lanes|), RolesIn(st, inp), Below(|st.lanes|));
  }

  lemma ForestDecoded(net: Network, cfg: Config, st: Sched, inp: ForestIn)
    requires Inv(net, cfg, st) && ForestOk(cfg, st, inp)
    ensures EachFits(cfg, PackedPass(net, cfg, st, inp), inp, Singles(st.lanes, inp))
    ensures Decoded(cfg, st, ForestStep(net, cfg, st, inp), RolesPacked(st, inp))
  {
    hide Packed, Singles, PacksFit, PackedPass, ServeEach, EachFits, Mid, Decoded, Compacted, RolesPacked, LanesOk, SlotsOk, CursorOk, Owned;
    SinglesFit(net, cfg, st, inp);
    var packed, order, p := Packed(st.lanes, inp), Singles(st.lanes, inp), PackedPass(net, cfg, st, inp);
    PassTurned(net, cfg, st, inp);
    AllServed(st.lanes, inp);
    EachTurned(net, cfg, st, p, inp, order, |order|, Elements(packed));
    assert order[..|order|] == order;
    MidEnds(cfg, st, ServeEach(net, cfg, p, inp, order, |order|), RolesPacked(st, inp), Elements(packed) + Elements(order));
  }

  lemma AllServed(lanes: seq<Lane>, inp: ForestIn)
    ensures forall i: nat :: i < |lanes| <==> i in Elements(Packed(lanes, inp)) + Elements(Singles(lanes, inp))
    ensures forall k :: 0 <= k < |Singles(lanes, inp)| ==> Singles(lanes, inp)[k] !in Elements(Packed(lanes, inp))
  {
    ServedOnce(lanes, inp);
    hide Packed, Singles;
    var packed, order := Packed(lanes, inp), Singles(lanes, inp);
    forall i: nat ensures i in packed + order <==> i in packed || i in order {
    }
    forall k | 0 <= k < |order| ensures order[k] !in packed {
      assert (packed + order)[|packed| + k] == order[k];
      forall j | 0 <= j < |packed| ensures packed[j] != order[k] {
        assert (packed + order)[j] == packed[j];
      }
    }
  }

  // ------------------------------------------------------------------ after compaction

  /** A lane that goes on is an old lane after its turn. */
  lemma LaneWas(cfg: Config, st: Sched, st': Sched, roles: Roles, j: nat) returns (i: nat, how: How)
    requires Decoded(cfg, st, st', roles) && j < |st'.lanes|
    ensures i < |st.lanes| && st.lanes[i].phys < |st.slots| && HowOk(st.lanes[i], how, roles, i)
    ensures var l, l' := st.lanes[i], st'.lanes[j];
            var s := BookedBy(cfg, l, st.slots[l.phys].cache, how);
            && l' == Update(l, s, l'.pos).(stale := l.stale || how.Plain?) && !s.finished && !l.cancelled
            && l'.phys < |st'.slots| && st'.slots[l'.phys].cache == s.cache
  {
    hide BookedBy, HowOk;
    var m, over :| DecodedBy(cfg, st, st', roles, m, over);
    i := KeptOnly(m.lanes, over, j);
    assert Turned(cfg, st, m, over, roles, i);
    how :| TurnedBy(cfg, st, m, over, roles, i, how);
  }

  /** An outcome is an old one, or the answer of an old lane after its turn. */
  lemma OutcomeWas(cfg: Config, st: Sched, st': Sched, roles: Roles, j: nat) returns (i: nat, how: How)
    requires Decoded(cfg, st, st', roles) && |st.outcomes| <= j < |st'.outcomes|
    ensures i < |st.lanes| && st.lanes[i].phys < |st.slots| && HowOk(st.lanes[i], how, roles, i)
    ensures var l := st.lanes[i];
            var s := BookedBy(cfg, l, st.slots[l.phys].cache, how);
            st'.outcomes[j] == OutcomeOf(Update(l, s, 0)) && (s.finished || l.cancelled)
  {
    hide BookedBy, HowOk;
    var m, over :| DecodedBy(cfg, st, st', roles, m, over);
    i := EndedOnly(m.lanes, over, j - |st.outcomes|);
    assert Turned(cfg, st, m, over, roles, i);
    how :| TurnedBy(cfg, st, m, over, roles, i, how);
  }

  lemma OldOutcomes(cfg: Config, st: Sched, st': Sched, roles: Roles)
    requires Decoded(cfg, st, st', roles)
    ensures st.outcomes <= st'.outcomes && st'.pf == st.pf && OnlyCaches(st.slots, st'.slots)
  {
    hide Turned;
    var m, over :| DecodedBy(cfg, st, st', roles, m, over);
  }
}
