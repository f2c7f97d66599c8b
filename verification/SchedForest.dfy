// A decode step with packed lanes: which lane is served how, the packed pass, the lanes served one
// by one after it, and why the scheduler's invariant survives.

module SchedForest {
  import opened Wrappers
  import opened Trunk
  import opened Device
  import opened GreedyLane
  import opened Slots
  import opened LaneSteps
  import opened Scheduler
  import opened SchedInvariant
  import opened SchedAdmit
  import opened SchedDecode
  import opened Forest
  import Penalty

  // ------------------------------------------------------------------ dispatch

  /** What the step draws from outside: the policy, each lane's drafts, the sampler's tokens. */
  datatype ForestIn = ForestIn(active: bool, depth: nat, drafts: nat -> Draft, draws: nat -> Token)

  /** Greedy trusted lanes speculate by argmax, sampled ones by rejection, the rest share a batch. */
  datatype Role = ByArgmax | BySampling | ByBatch

  function RoleOf(l: Lane, active: bool): Role {
    if !UsesMtp(l, active) then ByBatch else if l.req.greedy then ByArgmax else BySampling
  }

  /** Indices below n of the lanes in that role, in order. */
  function Chosen(lanes: seq<Lane>, n: nat, active: bool, role: Role): (r: seq<nat>)
    requires n <= |lanes|
    ensures forall i: nat :: i in r <==> (i < n && RoleOf(lanes[i], active) == role)
    ensures forall a, b :: 0 <= a < b < |r| ==> r[a] < r[b]
  {
    if n == 0 then []
    else
      var before := Chosen(lanes, n - 1, active, role);
      assert forall a :: 0 <= a < |before| ==> before[a] in before;
      if RoleOf(lanes[n - 1], active) == role then before + [n - 1] else before
  }

  /** Two or more eligible lanes share one verify, at most five of them. */
  function Packed(lanes: seq<Lane>, inp: ForestIn): seq<nat> {
    var forest := Chosen(lanes, |lanes|, inp.active, ByArgmax);
    if |forest| >= 2 then forest[..Min(|forest|, PACK_CAP)] else []
  }

  /** Only trusted greedy lanes are packed. */
  lemma PackTrusted(lanes: seq<Lane>, inp: ForestIn, k: nat)
    requires k < |Packed(lanes, inp)| && Packed(lanes, inp)[k] < |lanes|
    ensures var l := lanes[Packed(lanes, inp)[k]]; inp.active && l.primed && !l.stale && l.req.greedy
  {
    hide Chosen;
    var forest := Chosen(lanes, |lanes|, inp.active, ByArgmax);
    assert Packed(lanes, inp)[k] == forest[k] && forest[k] in forest;
  }

  /** How many of the first n lanes may speculate by argmax. */
  function Eligible(lanes: seq<Lane>, active: bool, n: nat): nat
    requires n <= |lanes|
  {
    if n == 0 then 0
    else
      var l := lanes[n - 1];
      Eligible(lanes, active, n - 1)
      + (if active && l.primed && !l.stale && l.req.greedy then 1 else 0)
  }

  lemma {:induction false} ChosenCounts(lanes: seq<Lane>, n: nat, active: bool)
    requires n <= |lanes|
    ensures |Chosen(lanes, n, active, ByArgmax)| == Eligible(lanes, active, n)
    decreases n
  {
    if n > 0 {
      ChosenCounts(lanes, n - 1, active);
    }
  }

  /** An eligible lane stands behind the eligible ones before it. */
  lemma {:induction false} ChosenAt(lanes: seq<Lane>, n: nat, active: bool, i: nat)
    requires i < n <= |lanes| && RoleOf(lanes[i], active) == ByArgmax
    ensures Eligible(lanes, active, i) < |Chosen(lanes, n, active, ByArgmax)|
    ensures Chosen(lanes, n, active, ByArgmax)[Eligible(lanes, active, i)] == i
    decreases n
  {
    if i < n - 1 {
      ChosenAt(lanes, n - 1, active, i);
    } else {
      ChosenCounts(lanes, i, active);
    }
  }

  /** Of two or more trusted greedy lanes the first five share one verify. */
  lemma PacksFirstFive(lanes: seq<Lane>, inp: ForestIn, i: nat)
    ensures i in Packed(lanes, inp)
       <==> i < |lanes| && inp.active && lanes[i].primed && !lanes[i].stale && lanes[i].req.greedy
            && Eligible(lanes, inp.active, i) < 5 && Eligible(lanes, inp.active, |lanes|) >= 2
  {
    var f := Chosen(lanes, |lanes|, inp.active, ByArgmax);
    ChosenCounts(lanes, |lanes|, inp.active);
    assert i in f <==> i < |lanes| && RoleOf(lanes[i], inp.active) == ByArgmax;
    hide Chosen, Eligible;
    FirstOf(f, 5, i);
    if i in f {
      ChosenAt(lanes, |lanes|, inp.active, i);
      assert f[Eligible(lanes, inp.active, i)] == i;
      assert (exists a :: 0 <= a < |f| && a < 5 && f[a] == i) <==> Eligible(lanes, inp.active, i) < 5;
    } else {
      assert i !in f[..Min(|f|, 5)];
    }
  }

  lemma FirstOf(f: seq<nat>, n: nat, i: nat)
    requires forall a, b :: 0 <= a < b < |f| ==> f[a] < f[b]
    ensures var first := f[..Min(|f|, n)]; i in first <==> exists a :: 0 <= a < |f| && a < n && f[a] == i
    ensures forall a, b :: 0 <= a < |f| && 0 <= b < |f| && f[a] == f[b] ==> a == b
  {
    var first := f[..Min(|f|, n)];
    if i in first {
      var a :| 0 <= a < |first| && first[a] == i;
      assert f[a] == i;
    }
    if exists a :: 0 <= a < |f| && a < n && f[a] == i {
      var a :| 0 <= a < |f| && a < n && f[a] == i;
      assert first[a] == i;
    }
  }

  /** Everyone else, one by one: eligible lanes left over, sampled lanes, then the plain batch. */
  function Singles(lanes: seq<Lane>, inp: ForestIn): seq<nat> {
    Chosen(lanes, |lanes|, inp.active, ByArgmax)[|Packed(lanes, inp)|..]
    + Chosen(lanes, |lanes|, inp.active, BySampling)
    + Chosen(lanes, |lanes|, inp.active, ByBatch)
  }

  ghost predicate Distinct(order: seq<nat>) {
    forall a, b :: 0 <= a < b < |order| ==> order[a] != order[b]
  }

  /** No lane is served twice and none is stranded. */
  lemma ServedOnce(lanes: seq<Lane>, inp: ForestIn)
    ensures var order := Packed(lanes, inp) + Singles(lanes, inp);
            Distinct(order) && forall i: nat :: i in order <==> i < |lanes|
  {
    PackedThenSingles(lanes, inp);
    PartsApart(lanes, inp.active);
    hide Packed, Singles, Chosen;
  }

  /** 0: speculates by argmax; 1: speculates by rejection; 2: takes its place in the plain batch. */
  function Standing(l: Lane, active: bool): nat {
    if !active || !l.primed || l.stale || (l.req.schema.Some? && !l.req.greedy) then 2
    else if l.req.greedy then 0 else 1
  }

  /** Packed lanes first, then the others by standing; among equals the older lane first. */
  lemma ServedInOrder(lanes: seq<Lane>, inp: ForestIn, a: nat, b: nat)
    requires a < b < |Packed(lanes, inp) + Singles(lanes, inp)|
    ensures var order := Packed(lanes, inp) + Singles(lanes, inp);
            && order[a] < |lanes| && order[b] < |lanes|
            && var s, t := Standing(lanes[order[a]], inp.active), Standing(lanes[order[b]], inp.active);
               s < t || (s == t && order[a] < order[b])
  {
    hide *;
    PackedThenSingles(lanes, inp);
    var order := Packed(lanes, inp) + Singles(lanes, inp);
    var r, k := StandsAt(lanes, inp.active, order, a);
    var q, m := StandsAt(lanes, inp.active, order, b);
    if r == q {
      ChosenStanding(lanes, inp.active, r);
    }
  }

  /** Where position a of the three roles' lists, one after the other, comes from. */
  lemma StandsAt(lanes: seq<Lane>, active: bool, order: seq<nat>, a: nat) returns (role: Role, k: nat)
    requires order == Chosen(lanes, |lanes|, active, ByArgmax) + Chosen(lanes, |lanes|, active, BySampling) + Chosen(lanes, |lanes|, active, ByBatch)
    requires a < |order|
    ensures k < |Chosen(lanes, |lanes|, active, role)| && order[a] == Chosen(lanes, |lanes|, active, role)[k] < |lanes|
    ensures var f, s := |Chosen(lanes, |lanes|, active, ByArgmax)|, |Chosen(lanes, |lanes|, active, BySampling)|;
            match role
            case ByArgmax => Standing(lanes[order[a]], active) == 0 && a == k
            case BySampling => Standing(lanes[order[a]], active) == 1 && a == f + k
            case ByBatch => Standing(lanes[order[a]], active) == 2 && a == f + s + k
  {
    hide Chosen, Standing;
    var f, s := |Chosen(lanes, |lanes|, active, ByArgmax)|, |Chosen(lanes, |lanes|, active, BySampling)|;
    role := if a < f then ByArgmax else if a < f + s then BySampling else ByBatch;
    k := if a < f then a else if a < f + s then a - f else a - f - s;
    ChosenStanding(lanes, active, role);
  }

  lemma ChosenStanding(lanes: seq<Lane>, active: bool, role: Role)
    ensures var r := Chosen(lanes, |lanes|, active, role);
            && (forall a :: 0 <= a < |r| ==> r[a] < |lanes|)
            && (forall a :: 0 <= a < |r| ==> Standing(lanes[r[a]], active) == match role { case ByArgmax => 0 case BySampling => 1 case ByBatch => 2 })
            && (forall a, b :: 0 <= a < b < |r| ==> r[a] < r[b])
  {
    var r := Chosen(lanes, |lanes|, active, role);
    forall a | 0 <= a < |r|
      ensures r[a] < |lanes| && Standing(lanes[r[a]], active) == match role { case ByArgmax => 0 case BySampling => 1 case ByBatch => 2 }
    {
      assert r[a] in r;
    }
  }

  lemma PackedThenSingles(lanes: seq<Lane>, inp: ForestIn)
    ensures Packed(lanes, inp) + Singles(lanes, inp)
         == Chosen(lanes, |lanes|, inp.active, ByArgmax) + Chosen(lanes, |lanes|, inp.active, BySampling)
            + Chosen(lanes, |lanes|, inp.active, ByBatch)
  {
    hide Chosen;
    CutApart(Chosen(lanes, |lanes|, inp.active, ByArgmax), |Packed(lanes, inp)|,
             Chosen(lanes, |lanes|, inp.active, BySampling), Chosen(lanes, |lanes|, inp.active, ByBatch));
  }

  lemma CutApart(f: seq<nat>, n: nat, s: seq<nat>, p: seq<nat>)
    requires n <= |f|
    ensures f[..n] + (f[n..] + s + p) == f + s + p && f[..0] == []
  {
  }

  /** The three roles share the lanes out among them. */
  lemma PartsApart(lanes: seq<Lane>, active: bool)
    ensures var order := Chosen(lanes, |lanes|, active, ByArgmax) + Chosen(lanes, |lanes|, active, BySampling)
                         + Chosen(lanes, |lanes|, active, ByBatch);
            Distinct(order) && forall i: nat :: i in order <==> i < |lanes|
  {
    ChosenDistinct(lanes, active, ByArgmax);
    ChosenDistinct(lanes, active, BySampling);
    ChosenDistinct(lanes, active, ByBatch);
    hide *;
    DistinctJoin(Chosen(lanes, |lanes|, active, ByArgmax), Chosen(lanes, |lanes|, active, BySampling));
    DistinctJoin(Chosen(lanes, |lanes|, active, ByArgmax) + Chosen(lanes, |lanes|, active, BySampling),
                 Chosen(lanes, |lanes|, active, ByBatch));
  }

  lemma ChosenDistinct(lanes: seq<Lane>, active: bool, role: Role)
    ensures Distinct(Chosen(lanes, |lanes|, active, role))
  {
    hide Chosen;
  }

  lemma DistinctJoin(a: seq<nat>, b: seq<nat>)
    requires Distinct(a) && Distinct(b) && forall i :: i in a ==> i !in b
    ensures Distinct(a + b) && forall i: nat :: i in a + b <==> i in a || i in b
  {
    forall x, y | 0 <= x < y < |a + b| ensures (a + b)[x] != (a + b)[y] {
      if x < |a| <= y {
        assert (a + b)[x] in a && (a + b)[y] in b;
      }
    }
  }

  // ------------------------------------------------------------------ one lane at a time

  predicate SpecAt(st: Sched, inp: ForestIn, i: nat)
    requires i < |st.lanes|
  {
    UsesMtp(st.lanes[i], inp.active)
  }

  predicate FitsAt(cfg: Config, st: Sched, inp: ForestIn, i: nat) {
    i < |st.lanes| && LaneFits(cfg, st.lanes[i], SpecAt(st, inp, i), inp.drafts(i))
  }

  /** Lane i has been served: its record, its slot, the device, and whether it is over. */
  function Settle(p: Progress, i: nat, r: Served, spec: bool): Progress
    requires i < |p.st.lanes| == |p.over| && p.st.lanes[i].phys < |p.st.slots|
  {
    Progress(ApplyServed(p.st, i, r, spec), p.over[i := r.stream.finished || p.st.lanes[i].cancelled])
  }

  function ServeAt(net: Network, cfg: Config, p: Progress, inp: ForestIn, i: nat): Progress
    requires ShapeOk(cfg, p.st) && |p.over| == |p.st.lanes| && FitsAt(cfg, p.st, inp, i)
  {
    var l, spec := p.st.lanes[i], SpecAt(p.st, inp, i);
    Settle(p, i, Serve(net, cfg, p.st.dev, l, p.st.slots[l.phys].cache, spec, inp.drafts(i), inp.draws(i)), spec)
  }

  /** Only the lanes in `order` have moved. */
  ghost predicate OnlyMoved(cfg: Config, p: Progress, r: Progress, order: seq<nat>) {
    && ShapeOk(cfg, r.st) && |r.over| == |r.st.lanes| == |p.st.lanes| == |p.over|
    && r.st.outcomes == p.st.outcomes && r.st.pf == p.st.pf && r.st.free == p.st.free
    && forall i: nat :: i < |p.st.lanes| && i !in order ==> r.st.lanes[i] == p.st.lanes[i] && r.over[i] == p.over[i]
  }

  ghost predicate EachFits(cfg: Config, p: Progress, inp: ForestIn, order: seq<nat>) {
    && ShapeOk(cfg, p.st) && |p.over| == |p.st.lanes| && Distinct(order)
    && forall k :: 0 <= k < |order| ==> FitsAt(cfg, p.st, inp, order[k])
  }

  lemma SettleMoves(cfg: Config, p: Progress, i: nat, r: Served, spec: bool)
    requires ShapeOk(cfg, p.st) && i < |p.st.lanes| == |p.over| && SameDims(p.st.dev, r.dev)
    ensures OnlyMoved(cfg, p, Settle(p, i, r, spec), [i])
  {
  }

  lemma MovedSnoc(cfg: Config, p: Progress, q: Progress, r: Progress, order: seq<nat>, k: nat)
    requires k < |order| && OnlyMoved(cfg, p, q, order[..k]) && OnlyMoved(cfg, q, r, [order[k]])
    ensures OnlyMoved(cfg, p, r, order[..k + 1])
  {
    hide ShapeOk;
    assert order[..k + 1] == order[..k] + [order[k]];
  }

  lemma StillFits(cfg: Config, p: Progress, q: Progress, inp: ForestIn, order: seq<nat>, k: nat)
    requires EachFits(cfg, p, inp, order) && k < |order| && OnlyMoved(cfg, p, q, order[..k])
    ensures ShapeOk(cfg, q.st) && |q.over| == |q.st.lanes| && FitsAt(cfg, q.st, inp, order[k])
    ensures q.st.lanes[order[k]] == p.st.lanes[order[k]] && q.over[order[k]] == p.over[order[k]]
  {
    hide ShapeOk, LaneFits;
    assert FitsAt(cfg, p.st, inp, order[k]);
    assert order[k] !in order[..k];
  }

  lemma NoneMoved(cfg: Config, p: Progress, inp: ForestIn, order: seq<nat>)
    requires EachFits(cfg, p, inp, order)
    ensures OnlyMoved(cfg, p, p, order[..0])
  {
  }

  /** Serve the first n lanes of `order`, one after the other. */
  function ServeEach(net: Network, cfg: Config, p: Progress, inp: ForestIn, order: seq<nat>, n: nat): (r: Progress)
    requires EachFits(cfg, p, inp, order) && n <= |order|
    ensures OnlyMoved(cfg, p, r, order[..n])
  {
    hide *;
    if n == 0 then
      NoneMoved(cfg, p, inp, order);
      p
    else
      var q := ServeEach(net, cfg, p, inp, order, n - 1);
      StillFits(cfg, p, q, inp, order, n - 1);
      var r := ServeAt(net, cfg, q, inp, order[n - 1]);
      ServeAtMoves(net, cfg, q, inp, order[n - 1]);
      MovedSnoc(cfg, p, q, r, order, n - 1);
      r
  }

  lemma ServeAtMoves(net: Network, cfg: Config, p: Progress, inp: ForestIn, i: nat)
    requires ShapeOk(cfg, p.st) && |p.over| == |p.st.lanes| && FitsAt(cfg, p.st, inp, i)
    ensures OnlyMoved(cfg, p, ServeAt(net, cfg, p, inp, i), [i])
  {
    hide Serve, Settle, ApplyServed;
    var l, spec := p.st.lanes[i], SpecAt(p.st, inp, i);
    var r := Serve(net, cfg, p.st.dev, l, p.st.slots[l.phys].cache, spec, inp.drafts(i), inp.draws(i));
    SettleMoves(cfg, p, i, r, spec);
  }

  // ------------------------------------------------------------------ the packed pass

  function DraftsOf(d: Draft): seq<Token> {
    if d.ChainDraft? then d.drafts else []
  }

  function PackAt(st: Sched, inp: ForestIn, i: nat): Pack
    requires i < |st.lanes| && st.lanes[i].phys < |st.slots|
  {
    Pack(st.lanes[i], st.slots[st.lanes[i].phys].cache, DraftsOf(inp.drafts(i)))
  }

  /** The allocator's uniform depth, room in every packed lane's plane, and the wide verify band. */
  predicate PackFitsAt(cfg: Config, st: Sched, inp: ForestIn, i: nat, count: nat) {
    && 0 < count && inp.depth > 0 && i < |st.lanes|
    && |DraftsOf(inp.drafts(i))| + 1 == PackDepth(count, inp.depth)
    && st.lanes[i].pos + Penalty.MAX_VERIFY <= cfg.kvStride
  }

  predicate PacksFit(cfg: Config, st: Sched, inp: ForestIn) {
    && ShapeOk(cfg, st) && Penalty.MAX_VERIFY <= cfg.checkpoints + 1
    && var order := Packed(st.lanes, inp);
       (|order| > 0 ==> inp.depth > 0) && forall k :: 0 <= k < |order| ==> PackFitsAt(cfg, st, inp, order[k], |order|)
  }

  function PacksOf(cfg: Config, st: Sched, inp: ForestIn): (packs: seq<Pack>)
    requires PacksFit(cfg, st, inp)
    ensures |packs| == |Packed(st.lanes, inp)|
    ensures forall k :: 0 <= k < |packs| ==> InPlane(st.dev, packs[k].l.phys, packs[k].l.pos)
  {
    var order := Packed(st.lanes, inp);
    assert forall k :: 0 <= k < |order| ==> PackFitsAt(cfg, st, inp, order[k], |order|);
    seq(|order|, k requires 0 <= k < |order| => PackAt(st, inp, order[k]))
  }

  function AcceptedOf(net: Network, d: Dev, packs: seq<Pack>): (r: seq<nat>)
    requires forall k :: 0 <= k < |packs| ==> InPlane(d, packs[k].l.phys, packs[k].l.pos)
    ensures |r| == |packs| && forall k :: 0 <= k < |r| ==> r[k] <= |packs[k].drafts|
  {
    seq(|packs|, k requires 0 <= k < |packs| => AcceptLen(ForestPreds(net, d, packs[k]), packs[k].drafts))
  }

  /** The device after the packed verify and the roll-backs of the first k packs. */
  function PackedDev(net: Network, cfg: Config, d: Dev, packs: seq<Pack>, k: nat): (r: Dev)
    requires k <= |packs| && forall q :: 0 <= q < |packs| ==> InPlane(d, packs[q].l.phys, packs[q].l.pos)
    ensures |r.cells| == |d.cells| && |r.kv| == |d.kv|
  {
    RollBack(cfg, ForestVerify(net, cfg, d, packs), packs, AcceptedOf(net, d, packs), k)
  }

  /** A pack's roll-back: one cell copied, unless everything was accepted. */
  lemma PackedDevNext(net: Network, cfg: Config, d: Dev, packs: seq<Pack>, k: nat)
    requires k < |packs| && forall q :: 0 <= q < |packs| ==> InPlane(d, packs[q].l.phys, packs[q].l.pos)
    requires VerifyCell(cfg) + cfg.checkpoints <= |d.cells| && packs[k].l.phys < |d.cells|
    requires AcceptedOf(net, d, packs)[k] < |packs[k].drafts| ==> StartOf(packs, k) + AcceptedOf(net, d, packs)[k] < cfg.checkpoints
    ensures AcceptedOf(net, d, packs)[k] == AcceptLen(ForestPreds(net, d, packs[k]), packs[k].drafts)
    ensures var acc, before := AcceptedOf(net, d, packs)[k], PackedDev(net, cfg, d, packs, k);
            PackedDev(net, cfg, d, packs, k + 1)
              == if acc != |packs[k].drafts| then CopyCell(before, VerifyCell(cfg) + StartOf(packs, k) + acc, packs[k].l.phys) else before
  {
    hide ForestVerify, ForestPreds, AcceptLen, StartOf, InPlane, VerifyCell;
  }

  /** What pack k's lane gets, with the device in state `d'`. */
  function PackServed(net: Network, cfg: Config, d: Dev, packs: seq<Pack>, k: nat, d': Dev): Served
    requires k < |packs| && forall q :: 0 <= q < |packs| ==> InPlane(d, packs[q].l.phys, packs[q].l.pos)
  {
    var s := ForestStream(net, cfg, d, packs[k]);
    Served(s, PosAfter(packs[k].l, s, AcceptedOf(net, d, packs)[k]), d')
  }

  lemma PackSlot(cfg: Config, st: Sched, inp: ForestIn, k: nat)
    requires PacksFit(cfg, st, inp) && k < |Packed(st.lanes, inp)|
    ensures var i := Packed(st.lanes, inp)[k]; i < |st.lanes| && st.lanes[i].phys < |st.slots|
  {
    assert PackFitsAt(cfg, st, inp, Packed(st.lanes, inp)[k], |Packed(st.lanes, inp)|);
  }

  function Falses(n: nat): (r: seq<bool>)
    ensures |r| == n && forall i :: 0 <= i < n ==> !r[i]
  {
    seq(n, i => false)
  }

  lemma StartsAtZero(packs: seq<Pack>)
    ensures StartOf(packs, 0) == 0
  {
  }

  lemma StartsNext(packs: seq<Pack>, k: nat)
    requires k < |packs|
    ensures StartOf(packs, k + 1) == StartOf(packs, k) + |packs[k].drafts| + 1
  {
  }

  /** Column indices of a fitting pack stay inside the checkpoint band. */
  lemma PackColumns(cfg: Config, st: Sched, inp: ForestIn, k: nat, acc: nat)
    requires PacksFit(cfg, st, inp) && k < |Packed(st.lanes, inp)| && acc < |PacksOf(cfg, st, inp)[k].drafts|
    ensures StartOf(PacksOf(cfg, st, inp), k) + acc < cfg.checkpoints
  {
    var packs, order := PacksOf(cfg, st, inp), Packed(st.lanes, inp);
    var n := |order|;
    forall q | 0 <= q < n ensures |packs[q].drafts| + 1 == PackDepth(n, inp.depth) {
      assert PackFitsAt(cfg, st, inp, order[q], n);
    }
    PackedCount(st.lanes, inp);
    hide PacksOf, Packed, PackDepth;
    PackFits(n, inp.depth);
    UniformStart(packs, PackDepth(n, inp.depth), n);
    StartGrows(packs, k, n);
  }

  lemma PackBounds(net: Network, cfg: Config, st: Sched, inp: ForestIn, k: nat)
    requires PacksFit(cfg, st, inp) && k < |Packed(st.lanes, inp)|
    ensures var packs := PacksOf(cfg, st, inp);
            && packs[k].l.phys < cfg.maxBatch && |st.dev.cells| == CellCount(cfg)
            && (AcceptedOf(net, st.dev, packs)[k] < |packs[k].drafts| ==>
                  StartOf(packs, k) + AcceptedOf(net, st.dev, packs)[k] < cfg.checkpoints)
  {
    var packs := PacksOf(cfg, st, inp);
    assert PackFitsAt(cfg, st, inp, Packed(st.lanes, inp)[k], |packs|);
    hide Packed, AcceptedOf, StartOf;
    if AcceptedOf(net, st.dev, packs)[k] < |packs[k].drafts| {
      PackColumns(cfg, st, inp, k, AcceptedOf(net, st.dev, packs)[k]);
    }
  }

  lemma SettleShape(p: Progress, i: nat, r: Served, spec: bool)
    requires i < |p.st.lanes| == |p.over| && p.st.lanes[i].phys < |p.st.slots|
    ensures var q := Settle(p, i, r, spec);
            && |q.over| == |q.st.lanes| == |p.st.lanes| && |q.st.slots| == |p.st.slots|
            && forall j :: 0 <= j < |p.st.lanes| ==> q.st.lanes[j].phys == p.st.lanes[j].phys
  {
  }

  /** The k-th packed lane's turn. */
  function PackTaken(net: Network, cfg: Config, st: Sched, inp: ForestIn, k: nat): Served
    requires PacksFit(cfg, st, inp) && k < |Packed(st.lanes, inp)|
  {
    var packs := PacksOf(cfg, st, inp);
    hide *;
    PackServed(net, cfg, st.dev, packs, k, PackedDev(net, cfg, st.dev, packs, k + 1))
  }

  /** One verify for all packs, before any roll-back. */
  function PassStart(net: Network, cfg: Config, st: Sched, inp: ForestIn): Progress
    requires PacksFit(cfg, st, inp)
  {
    hide *;
    Progress(st.(dev := PackedDev(net, cfg, st.dev, PacksOf(cfg, st, inp), 0)), Falses(|st.lanes|))
  }

  lemma PassStartShape(net: Network, cfg: Config, st: Sched, inp: ForestIn)
    requires PacksFit(cfg, st, inp)
    ensures var r := PassStart(net, cfg, st, inp); r.st == st.(dev := r.st.dev) && |r.over| == |st.lanes|
  {
    hide PacksFit, PackedDev, PacksOf;
  }

  /** One verify for all packs, then pack by pack its roll-back and its lane's bookkeeping. */
  function PackedFirst(net: Network, cfg: Config, st: Sched, inp: ForestIn, k: nat): (r: Progress)
    requires PacksFit(cfg, st, inp) && k <= |Packed(st.lanes, inp)|
    ensures |r.over| == |r.st.lanes| == |st.lanes| && |r.st.slots| == |st.slots|
    ensures forall i :: 0 <= i < |st.lanes| ==> r.st.lanes[i].phys == st.lanes[i].phys
  {
    hide *;
    if k == 0 then
      PassStartShape(net, cfg, st, inp);
      PassStart(net, cfg, st, inp)
    else
      var p := PackedFirst(net, cfg, st, inp, k - 1);
      var i := Packed(st.lanes, inp)[k - 1];
      PackSlot(cfg, st, inp, k - 1);
      var r := PackTaken(net, cfg, st, inp, k - 1);
      SettleShape(p, i, r, true);
      Settle(p, i, r, true)
  }

  function PackedPass(net: Network, cfg: Config, st: Sched, inp: ForestIn): Progress
    requires PacksFit(cfg, st, inp)
  {
    var n := |Packed(st.lanes, inp)|;
    if n == 0 then Progress(st, Falses(|st.lanes|)) else PackedFirst(net, cfg, st, inp, n)
  }

  // ------------------------------------------------------------------ the packed pass, lane by lane

  ghost predicate OfPack(packs: seq<Pack>, k: nat, slot: nat) {
    exists q :: k <= q < |packs| && packs[q].l.phys == slot
  }

  /** The first k packs as the pass leaves them, the others as they were: one served lane apart. */
  ghost function Mixed(d: Dev, r: Dev, packs: seq<Pack>, k: nat): Dev
    requires |r.cells| == |d.cells| && |r.kv| == |d.kv|
  {
    if k == 0 then d
    else Dev(seq(|d.cells|, i requires 0 <= i < |d.cells| => if OfPack(packs, k, i) then d.cells[i] else r.cells[i]),
             seq(|d.kv|, s requires 0 <= s < |d.kv| => if OfPack(packs, k, s) then d.kv[s] else r.kv[s]))
  }

  lemma MixedEnds(d: Dev, r: Dev, packs: seq<Pack>)
    requires |r.cells| == |d.cells| && |r.kv| == |d.kv| && packs != []
    ensures Mixed(d, r, packs, |packs|) == r
  {
    assert Mixed(d, r, packs, |packs|).cells == r.cells;
    assert Mixed(d, r, packs, |packs|).kv == r.kv;
  }

  /** A slot of no pack keeps its cell and plane, and so does every checkpoint outside the band. */
  lemma {:induction false} RolledFrame(cfg: Config, d: Dev, packs: seq<Pack>, accepted: seq<nat>, n: nat, i: nat)
    requires n <= |packs| == |accepted| && i < |d.cells| && !OfPack(packs, 0, i)
    ensures RollBack(cfg, d, packs, accepted, n).cells[i] == d.cells[i]
    decreases n
  {
    if n > 0 {
      RolledFrame(cfg, d, packs, accepted, n - 1, i);
      assert packs[n - 1].l.phys != i;
    }
  }

  lemma PackedFrame(net: Network, cfg: Config, d: Dev, packs: seq<Pack>, i: nat)
    requires PacksOk(net, cfg, d, packs) && !OfPack(packs, 0, i)
    ensures forall q :: 0 <= q < |packs| ==> InPlane(d, packs[q].l.phys, packs[q].l.pos)
    ensures var r := PackedDev(net, cfg, d, packs, |packs|);
            && (i < |d.cells| && !(cfg.maxBatch <= i < cfg.maxBatch + cfg.checkpoints) ==> r.cells[i] == d.cells[i])
            && (i < |d.kv| ==> r.kv[i] == d.kv[i])
  {
    forall k | 0 <= k < |packs| ensures packs[k].l.phys != i { }
    hide PacksOk;
    ForestFrame(net, cfg, d, packs, |packs|, i);
    if i < |d.cells| {
      RolledFrame(cfg, ForestVerify(net, cfg, d, packs), packs, AcceptedOf(net, d, packs), |packs|, i);
    }
  }

  lemma PackedRowCounts(net: Network, cfg: Config, d: Dev, packs: seq<Pack>, s: nat)
    requires PacksOk(net, cfg, d, packs) && s < |d.kv|
    ensures forall q :: 0 <= q < |packs| ==> InPlane(d, packs[q].l.phys, packs[q].l.pos)
    ensures |PackedDev(net, cfg, d, packs, |packs|).kv[s]| == |d.kv[s]|
  {
    PlanesReady(net, cfg, d, packs);
    if OfPack(packs, 0, s) {
      var q :| 0 <= q < |packs| && packs[q].l.phys == s;
      OwnRows(net, cfg, d, packs, |packs|, q);
    } else {
      PackedFrame(net, cfg, d, packs, s);
    }
  }

  lemma OfPackNext(packs: seq<Pack>, k: nat, i: nat)
    requires k < |packs| && packs[k].l.phys != i
    ensures OfPack(packs, k, i) <==> OfPack(packs, k + 1, i)
  {
  }

  lemma MixedMoves(cfg: Config, d: Dev, r: Dev, packs: seq<Pack>, k: nat)
    requires |r.cells| == |d.cells| && |r.kv| == |d.kv| && k < |packs|
    requires forall i :: 0 <= i < |d.kv| ==> |r.kv[i]| == |d.kv[i]| && (!OfPack(packs, 0, i) ==> r.kv[i] == d.kv[i])
    requires forall i :: 0 <= i < |d.cells| && !OfPack(packs, 0, i) && !(cfg.maxBatch <= i < cfg.maxBatch + cfg.checkpoints) ==>
               r.cells[i] == d.cells[i]
    ensures OnlySlot(cfg, Mixed(d, r, packs, k), Mixed(d, r, packs, k + 1), packs[k].l.phys)
  {
    var a, b, p := Mixed(d, r, packs, k), Mixed(d, r, packs, k + 1), packs[k].l.phys;
    hide OfPack;
    forall i | 0 <= i < |d.kv| ensures |b.kv[i]| == |a.kv[i]| && (i != p ==> b.kv[i] == a.kv[i]) {
      if i != p {
        OfPackNext(packs, k, i);
      }
    }
    forall i | 0 <= i < |d.cells| && i != p && !(cfg.maxBatch <= i < cfg.maxBatch + cfg.checkpoints)
      ensures b.cells[i] == a.cells[i]
    {
      OfPackNext(packs, k, i);
    }
  }

  /** From one mixed device to the next only pack k's slot moves. */
  lemma MixedStep(net: Network, cfg: Config, d: Dev, packs: seq<Pack>, k: nat)
    requires PacksOk(net, cfg, d, packs) && k < |packs|
    ensures forall q :: 0 <= q < |packs| ==> InPlane(d, packs[q].l.phys, packs[q].l.pos)
    ensures var r := PackedDev(net, cfg, d, packs, |packs|);
            OnlySlot(cfg, Mixed(d, r, packs, k), Mixed(d, r, packs, k + 1), packs[k].l.phys)
  {
    PlanesReady(net, cfg, d, packs);
    var r := PackedDev(net, cfg, d, packs, |packs|);
    hide PackedDev, PacksOk, OfPack, OnlySlot, Mixed;
    forall i | 0 <= i < |d.kv| ensures |r.kv[i]| == |d.kv[i]| && (!OfPack(packs, 0, i) ==> r.kv[i] == d.kv[i]) {
      PackedRowCounts(net, cfg, d, packs, i);
      if !OfPack(packs, 0, i) {
        PackedFrame(net, cfg, d, packs, i);
      }
    }
    forall i | 0 <= i < |d.cells| && !OfPack(packs, 0, i) && !(cfg.maxBatch <= i < cfg.maxBatch + cfg.checkpoints)
      ensures r.cells[i] == d.cells[i]
    {
      PackedFrame(net, cfg, d, packs, i);
    }
    MixedMoves(cfg, d, r, packs, k);
  }

  /** On its own mixed devices a packed lane is served like any lane served alone. */
  lemma PackServedOk(net: Network, cfg: Config, d: Dev, packs: seq<Pack>, k: nat)
    requires PacksOk(net, cfg, d, packs) && k < |packs|
    ensures forall q :: 0 <= q < |packs| ==> InPlane(d, packs[q].l.phys, packs[q].l.pos)
    ensures var r := PackedDev(net, cfg, d, packs, |packs|);
            var s := PackServed(net, cfg, d, packs, k, Mixed(d, r, packs, k + 1));
            && ServedOk(net, cfg, Mixed(d, r, packs, k), packs[k].l, packs[k].cache, s) && Counts(packs[k].l, s)
  {
    hide PacksOk, PackedDev, ForestStream, OnlySlot, Live, Mixed;
    MixedStep(net, cfg, d, packs, k);
    MixedLive(net, cfg, d, packs, k);
    var r, p, acc := PackedDev(net, cfg, d, packs, |packs|), packs[k], AcceptedOf(net, d, packs);
    PackStreamOk(net, cfg, d, p, acc[k]);
    PackReady(net, cfg, d, packs, k);
  }

  lemma PackReady(net: Network, cfg: Config, d: Dev, packs: seq<Pack>, k: nat)
    requires PacksOk(net, cfg, d, packs) && k < |packs|
    ensures |packs[k].cache| == packs[k].l.pos
  {
    assert Ready(net, cfg, d, packs[k].l, packs[k].cache, |packs[k].drafts| + 1);
  }

  /** Pack k's slot on the next mixed device is as the whole pass leaves it. */
  lemma MixedLive(net: Network, cfg: Config, d: Dev, packs: seq<Pack>, k: nat)
    requires PacksOk(net, cfg, d, packs) && k < |packs|
    ensures forall q :: 0 <= q < |packs| ==> InPlane(d, packs[q].l.phys, packs[q].l.pos)
    ensures var r, p := PackedDev(net, cfg, d, packs, |packs|), packs[k];
            Live(net, Mixed(d, r, packs, k + 1), p.l.phys, p.cache + Fed(p)[..AcceptedOf(net, d, packs)[k] + 1])
  {
    PlanesReady(net, cfg, d, packs);
    var r, p, acc := PackedDev(net, cfg, d, packs, |packs|), packs[k], AcceptedOf(net, d, packs);
    PackedLaneOk(net, cfg, d, packs, acc, k);
    PackPlace(net, cfg, d, packs, k);
    var b := Mixed(d, r, packs, k + 1);
    assert !OfPack(packs, k + 1, p.l.phys);
    hide PacksOk, PackedDev, Fold, OfPack;
    assert b.cells[p.l.phys] == r.cells[p.l.phys] && b.kv[p.l.phys] == r.kv[p.l.phys];
  }

  /** What a lane records after its accepted drafts and one more token. */
  ghost predicate Recorded(p: Pack, s: Stream, acc: nat)
    requires acc <= |p.drafts|
  {
    && s.cache == p.cache + Fed(p)[..acc + 1] && p.cache + [p.l.last] <= s.cache && s.generated >= p.l.generated
    && (!s.finished ==> s.generated == p.l.generated + acc + 1 && s.generated < p.l.req.maxNew)
  }

  lemma CommitRecords(eos: set<Token>, p: Pack, acc: nat, bonus: Token)
    requires acc <= |p.drafts|
    ensures Recorded(p, Commit(eos, Unmasked(p.l.req), View(p.l, p.cache, false), p.drafts[..acc], bonus), acc)
  {
    var path := p.drafts[..acc];
    assert Fed(p)[..acc + 1] == [p.l.last] + path;
    CommitGrows(eos, Unmasked(p.l.req), View(p.l, p.cache, false), path, bonus);
    CommitCounts(eos, Unmasked(p.l.req), View(p.l, p.cache, false), path, bonus);
    hide Commit;
    assert p.cache + ([p.l.last] + path) == p.cache + [p.l.last] + path;
  }

  lemma PackStreamOk(net: Network, cfg: Config, d: Dev, p: Pack, acc: nat)
    requires InPlane(d, p.l.phys, p.l.pos) && acc == AcceptLen(ForestPreds(net, d, p), p.drafts)
    ensures acc <= |p.drafts| && Recorded(p, ForestStream(net, cfg, d, p), acc)
  {
    var preds := ForestPreds(net, d, p);
    CommitRecords(cfg.eos, p, acc, preds[acc]);
    hide Commit, ForestPreds, Recorded;
  }

  // ------------------------------------------------------------------ the invariant

  lemma SettleStands(net: Network, cfg: Config, p: Progress, k: nat, r: Served, spec: bool)
    requires ShapeOk(cfg, p.st) && Owned(cfg, p.st) && StandingOk(net, cfg, p) && k < |p.over| == |p.st.lanes| && !p.over[k]
    requires ServedOk(net, cfg, p.st.dev, p.st.lanes[k], p.st.slots[p.st.lanes[k].phys].cache, r) && Counts(p.st.lanes[k], r)
    requires ShapeOk(cfg, ApplyServed(p.st, k, r, spec))
    ensures StandingOk(net, cfg, Settle(p, k, r, spec))
  {
    var p' := Settle(p, k, r, spec);
    hide Owned, ServedOk, Counts, LaneOk;
    forall i | 0 <= i < |p'.st.lanes| && !p'.over[i]
      ensures LaneOk(net, cfg, p'.st.dev, p'.st.lanes[i], p'.st.slots[p'.st.lanes[i].phys].cache)
    {
      if i != k {
        OthersStand(net, cfg, p.st, k, r, spec, i);
      } else {
        ServedLane(net, cfg, p.st.dev, p.st.lanes[k], p.st.slots[p.st.lanes[k].phys].cache, r, spec);
      }
    }
  }

  /** Serving any one waiting lane keeps what holds in the middle of a step. */
  lemma SettleKeeps(net: Network, cfg: Config, p: Progress, k: nat, r: Served, spec: bool)
    requires MidStep(net, cfg, p) && k < |p.over| == |p.st.lanes| && !p.over[k]
    requires ServedOk(net, cfg, p.st.dev, p.st.lanes[k], p.st.slots[p.st.lanes[k].phys].cache, r) && Counts(p.st.lanes[k], r)
    ensures MidStep(net, cfg, Settle(p, k, r, spec))
  {
    hide SlotsOk, LaneOk, CursorOk, ServedOk, Counts, StandingOk, Owned, ApplyServed;
    ServedSlots(net, cfg, p.st, k, r, spec);
    ServedOwners(cfg, p.st, k, r, spec);
    SettleStands(net, cfg, p, k, r, spec);
    if p.st.pf.Some? {
      ServedCursor(net, cfg, p.st, k, r);
    }
    ServedKeepsCursor(p.st, k, r, spec);
    hide ShapeOk;
  }

  lemma PackedCount(lanes: seq<Lane>, inp: ForestIn)
    ensures var n := |Packed(lanes, inp)|;
            n <= PACK_CAP && (n > 0 ==> n >= 2)
  {
  }

  lemma PackIs(cfg: Config, st: Sched, inp: ForestIn, k: nat)
    requires PacksFit(cfg, st, inp) && k < |Packed(st.lanes, inp)|
    ensures var order, packs := Packed(st.lanes, inp), PacksOf(cfg, st, inp);
            && order[k] < |st.lanes| && st.lanes[order[k]].phys < cfg.maxBatch && packs[k] == PackAt(st, inp, order[k])
            && |packs[k].drafts| + 1 == PackDepth(|order|, inp.depth) && packs[k].l.pos + Penalty.MAX_VERIFY <= cfg.kvStride
            && PackDepth(|order|, inp.depth) <= Penalty.MAX_VERIFY
  {
    var n := |Packed(st.lanes, inp)|;
    assert PackFitsAt(cfg, st, inp, Packed(st.lanes, inp)[k], n);
    PackedCount(st.lanes, inp);
    hide Packed;
    PackFits(n, inp.depth);
  }

  lemma RoomReady(net: Network, cfg: Config, st: Sched, l: Lane, rows: nat)
    requires ShapeOk(cfg, st) && l.phys < cfg.maxBatch && LaneOk(net, cfg, st.dev, l, st.slots[l.phys].cache)
    requires l.pos + rows <= cfg.kvStride
    ensures Ready(net, cfg, st.dev, l, st.slots[l.phys].cache, rows)
  {
  }

  lemma PackReadyAt(net: Network, cfg: Config, st: Sched, inp: ForestIn, k: nat)
    requires Inv(net, cfg, st) && PacksFit(cfg, st, inp) && k < |Packed(st.lanes, inp)|
    ensures var order, packs := Packed(st.lanes, inp), PacksOf(cfg, st, inp);
            && order[k] < |st.lanes| && packs[k] == PackAt(st, inp, order[k])
            && |packs[k].drafts| + 1 == PackDepth(|order|, inp.depth)
            && LaneOk(net, cfg, st.dev, packs[k].l, packs[k].cache)
            && Ready(net, cfg, st.dev, packs[k].l, packs[k].cache, |packs[k].drafts| + 1)
  {
    PackIs(cfg, st, inp, k);
    var p := PacksOf(cfg, st, inp)[k];
    hide PacksOf, PacksFit, Packed, PackDepth;
    assert LaneOk(net, cfg, st.dev, p.l, p.cache);
    hide LaneOk, SlotsOk, Owned, CursorOk, Ready;
    RoomReady(net, cfg, st, p.l, |p.drafts| + 1);
  }

  lemma PacksDisjoint(net: Network, cfg: Config, st: Sched, inp: ForestIn, a: nat, b: nat)
    requires Inv(net, cfg, st) && PacksFit(cfg, st, inp) && a < b < |Packed(st.lanes, inp)|
    ensures var order := Packed(st.lanes, inp);
            order[a] < |st.lanes| && order[b] < |st.lanes| && order[a] != order[b]
    ensures PacksOf(cfg, st, inp)[a].l.phys != PacksOf(cfg, st, inp)[b].l.phys
  {
    PackReadyAt(net, cfg, st, inp, a);
    PackReadyAt(net, cfg, st, inp, b);
    ServedOnce(st.lanes, inp);
    var order := Packed(st.lanes, inp);
    var all := order + Singles(st.lanes, inp);
    hide Packed, Singles, PacksOf, Ready, PacksFit;
    assert all[a] == order[a] && all[b] == order[b];
    LanesApart(cfg, st, order[a], order[b]);
  }

  lemma PacksReady(net: Network, cfg: Config, st: Sched, inp: ForestIn)
    requires Inv(net, cfg, st) && PacksFit(cfg, st, inp) && Packed(st.lanes, inp) != []
    ensures PacksOk(net, cfg, st.dev, PacksOf(cfg, st, inp))
  {
    var packs, n := PacksOf(cfg, st, inp), |Packed(st.lanes, inp)|;
    PackedCount(st.lanes, inp);
    PackFits(n, inp.depth);
    hide Inv, Ready, PackDepth, Packed;
    forall k | 0 <= k < n
      ensures Ready(net, cfg, st.dev, packs[k].l, packs[k].cache, |packs[k].drafts| + 1)
      ensures |packs[k].drafts| + 1 == PackDepth(n, inp.depth)
    {
      PackReadyAt(net, cfg, st, inp, k);
    }
    forall a, b | 0 <= a < b < n ensures packs[a].l.phys != packs[b].l.phys {
      PacksDisjoint(net, cfg, st, inp, a, b);
    }
    hide PacksOf, PacksFit;
    PacksAssemble(net, cfg, st.dev, packs, PackDepth(n, inp.depth));
  }

  lemma PacksAssemble(net: Network, cfg: Config, d: Dev, packs: seq<Pack>, n: nat)
    requires packs != [] && |packs| * n <= cfg.checkpoints + 1
    requires forall k :: 0 <= k < |packs| ==>
               |packs[k].drafts| + 1 == n && Ready(net, cfg, d, packs[k].l, packs[k].cache, |packs[k].drafts| + 1)
    requires forall i, k :: 0 <= i < k < |packs| ==> packs[i].l.phys != packs[k].l.phys
    ensures PacksOk(net, cfg, d, packs)
  {
    hide Ready, StartOf;
    UniformStart(packs, n, |packs|);
  }

  /** The pass after k packs, on the mixed device. */
  ghost function Halfway(net: Network, cfg: Config, st: Sched, inp: ForestIn, k: nat): Progress
    requires PacksFit(cfg, st, inp) && k <= |Packed(st.lanes, inp)|
  {
    var packs, p := PacksOf(cfg, st, inp), PackedFirst(net, cfg, st, inp, k);
    Progress(p.st.(dev := Mixed(st.dev, PackedDev(net, cfg, st.dev, packs, |packs|), packs, k)), p.over)
  }

  lemma HalfwayNext(net: Network, cfg: Config, st: Sched, inp: ForestIn, k: nat)
    requires PacksFit(cfg, st, inp) && k < |Packed(st.lanes, inp)|
    ensures var packs := PacksOf(cfg, st, inp);
            var r := PackedDev(net, cfg, st.dev, packs, |packs|);
            var h, i := Halfway(net, cfg, st, inp, k), Packed(st.lanes, inp)[k];
            && i < |h.st.lanes| == |h.over| && h.st.lanes[i].phys < |h.st.slots|
            && Halfway(net, cfg, st, inp, k + 1)
                 == Settle(h, i, PackServed(net, cfg, st.dev, packs, k, Mixed(st.dev, r, packs, k + 1)), true)
  {
    PackedNext(net, cfg, st, inp, k);
    hide PackedFirst, PacksFit, PackedDev, Mixed, ForestStream, AcceptedOf, Update, Packed, PacksOf;
  }

  /** Pack p's lane sits at index i, untouched and not over. */
  ghost predicate Waits(h: Progress, i: nat, p: Pack) {
    && i < |h.st.lanes| == |h.over| && !h.over[i] && h.st.lanes[i] == p.l
    && p.l.phys < |h.st.slots| && h.st.slots[p.l.phys].cache == p.cache
  }

  lemma SettleOther(h: Progress, i: nat, p: Pack, r: Served, spec: bool, j: nat, q: Pack)
    requires Waits(h, i, p) && Waits(h, j, q) && i != j && p.l.phys != q.l.phys
    ensures Waits(Settle(h, i, r, spec), j, q)
  {
    hide Update;
  }

  lemma WaitsAtFirst(net: Network, cfg: Config, st: Sched, inp: ForestIn, q: nat)
    requires Inv(net, cfg, st) && PacksFit(cfg, st, inp) && q < |Packed(st.lanes, inp)|
    ensures Halfway(net, cfg, st, inp, 0) == Progress(st, Falses(|st.lanes|))
    ensures Waits(Progress(st, Falses(|st.lanes|)), Packed(st.lanes, inp)[q], PacksOf(cfg, st, inp)[q])
  {
    PackReadyAt(net, cfg, st, inp, q);
    hide Packed, PacksOf, PackedDev, Inv, Ready, LaneOk;
  }

  lemma WaitsNext(net: Network, cfg: Config, st: Sched, inp: ForestIn, k: nat, q: nat)
    requires Inv(net, cfg, st) && PacksFit(cfg, st, inp) && k < q < |Packed(st.lanes, inp)|
    requires var h, order, packs := Halfway(net, cfg, st, inp, k), Packed(st.lanes, inp), PacksOf(cfg, st, inp);
             Waits(h, order[k], packs[k]) && Waits(h, order[q], packs[q])
    ensures Waits(Halfway(net, cfg, st, inp, k + 1), Packed(st.lanes, inp)[q], PacksOf(cfg, st, inp)[q])
  {
    PacksDisjoint(net, cfg, st, inp, k, q);
    HalfwayNext(net, cfg, st, inp, k);
    hide Inv, PacksFit, Halfway, Packed, PackServed, Mixed, PackedDev, Waits, Settle;
    var order, packs := Packed(st.lanes, inp), PacksOf(cfg, st, inp);
    var d := Mixed(st.dev, PackedDev(net, cfg, st.dev, packs, |packs|), packs, k + 1);
    hide PacksOf;
    SettleOther(Halfway(net, cfg, st, inp, k), order[k], packs[k], PackServed(net, cfg, st.dev, packs, k, d), true, order[q], packs[q]);
  }

  /** A pack's lane and cache are untouched until its turn. */
  lemma {:induction false} PackWaits(net: Network, cfg: Config, st: Sched, inp: ForestIn, k: nat, q: nat)
    requires Inv(net, cfg, st) && PacksFit(cfg, st, inp) && k <= q < |Packed(st.lanes, inp)|
    ensures Waits(Halfway(net, cfg, st, inp, k), Packed(st.lanes, inp)[q], PacksOf(cfg, st, inp)[q])
    decreases k
  {
    hide *;
    if k == 0 {
      WaitsAtFirst(net, cfg, st, inp, q);
    } else {
      PackWaits(net, cfg, st, inp, k - 1, q);
      PackWaits(net, cfg, st, inp, k - 1, k - 1);
      WaitsNext(net, cfg, st, inp, k - 1, q);
    }
  }

  lemma PassWaits(net: Network, cfg: Config, st: Sched, inp: ForestIn, k: nat)
    requires Inv(net, cfg, st) && PacksFit(cfg, st, inp) && k < |Packed(st.lanes, inp)|
    ensures Waits(PackedFirst(net, cfg, st, inp, k), Packed(st.lanes, inp)[k], PacksOf(cfg, st, inp)[k])
  {
    PackWaits(net, cfg, st, inp, k, k);
    hide Inv, PacksFit, Packed, PacksOf, PackedFirst, PackedDev, Mixed;
  }

  lemma PassStarts(net: Network, cfg: Config, st: Sched, inp: ForestIn)
    requires PacksFit(cfg, st, inp)
    ensures PackedFirst(net, cfg, st, inp, 0)
         == Progress(st.(dev := ForestVerify(net, cfg, st.dev, PacksOf(cfg, st, inp))), Falses(|st.lanes|))
  {
    hide Packed, PacksOf, ForestVerify;
  }

  /** When its turn comes, pack k is served like a lane of the state so far. */
  lemma PackTurn(net: Network, cfg: Config, st: Sched, inp: ForestIn, k: nat) returns (s: Served)
    requires Inv(net, cfg, st) && PacksFit(cfg, st, inp) && k < |Packed(st.lanes, inp)|
    ensures var h, i := Halfway(net, cfg, st, inp, k), Packed(st.lanes, inp)[k];
            && i < |h.st.lanes| == |h.over| && !h.over[i] && h.st.lanes[i].phys < |h.st.slots|
            && s.stream == ForestStream(net, cfg, st.dev, PacksOf(cfg, st, inp)[k])
            && ServedOk(net, cfg, h.st.dev, h.st.lanes[i], h.st.slots[h.st.lanes[i].phys].cache, s)
            && Counts(h.st.lanes[i], s) && Halfway(net, cfg, st, inp, k + 1) == Settle(h, i, s, true)
  {
    var packs := PacksOf(cfg, st, inp);
    PackWaits(net, cfg, st, inp, k, k);
    HalfwayNext(net, cfg, st, inp, k);
    PacksReady(net, cfg, st, inp);
    PackServedOk(net, cfg, st.dev, packs, k);
    s := PackServed(net, cfg, st.dev, packs, k, Mixed(st.dev, PackedDev(net, cfg, st.dev, packs, |packs|), packs, k + 1));
    hide Inv, PacksFit, Packed, PacksOf, Mixed, PackedDev, ServedOk, Counts, Settle, ForestStream, AcceptedOf, PackedFirst;
  }

  /** Before any lane is served. */
  lemma StepOpens(net: Network, cfg: Config, st: Sched)
    requires Inv(net, cfg, st)
    ensures MidStep(net, cfg, Progress(st, Falses(|st.lanes|)))
  {
    hide Fold, Live, SlotOk, CursorOk, Owned;
  }

  lemma {:induction false} HalfwayKeeps(net: Network, cfg: Config, st: Sched, inp: ForestIn, k: nat)
    requires Inv(net, cfg, st) && PacksFit(cfg, st, inp) && 0 < |Packed(st.lanes, inp)| && k <= |Packed(st.lanes, inp)|
    ensures MidStep(net, cfg, Halfway(net, cfg, st, inp, k))
    decreases k
  {
    hide *;
    if k == 0 {
      WaitsAtFirst(net, cfg, st, inp, 0);
      StepOpens(net, cfg, st);
    } else {
      HalfwayKeeps(net, cfg, st, inp, k - 1);
      var s := PackTurn(net, cfg, st, inp, k - 1);
      SettleKeeps(net, cfg, Halfway(net, cfg, st, inp, k - 1), Packed(st.lanes, inp)[k - 1], s, true);
    }
  }

  lemma PassIsHalfway(net: Network, cfg: Config, st: Sched, inp: ForestIn)
    requires PacksFit(cfg, st, inp) && 0 < |Packed(st.lanes, inp)|
    ensures Halfway(net, cfg, st, inp, |Packed(st.lanes, inp)|) == PackedPass(net, cfg, st, inp)
  {
    var n, packs := |Packed(st.lanes, inp)|, PacksOf(cfg, st, inp);
    hide Packed, PacksFit, PackedFirst, PackedDev, PacksOf, Mixed;
    MixedEnds(st.dev, PackedDev(net, cfg, st.dev, packs, n), packs);
    PackedFirstDev(net, cfg, st, inp);
  }

  /** The packed pass leaves every lane and slot as serving its lanes one by one would. */
  lemma PackedKeeps(net: Network, cfg: Config, st: Sched, inp: ForestIn)
    requires Inv(net, cfg, st) && PacksFit(cfg, st, inp)
    ensures MidStep(net, cfg, PackedPass(net, cfg, st, inp))
  {
    var n := |Packed(st.lanes, inp)|;
    hide Inv, MidStep, Packed, PacksFit, Halfway;
    if n == 0 {
      StepOpens(net, cfg, st);
    } else {
      hide PackedPass;
      HalfwayKeeps(net, cfg, st, inp, n);
      PassIsHalfway(net, cfg, st, inp);
    }
  }

  lemma PackedFirstDev(net: Network, cfg: Config, st: Sched, inp: ForestIn)
    requires PacksFit(cfg, st, inp) && 0 < |Packed(st.lanes, inp)|
    ensures var n := |Packed(st.lanes, inp)|;
            PackedFirst(net, cfg, st, inp, n).st.dev == PackedDev(net, cfg, st.dev, PacksOf(cfg, st, inp), n)
  {
    hide PackedDev, PacksOf, Packed;
  }

  // ------------------------------------------------------------------ the whole step

  /** The lane served next, as the served-lane lemmas see it. */
  lemma NextTurn(net: Network, cfg: Config, p: Progress, inp: ForestIn, i: nat) returns (r: Served)
    requires MidStep(net, cfg, p) && |p.over| == |p.st.lanes| && FitsAt(cfg, p.st, inp, i) && !p.over[i]
    ensures var l, spec := p.st.lanes[i], SpecAt(p.st, inp, i);
            && (spec ==> l.primed && LegalDraft(cfg, l.req, inp.drafts(i)))
            && LaneOk(net, cfg, p.st.dev, l, p.st.slots[l.phys].cache)
            && Ready(net, cfg, p.st.dev, l, p.st.slots[l.phys].cache, Rows(spec))
            && r == Serve(net, cfg, p.st.dev, l, p.st.slots[l.phys].cache, spec, inp.drafts(i), inp.draws(i))
            && ServedOk(net, cfg, p.st.dev, l, p.st.slots[l.phys].cache, r) && Counts(l, r)
            && ServeAt(net, cfg, p, inp, i) == Settle(p, i, r, spec)
  {
    var l, spec := p.st.lanes[i], SpecAt(p.st, inp, i);
    var cache := p.st.slots[l.phys].cache;
    assert LaneOk(net, cfg, p.st.dev, l, cache);
    hide MidStep, LegalDraft, Serve, Counts, ServedOk, Settle, ShapeOk;
    LaneReady(net, cfg, p.st, l, spec);
    ServeOk(net, cfg, p.st.dev, l, cache, spec, inp.drafts(i), inp.draws(i));
    ServeCounts(net, cfg, p.st.dev, l, cache, spec, inp.drafts(i), inp.draws(i));
    r := Serve(net, cfg, p.st.dev, l, cache, spec, inp.drafts(i), inp.draws(i));
  }

  lemma TurnKeeps(net: Network, cfg: Config, p: Progress, inp: ForestIn, i: nat)
    requires MidStep(net, cfg, p) && |p.over| == |p.st.lanes| && FitsAt(cfg, p.st, inp, i) && !p.over[i]
    ensures ShapeOk(cfg, p.st) && MidStep(net, cfg, ServeAt(net, cfg, p, inp, i))
  {
    var r := NextTurn(net, cfg, p, inp, i);
    hide LaneOk, Ready, ServedOk, Counts, Serve, LegalDraft, StandingOk, SlotsOk, Owned, CursorOk, Settle;
    SettleKeeps(net, cfg, p, i, r, SpecAt(p.st, inp, i));
  }

  lemma EachNone(net: Network, cfg: Config, p: Progress, inp: ForestIn, order: seq<nat>)
    requires EachFits(cfg, p, inp, order)
    ensures ServeEach(net, cfg, p, inp, order, 0) == p
  {
  }

  lemma EachUnroll(net: Network, cfg: Config, p: Progress, inp: ForestIn, order: seq<nat>, n: nat) returns (q: Progress)
    requires EachFits(cfg, p, inp, order) && 0 < n <= |order|
    requires forall k :: 0 <= k < |order| ==> order[k] < |p.over| && !p.over[order[k]]
    ensures q == ServeEach(net, cfg, p, inp, order, n - 1) && |q.over| == |q.st.lanes|
    ensures ShapeOk(cfg, q.st) && FitsAt(cfg, q.st, inp, order[n - 1]) && !q.over[order[n - 1]]
    ensures q.st.lanes[order[n - 1]] == p.st.lanes[order[n - 1]]
    ensures ServeEach(net, cfg, p, inp, order, n) == ServeAt(net, cfg, q, inp, order[n - 1])
  {
    hide ShapeOk, FitsAt, ServeAt;
    q := ServeEach(net, cfg, p, inp, order, n - 1);
    StillFits(cfg, p, q, inp, order, n - 1);
  }

  lemma {:induction false} EachKeeps(net: Network, cfg: Config, p: Progress, inp: ForestIn, order: seq<nat>, n: nat)
    requires MidStep(net, cfg, p) && EachFits(cfg, p, inp, order) && n <= |order|
    requires forall k :: 0 <= k < |order| ==> order[k] < |p.over| && !p.over[order[k]]
    ensures MidStep(net, cfg, ServeEach(net, cfg, p, inp, order, n))
    decreases n
  {
    hide *;
    if n == 0 {
      EachNone(net, cfg, p, inp, order);
    } else {
      EachKeeps(net, cfg, p, inp, order, n - 1);
      var q := EachUnroll(net, cfg, p, inp, order, n);
      TurnKeeps(net, cfg, q, inp, order[n - 1]);
    }
  }

  /** Room for the packed lanes and for every lane served alone. */
  predicate ForestOk(cfg: Config, st: Sched, inp: ForestIn) {
    && PacksFit(cfg, st, inp)
    && forall k :: 0 <= k < |Singles(st.lanes, inp)| ==> FitsAt(cfg, st, inp, Singles(st.lanes, inp)[k])
  }

  /** One pack's turn in the pass. */
  lemma PackedNext(net: Network, cfg: Config, st: Sched, inp: ForestIn, k: nat)
    requires PacksFit(cfg, st, inp) && k < |Packed(st.lanes, inp)|
    ensures var p, j, packs := PackedFirst(net, cfg, st, inp, k), Packed(st.lanes, inp)[k], PacksOf(cfg, st, inp);
            && j < |p.st.lanes| == |p.over| && p.st.lanes[j].phys < |p.st.slots|
            && p.st.dev == PackedDev(net, cfg, st.dev, packs, k)
            && PackedFirst(net, cfg, st, inp, k + 1)
                 == Settle(p, j, PackServed(net, cfg, st.dev, packs, k, PackedDev(net, cfg, st.dev, packs, k + 1)), true)
  {
    PackSlot(cfg, st, inp, k);
    hide PackedDev, PackServed, Packed, PacksOf, PacksFit, Settle;
  }

  lemma PackedUnroll(net: Network, cfg: Config, st: Sched, inp: ForestIn, k: nat) returns (r: Served)
    requires PacksFit(cfg, st, inp) && 0 < k <= |Packed(st.lanes, inp)|
    ensures var p, j := PackedFirst(net, cfg, st, inp, k - 1), Packed(st.lanes, inp)[k - 1];
            && j < |p.st.lanes| == |p.over| && p.st.lanes[j].phys < |p.st.slots|
            && PackedFirst(net, cfg, st, inp, k) == Settle(p, j, r, true)
  {
    hide PackTaken, Packed, Settle, PacksFit;
    PackSlot(cfg, st, inp, k - 1);
    r := PackTaken(net, cfg, st, inp, k - 1);
  }

  /** The packed pass touches none of the lanes served after it. */
  lemma {:induction false} PassLeaves(net: Network, cfg: Config, st: Sched, inp: ForestIn, k: nat, i: nat)
    requires PacksFit(cfg, st, inp) && k <= |Packed(st.lanes, inp)| && i < |st.lanes| && i !in Packed(st.lanes, inp)
    ensures PackedFirst(net, cfg, st, inp, k).st.lanes[i] == st.lanes[i] && !PackedFirst(net, cfg, st, inp, k).over[i]
    decreases k
  {
    hide PackedDev, PackServed, PacksOf, Packed, Update, PacksFit;
    if k > 0 {
      hide PackedFirst;
      PassLeaves(net, cfg, st, inp, k - 1, i);
      var r := PackedUnroll(net, cfg, st, inp, k);
      assert Packed(st.lanes, inp)[k - 1] != i;
    }
  }

  lemma SinglesApart(lanes: seq<Lane>, inp: ForestIn)
    ensures var order, packed := Singles(lanes, inp), Packed(lanes, inp);
            Distinct(order) && forall k :: 0 <= k < |order| ==> order[k] < |lanes| && order[k] !in packed
  {
    ServedOnce(lanes, inp);
    var order, packed := Singles(lanes, inp), Packed(lanes, inp);
    var all := packed + order;
    hide Packed, Singles;
    forall a, b | 0 <= a < b < |order| ensures order[a] != order[b] {
      assert all[|packed| + a] == order[a] && all[|packed| + b] == order[b];
    }
    forall k | 0 <= k < |order| ensures order[k] < |lanes| && order[k] !in packed {
      assert all[|packed| + k] == order[k] && order[k] in all;
      forall a | 0 <= a < |packed| ensures packed[a] != order[k] { assert all[a] == packed[a]; }
    }
  }

  lemma SingleWaits(net: Network, cfg: Config, st: Sched, inp: ForestIn, i: nat)
    requires PacksFit(cfg, st, inp) && i < |st.lanes| && i !in Packed(st.lanes, inp)
    ensures var p := PackedPass(net, cfg, st, inp);
            && |p.over| == |p.st.lanes| == |st.lanes| && p.st.lanes[i] == st.lanes[i] && !p.over[i]
  {
    hide Packed, PackedFirst, PacksFit;
    if |Packed(st.lanes, inp)| > 0 {
      PassLeaves(net, cfg, st, inp, |Packed(st.lanes, inp)|, i);
    }
  }

  lemma SinglesFit(net: Network, cfg: Config, st: Sched, inp: ForestIn)
    requires Inv(net, cfg, st) && ForestOk(cfg, st, inp)
    ensures EachFits(cfg, PackedPass(net, cfg, st, inp), inp, Singles(st.lanes, inp))
    ensures var p, order := PackedPass(net, cfg, st, inp), Singles(st.lanes, inp);
            forall k :: 0 <= k < |order| ==> order[k] < |p.over| && !p.over[order[k]]
  {
    hide Inv, MidStep, Packed, Singles, PacksFit, LaneFits, UsesMtp, PackedPass, ShapeOk;
    PackedKeeps(net, cfg, st, inp);
    var p, order := PackedPass(net, cfg, st, inp), Singles(st.lanes, inp);
    SinglesApart(st.lanes, inp);
    MidShape(net, cfg, p);
    PassSizes(net, cfg, st, inp);
    forall k | 0 <= k < |order|
      ensures order[k] < |p.over| && !p.over[order[k]] && FitsAt(cfg, p.st, inp, order[k])
    {
      assert FitsAt(cfg, st, inp, order[k]);
      SingleWaits(net, cfg, st, inp, order[k]);
    }
  }

  lemma PassSizes(net: Network, cfg: Config, st: Sched, inp: ForestIn)
    requires PacksFit(cfg, st, inp)
    ensures |PackedPass(net, cfg, st, inp).over| == |PackedPass(net, cfg, st, inp).st.lanes| == |st.lanes|
  {
    hide PackedFirst, Packed;
  }

  lemma MidShape(net: Network, cfg: Config, p: Progress)
    requires MidStep(net, cfg, p)
    ensures ShapeOk(cfg, p.st)
  {
  }

  /** One step with packed lanes: the packed pass, the lanes left over, and compaction. */
  function ForestStep(net: Network, cfg: Config, st: Sched, inp: ForestIn): Sched
    requires ForestOk(cfg, st, inp) && EachFits(cfg, PackedPass(net, cfg, st, inp), inp, Singles(st.lanes, inp))
  {
    var order := Singles(st.lanes, inp);
    var p := ServeEach(net, cfg, PackedPass(net, cfg, st, inp), inp, order, |order|);
    Compacted(p.st, p.over)
  }

  /** Any mix of packed, chained, sampled and batched lanes keeps the invariant. */
  lemma ForestKeepsInv(net: Network, cfg: Config, st: Sched, inp: ForestIn)
    requires Inv(net, cfg, st) && ForestOk(cfg, st, inp)
    ensures EachFits(cfg, PackedPass(net, cfg, st, inp), inp, Singles(st.lanes, inp))
    ensures Inv(net, cfg, ForestStep(net, cfg, st, inp))
  {
    SinglesFit(net, cfg, st, inp);
    PackedKeeps(net, cfg, st, inp);
    var order := Singles(st.lanes, inp);
    hide Inv, MidStep, ForestOk, EachFits, PackedPass, ServeEach, Compacted, Singles;
    EachKeeps(net, cfg, PackedPass(net, cfg, st, inp), inp, order, |order|);
    CompactedKeepsInv(net, cfg, ServeEach(net, cfg, PackedPass(net, cfg, st, inp), inp, order, |order|));
  }

  /** What the step's own drafts must respect; the admission clamp supplies the room. */
  ghost predicate ForestLegal(cfg: Config, st: Sched, inp: ForestIn) {
    var packed, order := Packed(st.lanes, inp), Singles(st.lanes, inp);
    && Penalty.MAX_VERIFY <= cfg.checkpoints + 1
    && (packed != [] ==> inp.depth > 0)
    && (forall k :: 0 <= k < |packed| ==> |DraftsOf(inp.drafts(packed[k]))| + 1 == PackDepth(|packed|, inp.depth))
    && (forall k :: 0 <= k < |order| && order[k] < |st.lanes| && SpecAt(st, inp, order[k]) ==>
          LegalDraft(cfg, st.lanes[order[k]].req, inp.drafts(order[k])))
  }

  /** A step with packed lanes may always run: admission left every lane the room it needs. */
  lemma ForestAllowed(net: Network, cfg: Config, st: Sched, inp: ForestIn)
    requires Inv(net, cfg, st) && ForestLegal(cfg, st, inp)
    ensures ForestOk(cfg, st, inp)
  {
    var packed, order := Packed(st.lanes, inp), Singles(st.lanes, inp);
    SinglesApart(st.lanes, inp);
    PackedCount(st.lanes, inp);
    PackedRoles(st.lanes, inp);
    hide Packed, Singles, Live, SlotsOk, Owned, CursorOk, LegalDraft;
    forall k | 0 <= k < |packed| ensures PackFitsAt(cfg, st, inp, packed[k], |packed|) {
      var l := st.lanes[packed[k]];
      assert LaneOk(net, cfg, st.dev, l, st.slots[l.phys].cache);
    }
    forall k | 0 <= k < |order| ensures FitsAt(cfg, st, inp, order[k]) {
      var l := st.lanes[order[k]];
      assert LaneOk(net, cfg, st.dev, l, st.slots[l.phys].cache);
    }
  }

  lemma PackedRoles(lanes: seq<Lane>, inp: ForestIn)
    ensures forall k :: 0 <= k < |Packed(lanes, inp)| ==>
              Packed(lanes, inp)[k] < |lanes| && UsesMtp(lanes[Packed(lanes, inp)[k]], inp.active)
  {
    var forest := Chosen(lanes, |lanes|, inp.active, ByArgmax);
    assert forall k :: 0 <= k < |forest| ==> forest[k] in forest;
  }
}
