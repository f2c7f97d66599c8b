// The forest step: several greedy lanes' chains packed into one verify forward. Each lane must
// come out exactly as if it had been verified alone.

module Forest {
  import opened Wrappers
  import opened Trunk
  import opened Device
  import opened GreedyLane
  import opened Lossless
  import opened Slots
  import opened LaneSteps
  import Penalty

  const PACK_CAP: nat := 5

  /** One packed lane with its drafts. */
  datatype Pack = Pack(l: Lane, cache: seq<Token>, drafts: seq<Token>)

  function Fed(p: Pack): seq<Token> { [p.l.last] + p.drafts }

  /** First column of pack k: the columns of the packs before it. */
  function StartOf(packs: seq<Pack>, k: nat): nat
    requires k <= |packs|
  {
    if k == 0 then 0 else StartOf(packs, k - 1) + |packs[k - 1].drafts| + 1
  }

  /** The uniform per-lane depth of a pack of p lanes. */
  function PackDepth(p: nat, policyDepth: nat): nat
    requires p > 0 && policyDepth > 0
  {
    Min(Max(Monus(Penalty.MAX_VERIFY / p, 1), 1), policyDepth)
  }

  /** A capped pack at that depth never outgrows the verify width, whatever the policy wants. */
  lemma PackFits(p: nat, policyDepth: nat)
    requires 0 < p <= PACK_CAP && policyDepth > 0
    ensures p * PackDepth(p, policyDepth) <= Penalty.MAX_VERIFY - 1
  {
    if p == 1 { } else if p == 2 { } else if p == 3 { } else if p == 4 { } else { assert p == 5; }
  }

  lemma {:induction false} UniformStart(packs: seq<Pack>, n: nat, k: nat)
    requires k <= |packs| && forall i :: 0 <= i < |packs| ==> |packs[i].drafts| + 1 == n
    ensures StartOf(packs, k) == k * n
  {
    if k > 0 {
      UniformStart(packs, n, k - 1);
    }
  }

  lemma {:induction false} StartGrows(packs: seq<Pack>, i: nat, k: nat)
    requires i < k <= |packs|
    ensures StartOf(packs, i) + |packs[i].drafts| + 1 <= StartOf(packs, k)
    decreases k
  {
    if i < k - 1 {
      StartGrows(packs, i, k - 1);
    }
  }

  // ------------------------------------------------------------------ the packed forward

  /** The allocator gives away all the columns it can: a lane gets the policy's depth, or two more
      columns each would not fit. */
  lemma PackUsesWidth(p: nat, policyDepth: nat)
    requires 0 < p <= Penalty.MAX_VERIFY && policyDepth > 0
    ensures PackDepth(p, policyDepth) == policyDepth || (PackDepth(p, policyDepth) + 2) * p > Penalty.MAX_VERIFY
  {
    var q := Penalty.MAX_VERIFY / p;
    assert Penalty.MAX_VERIFY < (q + 1) * p;
    var d := Max(Monus(q, 1), 1);
    assert d + 2 >= q + 1;
    MulLe(q + 1, d + 2, p);
  }

  lemma MulLe(a: nat, b: nat, c: nat)
    requires a <= b
    ensures a * c <= b * c
  {
  }

  ghost predicate PacksOk(net: Network, cfg: Config, d: Dev, packs: seq<Pack>) {
    && packs != [] && StartOf(packs, |packs|) <= cfg.checkpoints + 1
    && (forall k :: 0 <= k < |packs| ==> Ready(net, cfg, d, packs[k].l, packs[k].cache, |packs[k].drafts| + 1))
    && (forall i, k :: 0 <= i < k < |packs| ==> packs[i].l.phys != packs[k].l.phys)
  }

  /** Memory after column r of a pack; every pack attends to its own slot as it was. */
  function ColumnMem(net: Network, d: Dev, p: Pack, r: nat): Mem
    requires InPlane(d, p.l.phys, p.l.pos) && r <= |p.drafts|
  {
    NodeMem(net, MemAt(d, p.l.phys, p.l.pos), ChainParent(|p.drafts| + 1), Fed(p), r)
  }

  /** What cell i holds after the forward, looking at the first k packs. */
  function CellAfter(net: Network, cfg: Config, d: Dev, packs: seq<Pack>, k: nat, i: nat): Gdn
    requires k <= |packs| && i < |d.cells|
    requires forall q :: 0 <= q < |packs| ==> InPlane(d, packs[q].l.phys, packs[q].l.pos)
  {
    if k == 0 then d.cells[i]
    else
      var p, at := packs[k - 1], VerifyCell(cfg) + StartOf(packs, k - 1);
      if i == p.l.phys then ColumnMem(net, d, p, |p.drafts|).gdn
      else if at <= i <= at + |p.drafts| && i + 1 < VerifyCell(cfg) + StartOf(packs, |packs|)
      then ColumnMem(net, d, p, i - at).gdn
      else CellAfter(net, cfg, d, packs, k - 1, i)
  }

  function RowsAfter(net: Network, d: Dev, packs: seq<Pack>, k: nat, s: nat): (r: seq<Row>)
    requires k <= |packs| && s < |d.kv|
    requires forall q :: 0 <= q < |packs| ==> InPlane(d, packs[q].l.phys, packs[q].l.pos)
    ensures |r| == |d.kv[s]|
  {
    if k == 0 then d.kv[s]
    else
      var p := packs[k - 1];
      if s == p.l.phys then
        seq(|d.kv[s]|, i requires 0 <= i < |d.kv[s]| =>
          if p.l.pos <= i <= p.l.pos + |p.drafts| then LastRow(ColumnMem(net, d, p, i - p.l.pos)) else d.kv[s][i])
      else RowsAfter(net, d, packs, k - 1, s)
  }

  function ForestVerify(net: Network, cfg: Config, d: Dev, packs: seq<Pack>): (r: Dev)
    requires forall q :: 0 <= q < |packs| ==> InPlane(d, packs[q].l.phys, packs[q].l.pos)
    ensures SameDims(d, r)
  {
    Dev(seq(|d.cells|, i requires 0 <= i < |d.cells| => CellAfter(net, cfg, d, packs, |packs|, i)),
        seq(|d.kv|, s requires 0 <= s < |d.kv| => RowsAfter(net, d, packs, |packs|, s)))
  }

  /** Wind every partly rejected lane back to its own last accepted column. */
  function RollBack(cfg: Config, d: Dev, packs: seq<Pack>, accepted: seq<nat>, k: nat): (r: Dev)
    requires k <= |packs| == |accepted|
    ensures |r.cells| == |d.cells| && r.kv == d.kv
  {
    if k == 0 then d
    else
      var before := RollBack(cfg, d, packs, accepted, k - 1);
      var p, from := packs[k - 1], VerifyCell(cfg) + StartOf(packs, k - 1) + accepted[k - 1];
      if accepted[k - 1] != |p.drafts| && from < |d.cells| && p.l.phys < |d.cells| then CopyCell(before, from, p.l.phys) else before
  }

  // ------------------------------------------------------------------ isolation

  lemma {:induction false} LiveCell(net: Network, cfg: Config, d: Dev, packs: seq<Pack>, n: nat, k: nat)
    requires PacksOk(net, cfg, d, packs) && k < n <= |packs|
    ensures packs[k].l.phys < |d.cells|
    ensures CellAfter(net, cfg, d, packs, n, packs[k].l.phys) == ColumnMem(net, d, packs[k], |packs[k].drafts|).gdn
    decreases n
  {
    assert Ready(net, cfg, d, packs[k].l, packs[k].cache, |packs[k].drafts| + 1);
    hide Live, ColumnMem;
    if k < n - 1 {
      LiveCell(net, cfg, d, packs, n - 1, k);
      assert packs[k].l.phys != packs[n - 1].l.phys;
    }
  }

  /** Where pack k sits: its slot is a live cell, its columns are in the checkpoint band. */
  lemma PackPlace(net: Network, cfg: Config, d: Dev, packs: seq<Pack>, k: nat)
    requires PacksOk(net, cfg, d, packs) && k < |packs|
    ensures packs[k].l.phys < cfg.maxBatch && cfg.maxBatch + cfg.checkpoints <= |d.cells|
    ensures StartOf(packs, k) + |packs[k].drafts| + 1 <= StartOf(packs, |packs|) <= cfg.checkpoints + 1
    ensures InPlane(d, packs[k].l.phys, packs[k].l.pos) && packs[k].l.phys < |d.kv|
  {
    assert Ready(net, cfg, d, packs[k].l, packs[k].cache, |packs[k].drafts| + 1);
    StartGrows(packs, k, |packs|);
    hide Live;
  }

  lemma PacksApart(net: Network, cfg: Config, d: Dev, packs: seq<Pack>, i: nat, k: nat)
    requires PacksOk(net, cfg, d, packs) && i < |packs| && k < |packs| && i != k
    ensures packs[i].l.phys != packs[k].l.phys
  {
  }

  lemma PlanesReady(net: Network, cfg: Config, d: Dev, packs: seq<Pack>)
    requires PacksOk(net, cfg, d, packs)
    ensures forall q :: 0 <= q < |packs| ==> InPlane(d, packs[q].l.phys, packs[q].l.pos)
  {
    forall q | 0 <= q < |packs| ensures InPlane(d, packs[q].l.phys, packs[q].l.pos) { PackPlace(net, cfg, d, packs, q); }
  }

  lemma {:induction false} CheckpointCell(net: Network, cfg: Config, d: Dev, packs: seq<Pack>, n: nat, k: nat, r: nat)
    requires PacksOk(net, cfg, d, packs) && k < n <= |packs| && r < |packs[k].drafts|
    ensures VerifyCell(cfg) + StartOf(packs, k) + r < |d.cells|
    ensures CellAfter(net, cfg, d, packs, n, VerifyCell(cfg) + StartOf(packs, k) + r) == ColumnMem(net, d, packs[k], r).gdn
    decreases n
  {
    hide PacksOk, ColumnMem, InPlane, StartOf;
    PlanesReady(net, cfg, d, packs);
    PackPlace(net, cfg, d, packs, k);
    PackPlace(net, cfg, d, packs, n - 1);
    var i := VerifyCell(cfg) + StartOf(packs, k) + r;
    if k < n - 1 {
      StartGrows(packs, k, n - 1);
      CheckpointCell(net, cfg, d, packs, n - 1, k, r);
      assert i < VerifyCell(cfg) + StartOf(packs, n - 1);
    } else {
      assert i + 1 < VerifyCell(cfg) + StartOf(packs, |packs|);
    }
  }

  lemma {:induction false} OwnRows(net: Network, cfg: Config, d: Dev, packs: seq<Pack>, n: nat, k: nat)
    requires PacksOk(net, cfg, d, packs) && k < n <= |packs|
    ensures packs[k].l.phys < |d.kv|
    ensures var p := packs[k];
            var rows := RowsAfter(net, d, packs, n, p.l.phys);
            && |rows| == |d.kv[p.l.phys]|
            && forall i :: 0 <= i < |rows| ==>
                 rows[i] == if p.l.pos <= i <= p.l.pos + |p.drafts| then LastRow(ColumnMem(net, d, p, i - p.l.pos)) else d.kv[p.l.phys][i]
    decreases n
  {
    hide Live, ColumnMem, LastRow;
    assert Ready(net, cfg, d, packs[k].l, packs[k].cache, |packs[k].drafts| + 1);
    if k < n - 1 {
      OwnRows(net, cfg, d, packs, n - 1, k);
      assert packs[k].l.phys != packs[n - 1].l.phys;
    }
  }

  /** Rolling lanes back leaves the checkpoint band alone. */
  lemma {:induction false} BandKept(net: Network, cfg: Config, d: Dev, d0: Dev, packs: seq<Pack>, accepted: seq<nat>, n: nat, i: nat)
    requires PacksOk(net, cfg, d0, packs) && n <= |packs| == |accepted| && cfg.maxBatch <= i < |d.cells|
    ensures RollBack(cfg, d, packs, accepted, n).cells[i] == d.cells[i]
    decreases n
  {
    if n > 0 {
      BandKept(net, cfg, d, d0, packs, accepted, n - 1, i);
      PackPlace(net, cfg, d0, packs, n - 1);
      hide PacksOk;
    }
  }

  /** And it only writes each lane's own cell. */
  lemma {:induction false} RolledCell(net: Network, cfg: Config, d: Dev, d0: Dev, packs: seq<Pack>, accepted: seq<nat>, n: nat, k: nat)
    requires PacksOk(net, cfg, d0, packs) && n <= |packs| == |accepted| && k < |packs| && |d.cells| == |d0.cells|
    requires accepted[k] <= |packs[k].drafts|
    ensures packs[k].l.phys < |d.cells|
    ensures accepted[k] < |packs[k].drafts| ==> VerifyCell(cfg) + StartOf(packs, k) + accepted[k] < |d.cells|
    ensures RollBack(cfg, d, packs, accepted, n).cells[packs[k].l.phys]
         == if k < n && accepted[k] < |packs[k].drafts| then d.cells[VerifyCell(cfg) + StartOf(packs, k) + accepted[k]]
            else d.cells[packs[k].l.phys]
    decreases n
  {
    hide PacksOk, InPlane, StartOf;
    PackPlace(net, cfg, d0, packs, k);
    if n > 0 {
      RolledCell(net, cfg, d, d0, packs, accepted, n - 1, k);
      if k == n - 1 {
        if accepted[k] < |packs[k].drafts| {
          BandKept(net, cfg, d, d0, packs, accepted, n - 1, VerifyCell(cfg) + StartOf(packs, k) + accepted[k]);
        }
      } else {
        PacksApart(net, cfg, d0, packs, k, n - 1);
      }
    }
  }

  /** Cells outside the packed lanes and the verify band, and planes of other slots, are untouched. */
  lemma {:induction false} ForestFrame(net: Network, cfg: Config, d: Dev, packs: seq<Pack>, n: nat, i: nat)
    requires PacksOk(net, cfg, d, packs) && n <= |packs|
    requires forall k :: 0 <= k < |packs| ==> packs[k].l.phys != i
    ensures forall q :: 0 <= q < |packs| ==> InPlane(d, packs[q].l.phys, packs[q].l.pos)
    ensures i < |d.cells| && !(cfg.maxBatch <= i < cfg.maxBatch + cfg.checkpoints) ==> CellAfter(net, cfg, d, packs, n, i) == d.cells[i]
    ensures i < |d.kv| ==> RowsAfter(net, d, packs, n, i) == d.kv[i]
    decreases n
  {
    PlanesReady(net, cfg, d, packs);
    if n > 0 {
      ForestFrame(net, cfg, d, packs, n - 1, i);
      PackPlace(net, cfg, d, packs, n - 1);
      hide PacksOk, InPlane, ColumnMem;
    }
  }

  /** Each packed lane's cell is rolled back to its own last accepted column. */
  lemma PackedCell(net: Network, cfg: Config, d: Dev, packs: seq<Pack>, accepted: seq<nat>, k: nat)
    requires PacksOk(net, cfg, d, packs) && |packs| == |accepted| && k < |packs|
    requires forall i :: 0 <= i < |packs| ==> accepted[i] <= |packs[i].drafts|
    ensures forall q :: 0 <= q < |packs| ==> InPlane(d, packs[q].l.phys, packs[q].l.pos)
    ensures packs[k].l.phys < |d.cells|
    ensures RollBack(cfg, ForestVerify(net, cfg, d, packs), packs, accepted, |packs|).cells[packs[k].l.phys]
         == ColumnMem(net, d, packs[k], accepted[k]).gdn
  {
    hide PacksOk, ColumnMem, RollBack, CellAfter, RowsAfter, StartOf, InPlane;
    var p, n := packs[k], accepted[k];
    PlanesReady(net, cfg, d, packs);
    var v := ForestVerify(net, cfg, d, packs);
    RolledCell(net, cfg, v, d, packs, accepted, |packs|, k);
    LiveCell(net, cfg, d, packs, |packs|, k);
    if n < |p.drafts| {
      CheckpointCell(net, cfg, d, packs, |packs|, k, n);
    }
  }

  /** Every packed lane's slot ends exactly after its own accepted prefix. */
  lemma PackedLaneOk(net: Network, cfg: Config, d: Dev, packs: seq<Pack>, accepted: seq<nat>, k: nat)
    requires PacksOk(net, cfg, d, packs) && |packs| == |accepted| && k < |packs|
    requires forall i :: 0 <= i < |packs| ==> accepted[i] <= |packs[i].drafts|
    ensures forall q :: 0 <= q < |packs| ==> InPlane(d, packs[q].l.phys, packs[q].l.pos)
    ensures var p := packs[k];
            Live(net, RollBack(cfg, ForestVerify(net, cfg, d, packs), packs, accepted, |packs|), p.l.phys,
                 p.cache + Fed(p)[..accepted[k] + 1])
  {
    var p, n := packs[k], accepted[k];
    PlanesReady(net, cfg, d, packs);
    var r := RollBack(cfg, ForestVerify(net, cfg, d, packs), packs, accepted, |packs|);
    assert Ready(net, cfg, d, p.l, p.cache, |p.drafts| + 1);
    PackedCell(net, cfg, d, packs, accepted, k);
    OwnRows(net, cfg, d, packs, |packs|, k);
    hide PacksOk, ColumnMem, RollBack, CellAfter, RowsAfter, StartOf, Live;
    LaneEnds(net, cfg, d, p, n, r);
  }

  lemma LaneEnds(net: Network, cfg: Config, d: Dev, p: Pack, n: nat, r: Dev)
    requires Ready(net, cfg, d, p.l, p.cache, |p.drafts| + 1) && n <= |p.drafts|
    requires |r.cells| == |d.cells| && |r.kv| == |d.kv| && |r.kv[p.l.phys]| == |d.kv[p.l.phys]|
    requires r.cells[p.l.phys] == ColumnMem(net, d, p, n).gdn
    requires forall i :: 0 <= i < |r.kv[p.l.phys]| ==>
               r.kv[p.l.phys][i] == if p.l.pos <= i <= p.l.pos + |p.drafts| then LastRow(ColumnMem(net, d, p, i - p.l.pos))
                                    else d.kv[p.l.phys][i]
    ensures Live(net, r, p.l.phys, p.cache + Fed(p)[..n + 1])
  {
    hide FeedAll, Fold, NodeMem, FirstColumns;
    var m, fed, path := MemAt(d, p.l.phys, p.l.pos), Fed(p), FirstColumns(n + 1);
    ChainPath(|fed|, n + 1);
    PathMem(net, m, ChainParent(|fed|), fed, path);
    assert PathTokens(fed, path) == fed[..n + 1];
    FoldAppend(net, p.cache, fed[..n + 1]);
    assert r.kv[p.l.phys][..p.l.pos + n + 1] == ColumnMem(net, d, p, n).rows;
  }

  // ------------------------------------------------------------------ what each lane emits

  /** Forest columns all carry the lane's history as it stood, and no vocabulary mask. */
  function ForestPreds(net: Network, d: Dev, p: Pack): (r: seq<Token>)
    requires InPlane(d, p.l.phys, p.l.pos)
    ensures |r| == |p.drafts| + 1
  {
    seq(|p.drafts| + 1, j requires 0 <= j <= |p.drafts| => ForestPred(net, d, p, j))
  }

  function ForestPred(net: Network, d: Dev, p: Pack, j: nat): Token
    requires InPlane(d, p.l.phys, p.l.pos) && j <= |p.drafts|
  {
    net.pick(ColumnMem(net, d, p, j), Penalties(p.l.req, Penalty.DecodeTable(p.l.history)), None)
  }

  /** The packed step neither masks nor advances a schema. */
  function ForestStream(net: Network, cfg: Config, d: Dev, p: Pack): Stream
    requires InPlane(d, p.l.phys, p.l.pos)
  {
    var preds := ForestPreds(net, d, p);
    var nacc := AcceptLen(preds, p.drafts);
    Commit(cfg.eos, Unmasked(p.l.req), View(p.l, p.cache, false), p.drafts[..nacc], preds[nacc])
  }

  lemma {:induction false} ValidWithoutSchema(req: Request, st: nat, drafts: seq<Token>)
    requires req.schema.None?
    ensures ValidLen(req, st, drafts) == |drafts|
  {
  }

  /** An unconstrained packed lane takes the very step it would take alone. */
  lemma PackedIsChain(net: Network, cfg: Config, d: Dev, p: Pack)
    requires Ready(net, cfg, d, p.l, p.cache, |p.drafts| + 1) && |p.drafts| <= cfg.checkpoints
    requires !p.l.req.penalized && p.l.req.schema.None?
    ensures ForestStream(net, cfg, d, p) == ChainStep(net, cfg, d, p.l, p.cache, p.drafts).stream
  {
    var m := MemAt(d, p.l.phys, p.l.pos);
    forall j | 0 <= j <= |p.drafts| ensures ForestPreds(net, d, p)[j] == ChainPreds(net, m, p.l, p.drafts)[j] {
    }
    assert ForestPreds(net, d, p) == ChainPreds(net, m, p.l, p.drafts);
    assert Unmasked(p.l.req) == p.l.req;
    ValidWithoutSchema(p.l.req, p.l.schemaState, p.drafts);
    hide ForestPreds, ChainPreds, Commit, ChainDevice;
  }

  /** One packed forward advances every unconstrained lane by whole plain decode steps. */
  lemma ForestIsPlain(net: Network, cfg: Config, d: Dev, packs: seq<Pack>, k: nat) returns (n: nat)
    requires PacksOk(net, cfg, d, packs) && k < |packs| && |packs[k].drafts| < Penalty.MAX_VERIFY
    requires packs[k].l.generated < packs[k].l.req.maxNew
    requires !packs[k].l.req.penalized && packs[k].l.req.schema.None?
    ensures InPlane(d, packs[k].l.phys, packs[k].l.pos) && n > 0
    ensures SameLane(ForestStream(net, cfg, d, packs[k]),
                     Decodes(net, cfg.eos, packs[k].l.req, View(packs[k].l, packs[k].cache, false), n))
  {
    var p := packs[k];
    var s := View(p.l, p.cache, false);
    assert Ready(net, cfg, d, p.l, p.cache, |p.drafts| + 1);
    StartGrows(packs, k, |packs|);
    PackedIsChain(net, cfg, d, p);
    ChainStepOk(net, cfg, d, p.l, p.cache, p.drafts);
    hide ForestStream, ChainStep, ServedOk, Chain, NewTokens, QuietUntilLast, Decodes, SameLane, Live;
    NoSchemaIsQuiet(p.l.req, s.schemaState, NewTokens(net, cfg.eos, p.l.req, s, p.drafts));
    ChainIsPlain(net, cfg.eos, p.l.req, s, p.drafts);
    n := |NewTokens(net, cfg.eos, p.l.req, s, p.drafts)|;
  }
}
