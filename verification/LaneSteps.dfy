// One decode step of one lane on the device: the batched single-token step, the greedy chain
// and tree steps, and the sampled chain step; and what each leaves in the lane and its slot.

module LaneSteps {
  import opened Wrappers
  import opened Trunk
  import opened Device
  import opened GreedyLane
  import opened Lossless
  import opened Slots
  import opened TreeWalk
  import Penalty

  /** What the drafter proposes for a speculating lane. A sampled lane also gets the outcome of
      its accept draws: how many drafts survived and the residual or bonus token. */
  datatype Draft =
    | ChainDraft(drafts: seq<Token>, accepted: nat, tail: Token)
    | TreeDraft(parent: seq<int>, nodes: seq<Token>)

  /** A verify is at most as wide as the checkpoint band: the deepest chain, a whole drafted block,
      or a tree, which only greedy lanes take. */
  predicate LegalDraft(cfg: Config, req: Request, dr: Draft) {
    match dr
    case ChainDraft(drafts, accepted, _) =>
      |drafts| < Penalty.MAX_VERIFY && |drafts| <= cfg.checkpoints && accepted <= |drafts|
    case TreeDraft(parent, nodes) =>
      && IsTree(parent) && |nodes| + 1 == |parent| <= Penalty.MAX_VERIFY && |parent| <= cfg.checkpoints + 1
      && req.greedy
  }

  datatype Served = Served(stream: Stream, pos: nat, dev: Dev)

  /** Room for the widest verify of a speculating lane, or for the one row of a plain step. */
  predicate Fits(d: Dev, cfg: Config, p: nat, pos: nat, rows: nat) {
    && p < cfg.maxBatch && |d.cells| == CellCount(cfg) && cfg.maxBatch <= |d.kv|
    && pos + rows <= |d.kv[p]|
  }

  // ------------------------------------------------------------------ the batched step

  /** The token a batched step selects: the device argmax, or the sampler's draw. */
  function PlainToken(net: Network, d1: Dev, l: Lane, draw: Token): Token
    requires InPlane(d1, l.phys, l.pos + 1)
  {
    if !l.req.greedy then draw
    else net.pick(MemAt(d1, l.phys, l.pos + 1),
                  Penalties(l.req, Penalty.DecodeTable(l.history)), Mask(l.req, l.schemaState))
  }

  function PlainStep(net: Network, cfg: Config, d: Dev, l: Lane, cache: seq<Token>, draw: Token): (r: Served)
    requires Fits(d, cfg, l.phys, l.pos, 1)
    ensures SameDims(d, r.dev)
  {
    var d1 := Consume(net, d, l.phys, l.pos, [l.last]);
    Served(Take(cfg.eos, l.req, View(l, cache, false), PlainToken(net, d1, l, draw)), l.pos + 1, d1)
  }

  // ------------------------------------------------------------------ the chain step

  /** The choice the device reports for column `j` of a chain of drafts. */
  function ChainPred(net: Network, m: Mem, l: Lane, drafts: seq<Token>, j: nat): Token
    requires j <= |drafts|
  {
    net.pick(NodeMem(net, m, ChainParent(|drafts| + 1), [l.last] + drafts, j),
             Penalties(l.req, Penalty.Column(l.history, drafts, j)),
             ColumnMask(l.req, l.schemaState, drafts, j))
  }

  function ChainPreds(net: Network, m: Mem, l: Lane, drafts: seq<Token>): (p: seq<Token>)
    ensures |p| == |drafts| + 1
  {
    seq(|drafts| + 1, j requires 0 <= j <= |drafts| => ChainPred(net, m, l, drafts, j))
  }

  /** Verify a chain, then wind the recurrent state back to the last accepted column. */
  function ChainDevice(net: Network, cfg: Config, d: Dev, p: nat, pos: nat, fed: seq<Token>, accepted: nat): (r: Dev)
    requires Fits(d, cfg, p, pos, |fed|) && accepted < |fed| <= cfg.checkpoints + 1
    ensures SameDims(d, r)
  {
    var v := Verify(net, d, p, pos, ChainParent(|fed|), fed, VerifyCell(cfg));
    if accepted + 1 != |fed| then CopyCell(v, VerifyCell(cfg) + accepted, p) else v
  }

  function PosAfter(l: Lane, s: Stream, accepted: nat): nat {
    if !s.finished then l.pos + accepted + 1 else l.pos + Monus(s.generated, l.generated)
  }

  function ChainStep(net: Network, cfg: Config, d: Dev, l: Lane, cache: seq<Token>, drafts: seq<Token>): (r: Served)
    requires |drafts| <= cfg.checkpoints && Fits(d, cfg, l.phys, l.pos, |drafts| + 1)
    ensures SameDims(d, r.dev)
  {
    var preds := ChainPreds(net, MemAt(d, l.phys, l.pos), l, drafts);
    var nacc := Min(AcceptLen(preds, drafts), ValidLen(l.req, l.schemaState, drafts));
    var s := Commit(cfg.eos, l.req, View(l, cache, false), drafts[..nacc], preds[nacc]);
    Served(s, PosAfter(l, s, nacc), ChainDevice(net, cfg, d, l.phys, l.pos, [l.last] + drafts, nacc))
  }

  /** The stream of a sampled step that kept the drafts `path` and then chose `tail`. */
  function SampledStream(cfg: Config, l: Lane, cache: seq<Token>, path: seq<Token>, tail: Token): Stream {
    var toks := Cut(cfg.eos, l.req, l.generated, path + [tail]);
    var g := l.generated + |toks|;
    Stream(cache + [l.last] + path,
           if toks == [] then l.last else toks[|toks| - 1],
           g, RememberAll(l.history, toks), l.schemaState, l.sent + toks,
           toks != [] && Stops(cfg.eos, l.req, g, toks[|toks| - 1]))
  }

  function SampledStep(net: Network, cfg: Config, d: Dev, l: Lane, cache: seq<Token>,
                       drafts: seq<Token>, accepted: nat, tail: Token): (r: Served)
    requires |drafts| <= cfg.checkpoints && accepted <= |drafts| && Fits(d, cfg, l.phys, l.pos, |drafts| + 1)
    ensures SameDims(d, r.dev)
  {
    var s := SampledStream(cfg, l, cache, drafts[..accepted], tail);
    Served(s, PosAfter(l, s, accepted), ChainDevice(net, cfg, d, l.phys, l.pos, [l.last] + drafts, accepted))
  }

  // ------------------------------------------------------------------ the tree step

  /** All tree columns share the lane's history as it stood before the step. */
  function NodePred(net: Network, m: Mem, l: Lane, parent: seq<int>, tokens: seq<Token>, c: nat): Token
    requires IsTree(parent) && |tokens| == |parent| && c < |parent|
  {
    net.pick(NodeMem(net, m, parent, tokens, c), Penalties(l.req, Penalty.DecodeTable(l.history)), None)
  }

  function NodePreds(net: Network, m: Mem, l: Lane, parent: seq<int>, tokens: seq<Token>): (p: seq<Token>)
    requires IsTree(parent) && |tokens| == |parent|
    ensures |p| == |parent|
  {
    seq(|parent|, c requires 0 <= c < |parent| => NodePred(net, m, l, parent, tokens, c))
  }

  /** No column is masked, and the schema's machine stays where it was. */
  function TreeStep(net: Network, cfg: Config, d: Dev, l: Lane, cache: seq<Token>, parent: seq<int>, nodes: seq<Token>): (r: Served)
    requires IsTree(parent) && |nodes| + 1 == |parent| <= cfg.checkpoints + 1
    requires Fits(d, cfg, l.phys, l.pos, |parent|)
    ensures SameDims(d, r.dev)
  {
    var tokens := [l.last] + nodes;
    var preds := NodePreds(net, MemAt(d, l.phys, l.pos), l, parent, tokens);
    var path := Walk(parent, tokens, preds, 0);
    WalkFromRoot(parent, tokens, preds);
    WalkIsRootPath(parent, tokens, preds, path);
    var emitted := PredsAlong(preds, path);
    var nacc := |path| - 1;
    var s := Commit(cfg.eos, Unmasked(l.req), View(l, cache, false), emitted[..nacc], emitted[nacc]);
    var v := Verify(net, d, l.phys, l.pos, parent, tokens, VerifyCell(cfg));
    Served(s, PosAfter(l, s, nacc), Adopt(v, l.phys, l.pos, path, |parent|, VerifyCell(cfg)))
  }

  // ------------------------------------------------------------------ dispatch

  /** A lane speculates only while its drafter state is trusted; a sampled schema lane never does. */
  predicate UsesMtp(l: Lane, active: bool) {
    active && l.primed && !l.stale && (l.req.schema.None? || l.req.greedy)
  }

  function SpecStep(net: Network, cfg: Config, d: Dev, l: Lane, cache: seq<Token>, dr: Draft): (r: Served)
    requires LegalDraft(cfg, l.req, dr) && Fits(d, cfg, l.phys, l.pos, Penalty.MAX_VERIFY)
    ensures SameDims(d, r.dev)
  {
    match dr
    case ChainDraft(drafts, accepted, tail) =>
      if l.req.greedy then ChainStep(net, cfg, d, l, cache, drafts)
      else SampledStep(net, cfg, d, l, cache, drafts, accepted, tail)
    case TreeDraft(parent, nodes) => TreeStep(net, cfg, d, l, cache, parent, nodes)
  }

  // ------------------------------------------------------------------ frames

  /** A step of slot `p` writes p's own cell and rows and the shared verify band. */
  ghost predicate OnlySlot(cfg: Config, d: Dev, d': Dev, p: nat) {
    && |d'.cells| == |d.cells| && |d'.kv| == |d.kv|
    && (forall i :: 0 <= i < |d.kv| ==> |d'.kv[i]| == |d.kv[i]| && (i != p ==> d'.kv[i] == d.kv[i]))
    && (forall i :: 0 <= i < |d.cells| && i != p && !(cfg.maxBatch <= i < cfg.maxBatch + cfg.checkpoints) ==>
          d'.cells[i] == d.cells[i])
  }

  /** What every served lane looks like: its slot stands exactly after its recorded cache. */
  ghost predicate ServedOk(net: Network, cfg: Config, d: Dev, l: Lane, cache: seq<Token>, r: Served) {
    && OnlySlot(cfg, d, r.dev, l.phys)
    && Live(net, r.dev, l.phys, r.stream.cache)
    && cache + [l.last] <= r.stream.cache
    && (!r.stream.finished ==> r.pos == |r.stream.cache|)
    && r.stream.generated >= l.generated
  }

  ghost predicate Ready(net: Network, cfg: Config, d: Dev, l: Lane, cache: seq<Token>, rows: nat) {
    && Fits(d, cfg, l.phys, l.pos, rows) && |cache| == l.pos && Live(net, d, l.phys, cache)
  }

  // ------------------------------------------------------------------ plain

  lemma PlainStepOk(net: Network, cfg: Config, d: Dev, l: Lane, cache: seq<Token>, draw: Token)
    requires Ready(net, cfg, d, l, cache, 1)
    ensures ServedOk(net, cfg, d, l, cache, PlainStep(net, cfg, d, l, cache, draw))
    ensures l.req.greedy ==>
              PlainStep(net, cfg, d, l, cache, draw).stream == Decode(net, cfg.eos, l.req, View(l, cache, false))
  {
    ConsumeFeeds(net, d, l.phys, l.pos, [l.last]);
    FoldAppend(net, cache, [l.last]);
    hide Consume, FeedAll, Fold, SchemaAdvance;
  }

  // ------------------------------------------------------------------ chain

  lemma ChainDeviceAdopts(net: Network, cfg: Config, d: Dev, p: nat, pos: nat, fed: seq<Token>, accepted: nat)
    requires Fits(d, cfg, p, pos, |fed|) && accepted < |fed| <= cfg.checkpoints + 1
    ensures ChainDevice(net, cfg, d, p, pos, fed, accepted)
         == Adopt(Verify(net, d, p, pos, ChainParent(|fed|), fed, VerifyCell(cfg)), p, pos,
                  FirstColumns(accepted + 1), |fed|, VerifyCell(cfg))
  {
    var v := Verify(net, d, p, pos, ChainParent(|fed|), fed, VerifyCell(cfg));
    var path := FirstColumns(accepted + 1);
    hide Verify;
    assert Compact(v, p, pos, path).kv[p] == v.kv[p];
    assert Compact(v, p, pos, path).kv == v.kv;
    assert Compact(v, p, pos, path) == v;
  }

  /** The slot ends exactly after the accepted prefix, whatever was rejected behind it. */
  lemma ChainDeviceOk(net: Network, cfg: Config, d: Dev, l: Lane, cache: seq<Token>, drafts: seq<Token>, accepted: nat)
    requires accepted <= |drafts| <= cfg.checkpoints && Ready(net, cfg, d, l, cache, |drafts| + 1)
    ensures var r := ChainDevice(net, cfg, d, l.phys, l.pos, [l.last] + drafts, accepted);
            && OnlySlot(cfg, d, r, l.phys)
            && Live(net, r, l.phys, cache + [l.last] + drafts[..accepted])
  {
    hide Verify, Adopt, ChainDevice, FeedAll, Fold;
    var fed, path := [l.last] + drafts, FirstColumns(accepted + 1);
    ChainDeviceAdopts(net, cfg, d, l.phys, l.pos, fed, accepted);
    ChainPath(|fed|, accepted + 1);
    VerifyThenAdopt(net, d, l.phys, l.pos, ChainParent(|fed|), fed, VerifyCell(cfg), path);
    assert PathTokens(fed, path) == [l.last] + drafts[..accepted];
    FoldAppend(net, cache, [l.last] + drafts[..accepted]);
    assert cache + ([l.last] + drafts[..accepted]) == cache + [l.last] + drafts[..accepted];
  }

  /** Column `j` of the chain attends to exactly the committed tokens and the first j drafts. */
  lemma ChainPredIs(net: Network, d: Dev, l: Lane, cache: seq<Token>, drafts: seq<Token>, j: nat)
    requires |cache| == l.pos && Live(net, d, l.phys, cache) && j <= |drafts|
    ensures ChainPred(net, MemAt(d, l.phys, l.pos), l, drafts, j)
         == Pred(net, l.req, View(l, cache, false), drafts, j)
  {
    ChainMem(net, cache, l.last, drafts, j);
    hide NodeMem, Fold, ColumnMask, Penalty.Column;
  }

  lemma ChainMem(net: Network, cache: seq<Token>, last: Token, drafts: seq<Token>, j: nat)
    requires j <= |drafts|
    ensures NodeMem(net, Fold(net, cache), ChainParent(|drafts| + 1), [last] + drafts, j) == Fold(net, cache + [last] + drafts[..j])
  {
    hide NodeMem, Fold, FeedAll;
    var n, tokens := |drafts| + 1, [last] + drafts;
    ChainPath(n, j + 1);
    PathMem(net, Fold(net, cache), ChainParent(n), tokens, FirstColumns(j + 1));
    assert PathTokens(tokens, FirstColumns(j + 1)) == [last] + drafts[..j];
    FoldAppend(net, cache, [last] + drafts[..j]);
    assert cache + ([last] + drafts[..j]) == cache + [last] + drafts[..j];
  }

  lemma ChainPredsAre(net: Network, d: Dev, l: Lane, cache: seq<Token>, drafts: seq<Token>)
    requires |cache| == l.pos && Live(net, d, l.phys, cache)
    ensures ChainPreds(net, MemAt(d, l.phys, l.pos), l, drafts) == Preds(net, l.req, View(l, cache, false), drafts)
  {
    forall j | 0 <= j <= |drafts|
      ensures ChainPreds(net, MemAt(d, l.phys, l.pos), l, drafts)[j] == Preds(net, l.req, View(l, cache, false), drafts)[j]
    {
      ChainPredIs(net, d, l, cache, drafts, j);
    }
  }

  lemma CommitGrows(eos: set<Token>, req: Request, s: Stream, path: seq<Token>, bonus: Token)
    ensures var c := Commit(eos, req, s, path, bonus);
            && c.cache == s.cache + [s.last] + path
            && c.generated >= s.generated
  {
  }

  lemma ChainStepOk(net: Network, cfg: Config, d: Dev, l: Lane, cache: seq<Token>, drafts: seq<Token>)
    requires |drafts| <= cfg.checkpoints && Ready(net, cfg, d, l, cache, |drafts| + 1)
    ensures ServedOk(net, cfg, d, l, cache, ChainStep(net, cfg, d, l, cache, drafts))
    ensures ChainStep(net, cfg, d, l, cache, drafts).stream == Chain(net, cfg.eos, l.req, View(l, cache, false), drafts)
  {
    var s := View(l, cache, false);
    ChainPredsAre(net, d, l, cache, drafts);
    var nacc := Accepted(net, l.req, s, drafts);
    ChainDeviceOk(net, cfg, d, l, cache, drafts, nacc);
    CommitGrows(cfg.eos, l.req, s, drafts[..nacc], Preds(net, l.req, s, drafts)[nacc]);
    hide Commit, ChainDevice, ChainPreds, Preds, Fold;
  }

  lemma SampledStepOk(net: Network, cfg: Config, d: Dev, l: Lane, cache: seq<Token>,
                      drafts: seq<Token>, accepted: nat, tail: Token)
    requires accepted <= |drafts| <= cfg.checkpoints && Ready(net, cfg, d, l, cache, |drafts| + 1)
    ensures ServedOk(net, cfg, d, l, cache, SampledStep(net, cfg, d, l, cache, drafts, accepted, tail))
  {
    ChainDeviceOk(net, cfg, d, l, cache, drafts, accepted);
    hide ChainDevice, Fold, RememberAll, Cut;
  }

  // ------------------------------------------------------------------ tree

  lemma NodePredsAreTargets(net: Network, m: Mem, l: Lane, parent: seq<int>, tokens: seq<Token>)
    requires IsTree(parent) && |tokens| == |parent| && !l.req.penalized
    ensures TargetPreds(net, m, parent, tokens, NodePreds(net, m, l, parent, tokens))
  {
  }

  lemma TreeStepOk(net: Network, cfg: Config, d: Dev, l: Lane, cache: seq<Token>, parent: seq<int>, nodes: seq<Token>)
    requires IsTree(parent) && |nodes| + 1 == |parent| <= cfg.checkpoints + 1
    requires Ready(net, cfg, d, l, cache, |parent|)
    ensures ServedOk(net, cfg, d, l, cache, TreeStep(net, cfg, d, l, cache, parent, nodes))
  {
    hide Commit, Verify, Adopt, NodePreds, Walk, Fold, FeedAll, IsWalk, IsTree, Descends;
    var s, tokens := View(l, cache, false), [l.last] + nodes;
    var preds := NodePreds(net, MemAt(d, l.phys, l.pos), l, parent, tokens);
    var path := Walk(parent, tokens, preds, 0);
    WalkFromRoot(parent, tokens, preds);
    WalkIsRootPath(parent, tokens, preds, path);
    WalkCommits(net, s, d, l.phys, VerifyCell(cfg), parent, tokens, preds, path);
    VerifyThenAdopt(net, d, l.phys, l.pos, parent, tokens, VerifyCell(cfg), path);
    var emitted := PredsAlong(preds, path);
    CommitGrows(cfg.eos, Unmasked(l.req), s, emitted[..|path| - 1], emitted[|path| - 1]);
  }

  /** A tree step of an unconstrained greedy lane is some number of plain steps. */
  lemma TreeStepDecodes(net: Network, cfg: Config, d: Dev, l: Lane, cache: seq<Token>, parent: seq<int>, nodes: seq<Token>)
    returns (k: nat)
    requires IsTree(parent) && |nodes| + 1 == |parent| <= cfg.checkpoints + 1
    requires Ready(net, cfg, d, l, cache, |parent|)
    requires l.generated < l.req.maxNew && !l.req.penalized && l.req.schema.None?
    ensures SameLane(TreeStep(net, cfg, d, l, cache, parent, nodes).stream,
                     Decodes(net, cfg.eos, l.req, View(l, cache, false), k))
  {
    hide Commit, Verify, Adopt, NodePreds, Walk, Fold, FeedAll, IsWalk, Decodes, Emit, TargetPreds;
    var s, tokens := View(l, cache, false), [l.last] + nodes;
    var preds := NodePreds(net, MemAt(d, l.phys, l.pos), l, parent, tokens);
    var path := Walk(parent, tokens, preds, 0);
    WalkFromRoot(parent, tokens, preds);
    WalkIsRootPath(parent, tokens, preds, path);
    assert Unmasked(l.req) == l.req;
    NodePredsAreTargets(net, Fold(net, cache), l, parent, tokens);
    TreeStepIsPlain(net, cfg.eos, l.req, s, d, l.phys, VerifyCell(cfg), parent, tokens, preds, path);
    var emitted := PredsAlong(preds, path);
    k := |Emit(cfg.eos, l.req, l.generated, emitted[..|path| - 1], emitted[|path| - 1]).0|;
  }
}
