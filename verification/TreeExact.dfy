// When a tree step sends plain decode's tokens whatever the network is: the tree columns are not
// masked and share the lane's penalty table as it stood, so exactly for lanes without a schema
// whose table no draft path changes on the way.

module TreeExact {
  import opened Wrappers
  import opened Trunk
  import opened Device
  import opened GreedyLane
  import opened Lossless
  import opened Slots
  import opened TreeWalk
  import opened LaneSteps
  import opened ChainExact
  import opened PackExact
  import Penalty

  // ------------------------------------------------------------------ the step as a stream

  /** A column's choice: the lane's history as it stood, and no mask. */
  function ColumnPick(net: Network, req: Request, s: Stream, parent: seq<int>, tokens: seq<Token>, c: nat): Token
    requires IsTree(parent) && |tokens| == |parent| && c < |parent|
  {
    net.pick(NodeMem(net, Fold(net, s.cache), parent, tokens, c), Penalties(req, Penalty.DecodeTable(s.history)), None)
  }

  function ColumnPicks(net: Network, req: Request, s: Stream, parent: seq<int>, tokens: seq<Token>): (p: seq<Token>)
    requires IsTree(parent) && |tokens| == |parent|
    ensures |p| == |parent|
  {
    seq(|parent|, c requires 0 <= c < |parent| => ColumnPick(net, req, s, parent, tokens, c))
  }

  /** The accepted path's choices, all of them but the last fed. */
  function TreeRun(net: Network, req: Request, s: Stream, parent: seq<int>, nodes: seq<Token>): (r: seq<Token>)
    requires IsTree(parent) && |nodes| + 1 == |parent|
    ensures r != []
  {
    var tokens := [s.last] + nodes;
    var preds := ColumnPicks(net, req, s, parent, tokens);
    PredsAlong(preds, Walk(parent, tokens, preds, 0))
  }

  function TreeStream(net: Network, eos: set<Token>, req: Request, s: Stream, parent: seq<int>, nodes: seq<Token>): Stream
    requires IsTree(parent) && |nodes| + 1 == |parent|
  {
    var run := TreeRun(net, req, s, parent, nodes);
    Commit(eos, Unmasked(req), s, run[..|run| - 1], run[|run| - 1])
  }

  /** On any device every ready lane takes that step. */
  lemma TreeStreamIs(net: Network, cfg: Config, d: Dev, l: Lane, cache: seq<Token>, parent: seq<int>, nodes: seq<Token>)
    requires IsTree(parent) && |nodes| + 1 == |parent| <= cfg.checkpoints + 1 && Ready(net, cfg, d, l, cache, |parent|)
    ensures TreeStep(net, cfg, d, l, cache, parent, nodes).stream == TreeStream(net, cfg.eos, l.req, View(l, cache, false), parent, nodes)
  {
    var s, tokens := View(l, cache, false), [l.last] + nodes;
    var preds, picks := NodePreds(net, MemAt(d, l.phys, l.pos), l, parent, tokens), ColumnPicks(net, l.req, s, parent, tokens);
    forall c | 0 <= c < |parent| ensures preds[c] == picks[c] {
      hide NodeMem, Fold, IsTree;
    }
    assert preds == picks;
    hide NodePreds, ColumnPicks, Walk, Commit, Verify, Adopt, IsTree, Fold;
  }

  // ------------------------------------------------------------------ the condition, before the step

  /** The tree offers the path p: from the root, always to the first child that carries its token. */
  ghost predicate Offered(parent: seq<int>, tokens: seq<Token>, p: seq<nat>)
    requires IsTree(parent) && |tokens| == |parent|
  {
    RootPath(parent, p) && forall k :: 0 < k < |p| ==> Descends(parent, p, k) && FirstMatch(parent, tokens, p[k - 1], tokens[p[k]], p[k])
  }

  /** The drafts on a path, behind the committed token. */
  function DraftsOn(tokens: seq<Token>, p: seq<nat>): seq<Token>
    requires p != [] && forall k :: 0 <= k < |p| ==> p[k] < |tokens|
  {
    PathTokens(tokens, p)[1..]
  }

  /** After these tokens plain decode's penalty table still means what it meant. */
  ghost predicate TableStands(s: Stream, ts: seq<Token>) {
    Penalty.Meaning(Penalty.DecodeTable(RememberAll(s.history, ts))) == Penalty.Meaning(Penalty.DecodeTable(s.history))
  }

  /** Some drafts the tree offers do not end the lane, and do change its table. */
  ghost predicate Unsteady(eos: set<Token>, req: Request, s: Stream, parent: seq<int>, tokens: seq<Token>, p: seq<nat>)
    requires IsTree(parent) && |tokens| == |parent|
  {
    && Offered(parent, tokens, p) && |p| > 1
    && (var ts := DraftsOn(tokens, p); Unstopped(eos, req, s.generated, ts) == |ts| && !TableStands(s, ts))
  }

  /** What a caller can check: no schema, and penalties only if every path leaves the table alone. */
  ghost predicate TreeKeepsTables(eos: set<Token>, req: Request, s: Stream, parent: seq<int>, nodes: seq<Token>)
    requires IsTree(parent) && |nodes| + 1 == |parent|
  {
    req.schema.None? && (req.penalized ==> forall p :: !Unsteady(eos, req, s, parent, [s.last] + nodes, p))
  }

  /** For every network that keeps to its masks the step sends what as many plain steps send. */
  ghost predicate TreeForEveryNetwork(eos: set<Token>, req: Request, s: Stream, parent: seq<int>, nodes: seq<Token>)
    requires IsTree(parent) && |nodes| + 1 == |parent|
  {
    forall net :: Obeys(net) ==> TreeIsPlain(net, eos, req, s, parent, nodes)
  }

  ghost predicate TreeIsPlain(net: Network, eos: set<Token>, req: Request, s: Stream, parent: seq<int>, nodes: seq<Token>)
    requires IsTree(parent) && |nodes| + 1 == |parent|
  {
    exists k: nat :: k > 0 && TreeStream(net, eos, req, s, parent, nodes).sent == Decodes(net, eos, req, s, k).sent
  }

  // ------------------------------------------------------------------ inside the condition

  /** The walk only takes paths that the tree offers. */
  lemma WalkIsOffered(parent: seq<int>, tokens: seq<Token>, preds: seq<Token>, path: seq<nat>, i: nat)
    requires IsTree(parent) && |tokens| == |preds| == |parent| && IsWalk(parent, tokens, preds, path) && i < |path|
    ensures Offered(parent, tokens, path[..i + 1]) && DraftsOn(tokens, path[..i + 1]) == PredsAlong(preds, path)[..i]
  {
    var p := path[..i + 1];
    RootPathPrefix(parent, path, i + 1);
    forall k | 0 < k < |p| ensures Descends(parent, p, k) && FirstMatch(parent, tokens, p[k - 1], tokens[p[k]], p[k]) {
      assert Matched(parent, tokens, preds, path, k);
    }
    WalkTokens(parent, tokens, preds, path);
    assert PathTokens(tokens, p) == PathTokens(tokens, path)[..i + 1];
    assert DraftsOn(tokens, p) == PredsAlong(preds, path)[..i];
  }

  /** A choice made over an unchanged table is plain decode's. */
  lemma PickIsChoice(net: Network, eos: set<Token>, req: Request, s: Stream,
                     parent: seq<int>, tokens: seq<Token>, path: seq<nat>, i: nat)
    requires IsTree(parent) && |tokens| == |parent| && tokens[0] == s.last && req.schema.None?
    requires IsWalk(parent, tokens, ColumnPicks(net, req, s, parent, tokens), path) && i < |path|
    requires var ts := PredsAlong(ColumnPicks(net, req, s, parent, tokens), path)[..i]; req.penalized ==> TableStands(s, ts)
    ensures var run := PredsAlong(ColumnPicks(net, req, s, parent, tokens), path);
            run[i] == Choose(net, req, TakeAll(eos, req, s, run[..i]))
  {
    var preds := ColumnPicks(net, req, s, parent, tokens);
    var ts := PredsAlong(preds, path)[..i];
    WalkMem(net, s, parent, tokens, preds, path, i);
    TakenFeeds(eos, req, s, ts);
    HistoryAfter(eos, req, s, ts);
    hide Fold, NodeMem, TakeAll, RememberAll, Penalty.DecodeTable, Penalty.Meaning, IsWalk, IsTree;
  }

  lemma HistoryAfter(eos: set<Token>, req: Request, s: Stream, ts: seq<Token>)
    ensures TakeAll(eos, req, s, ts).history == RememberAll(s.history, ts)
  {
    if ts != [] {
      TakeAllIs(eos, req, s, ts);
    }
  }

  /** Every token a step sends is chosen over a table that stands. */
  lemma SentSteadily(net: Network, eos: set<Token>, req: Request, s: Stream, parent: seq<int>, nodes: seq<Token>, i: nat)
    requires IsTree(parent) && |nodes| + 1 == |parent| && s.generated < req.maxNew && TreeKeepsTables(eos, req, s, parent, nodes)
    requires var run := TreeRun(net, req, s, parent, nodes); i < |Cut(eos, req, s.generated, run)|
    ensures var run := TreeRun(net, req, s, parent, nodes);
            i < |run| && run[i] == Choose(net, req, TakeAll(eos, req, s, run[..i]))
  {
    var tokens, run := [s.last] + nodes, TreeRun(net, req, s, parent, nodes);
    var preds := ColumnPicks(net, req, s, parent, tokens);
    var path := Walk(parent, tokens, preds, 0);
    WalkFromRoot(parent, tokens, preds);
    CutStops(eos, req, s.generated, run);
    var ts := run[..i];
    WalkIsOffered(parent, tokens, preds, path, i);
    if i > 0 && req.penalized {
      UnstoppedAll(eos, req, s.generated, run, i);
      assert !Unsteady(eos, req, s, parent, tokens, path[..i + 1]);
    }
    assert ts == [] ==> TableStands(s, ts);
    hide ColumnPicks, Walk, IsWalk, Offered, TableStands, Cut, Unstopped;
    PickIsChoice(net, eos, req, s, parent, tokens, path, i);
  }

  /** Tokens that a cut sends before its last do not stop the lane. */
  lemma UnstoppedAll(eos: set<Token>, req: Request, g: nat, run: seq<Token>, i: nat)
    requires i < |Cut(eos, req, g, run)| && i <= |run| && Cut(eos, req, g, run) <= run
    requires forall j :: 0 <= j < |Cut(eos, req, g, run)| - 1 ==> !Stops(eos, req, g + j + 1, run[j])
    ensures Unstopped(eos, req, g, run[..i]) == i
  {
    UnstoppedIs(eos, req, g, run[..i]);
  }

  /** So what it sends is plain decode's, token by token. */
  lemma SteadyFollows(net: Network, eos: set<Token>, req: Request, s: Stream, parent: seq<int>, nodes: seq<Token>)
    requires IsTree(parent) && |nodes| + 1 == |parent| && s.generated < req.maxNew && TreeKeepsTables(eos, req, s, parent, nodes)
    ensures Follows(net, eos, req, s, Cut(eos, req, s.generated, TreeRun(net, req, s, parent, nodes)))
  {
    var run := TreeRun(net, req, s, parent, nodes);
    var toks := Cut(eos, req, s.generated, run);
    CutStops(eos, req, s.generated, run);
    hide TreeRun, Cut, TakeAll, Choose, TreeKeepsTables, Follows, Stops;
    forall i | 0 <= i < |toks| ensures toks[i] == Choose(net, req, TakeAll(eos, req, s, toks[..i])) {
      SentSteadily(net, eos, req, s, parent, nodes, i);
      assert toks[..i] == run[..i];
    }
    FollowsFrom(net, eos, req, s, toks, 0);
    assert toks[..0] == [] && toks[0..] == toks;
  }

  lemma SteadyIsPlain(net: Network, eos: set<Token>, req: Request, s: Stream, parent: seq<int>, nodes: seq<Token>)
    requires IsTree(parent) && |nodes| + 1 == |parent| && !s.finished && s.generated < req.maxNew
    requires TreeKeepsTables(eos, req, s, parent, nodes)
    ensures TreeIsPlain(net, eos, req, s, parent, nodes)
  {
    SteadyFollows(net, eos, req, s, parent, nodes);
    assert Unmasked(req) == req;
    hide TreeRun, TreeKeepsTables, Follows, Decodes, Commit;
    var run := TreeRun(net, req, s, parent, nodes);
    FollowedIsSent(net, eos, req, s, run);
  }

  /** A run whose cut follows plain decode is committed as that many plain steps. */
  lemma FollowedIsSent(net: Network, eos: set<Token>, req: Request, s: Stream, run: seq<Token>)
    requires run != [] && !s.finished && s.generated < req.maxNew && req.schema.None?
    requires Follows(net, eos, req, s, Cut(eos, req, s.generated, run))
    ensures Commit(eos, req, s, run[..|run| - 1], run[|run| - 1]).sent
         == Decodes(net, eos, req, s, |Cut(eos, req, s.generated, run)|).sent
    ensures |Cut(eos, req, s.generated, run)| > 0
  {
    hide Cut, Emit, TakeAll, Decodes, Follows, Commit, Stops, QuietUntilLast, SchemaAdvance;
    var n, toks := |run| - 1, Cut(eos, req, s.generated, run);
    assert run[..n] + [run[n]] == run;
    CutEmits(eos, req, s.generated, run, n);
    CutStops(eos, req, s.generated, run);
    NoSchemaIsQuiet(req, s.schemaState, toks);
    CommitTakes(eos, req, s, run[..n], run[n]);
    DecodesFollow(net, eos, req, s, toks);
  }

  lemma CutEmits(eos: set<Token>, req: Request, g: nat, run: seq<Token>, n: nat)
    requires run != [] && n == |run| - 1 && g < req.maxNew
    ensures Emit(eos, req, g, run[..n], run[n]).0 == Cut(eos, req, g, run)
  {
    assert run[..n] + [run[n]] == run;
    EmitIsCut(eos, req, g, run[..n], run[n]);
    hide Emit, Cut;
  }

  // ------------------------------------------------------------------ outside it

  lemma SchemaShows(eos: set<Token>, req: Request, s: Stream, parent: seq<int>, nodes: seq<Token>)
    requires IsTree(parent) && |nodes| + 1 == |parent| && !s.finished && s.generated < req.maxNew && req.schema.Some?
    ensures !TreeForEveryNetwork(eos, req, s, parent, nodes)
  {
    var t := SomeOf(Mask(req, s.schemaState).value);
    var net := MaskTeller(t + 1);
    var run := TreeRun(net, req, s, parent, nodes);
    assert run[0] == t + 1;
    FirstSent(eos, Unmasked(req), s, run[..|run| - 1], run[|run| - 1]);
    assert run[..|run| - 1] + [run[|run| - 1]] == run;
    assert Choose(net, req, s) == t;
    forall k: nat | k > 0 ensures TreeStream(net, eos, req, s, parent, nodes).sent != Decodes(net, eos, req, s, k).sent {
      hide TreeRun, Choose, MaskTeller, Commit;
      PlainAppends(net, eos, req, s, s, 0, k);
    }
  }

  /** Keeps to a mask; else takes the tokens ts in turn and then answers 1 to the table and 0 to any
      other. */
  ghost function Lead(base: nat, ts: seq<Token>, table: multiset<Token>, rows: nat, pen: multiset<Token>, mask: Option<set<Token>>): Token {
    if mask.Some? then SomeOf(mask.value)
    else if base <= rows < base + |ts| then ts[rows - base]
    else if pen == table then 1 else 0
  }

  ghost function Leader(base: nat, ts: seq<Token>, table: multiset<Token>): (net: Network)
    ensures Obeys(net)
  {
    Network(0, (g, r, y) => 0, (g, r, y) => 0,
      (m: Mem, pen: multiset<Token>, mask: Option<set<Token>>) => Lead(base, ts, table, |m.rows|, pen, mask))
  }

  lemma LeadAt(base: nat, ts: seq<Token>, table: multiset<Token>, m: Mem, pen: multiset<Token>, i: nat)
    requires i <= |ts| && |m.rows| == base + i
    ensures Leader(base, ts, table).pick(m, pen, None) == if i < |ts| then ts[i] else if pen == table then 1 else 0
  {
  }

  /** A column's memory has one row for every token on its root path. */
  lemma {:induction false} NodeRows(net: Network, m: Mem, parent: seq<int>, tokens: seq<Token>, p: seq<nat>, k: nat)
    requires IsTree(parent) && |tokens| == |parent| && RootPath(parent, p) && k < |p|
    ensures |NodeMem(net, m, parent, tokens, p[k]).rows| == |m.rows| + k + 1
    decreases k
  {
    if k > 0 {
      NodeRows(net, m, parent, tokens, p, k - 1);
      assert Descends(parent, p, k);
    }
  }

  ghost function LeaderOf(req: Request, s: Stream, ts: seq<Token>): (net: Network)
    ensures Obeys(net)
  {
    Leader(|s.cache| + 1, ts, Penalty.Meaning(Penalty.DecodeTable(s.history)))
  }

  /** Led along p, every column on it asks for the next draft, and the last for 1. */
  lemma LedPick(req: Request, s: Stream, parent: seq<int>, tokens: seq<Token>, p: seq<nat>, i: nat)
    requires IsTree(parent) && |tokens| == |parent| && RootPath(parent, p) && i < |p| && req.penalized
    ensures var ts := DraftsOn(tokens, p);
            ColumnPick(LeaderOf(req, s, ts), req, s, parent, tokens, p[i]) == if i < |ts| then ts[i] else 1
  {
    var ts := DraftsOn(tokens, p);
    var net, table := LeaderOf(req, s, ts), Penalty.Meaning(Penalty.DecodeTable(s.history));
    FoldLength(net, s.cache);
    NodeRows(net, Fold(net, s.cache), parent, tokens, p, i);
    LeadAt(|s.cache| + 1, ts, table, NodeMem(net, Fold(net, s.cache), parent, tokens, p[i]), table, i);
    hide NodeMem, Fold, Leader, Penalty.DecodeTable, Penalty.Meaning, IsTree;
  }

  /** A walk whose choices spell an offered path goes down it. */
  lemma {:induction false} WalkTakes(parent: seq<int>, tokens: seq<Token>, preds: seq<Token>, path: seq<nat>, p: seq<nat>, k: nat)
    requires IsTree(parent) && |tokens| == |preds| == |parent| && IsWalk(parent, tokens, preds, path)
    requires Offered(parent, tokens, p) && k < |p| && forall i :: 0 <= i < |p| - 1 ==> preds[p[i]] == tokens[p[i + 1]]
    ensures k < |path| && path[k] == p[k]
    decreases k
  {
    if k > 0 {
      WalkTakes(parent, tokens, preds, path, p, k - 1);
      assert FirstMatch(parent, tokens, p[k - 1], tokens[p[k]], p[k]);
      assert preds[p[k - 1]] == tokens[p[k]];
      if k < |path| {
        assert Matched(parent, tokens, preds, path, k);
      }
    }
  }

  /** The walk goes down p, and there asks for 1. */
  lemma LedRun(req: Request, s: Stream, parent: seq<int>, nodes: seq<Token>, p: seq<nat>)
    requires IsTree(parent) && |nodes| + 1 == |parent| && req.penalized && Offered(parent, [s.last] + nodes, p)
    ensures var ts := DraftsOn([s.last] + nodes, p);
            var run := TreeRun(LeaderOf(req, s, ts), req, s, parent, nodes);
            |run| > |ts| && run[..|ts|] == ts && run[|ts|] == 1
  {
    var tokens := [s.last] + nodes;
    var ts := DraftsOn(tokens, p);
    var net := LeaderOf(req, s, ts);
    var preds := ColumnPicks(net, req, s, parent, tokens);
    var path := Walk(parent, tokens, preds, 0);
    WalkFromRoot(parent, tokens, preds);
    forall i: nat | i < |p| ensures preds[p[i]] == if i < |ts| then ts[i] else 1 {
      LedPick(req, s, parent, tokens, p, i);
    }
    hide ColumnPicks, Walk, IsWalk, LeaderOf;
    forall k: nat | k < |p| ensures k < |path| && path[k] == p[k] {
      WalkTakes(parent, tokens, preds, path, p, k);
    }
    assert path[|p| - 1] == p[|p| - 1];
  }

  lemma RunIsSent(eos: set<Token>, req: Request, s: Stream, ts: seq<Token>, run: seq<Token>)
    requires |run| > |ts| && run[..|ts|] == ts && s.generated < req.maxNew && Unstopped(eos, req, s.generated, ts) == |ts|
    ensures var sent := Commit(eos, req, s, run[..|run| - 1], run[|run| - 1]).sent;
            |sent| > |s.sent| + |ts| && sent[|s.sent| + |ts|] == run[|ts|]
  {
    assert ts[..|ts|] == ts;
    hide Unstopped, Cut, Commit;
    CutReaches(eos, req, s.generated, ts, run, |ts|);
    SentIsCut(eos, req, s, run, |ts|);
  }

  lemma SentIsCut(eos: set<Token>, req: Request, s: Stream, run: seq<Token>, t: nat)
    requires t < |run| && |Cut(eos, req, s.generated, run)| > t && Cut(eos, req, s.generated, run)[..t + 1] == run[..t + 1]
    requires s.generated < req.maxNew
    ensures var sent := Commit(eos, req, s, run[..|run| - 1], run[|run| - 1]).sent;
            |sent| > |s.sent| + t && sent[|s.sent| + t] == run[t]
  {
    var n := |run| - 1;
    assert run[..n] + [run[n]] == run;
    EmitIsCut(eos, req, s.generated, run[..n], run[n]);
    hide Emit, Cut, SchemaAdvance, RememberAll;
    assert Cut(eos, req, s.generated, run)[t] == Cut(eos, req, s.generated, run)[..t + 1][t] == run[..t + 1][t];
  }

  /** Plain decode takes the same drafts. */
  lemma LedFollows(eos: set<Token>, req: Request, s: Stream, ts: seq<Token>)
    requires req.schema.None?
    ensures Follows(LeaderOf(req, s, ts), eos, req, s, ts)
  {
    var net, table := LeaderOf(req, s, ts), Penalty.Meaning(Penalty.DecodeTable(s.history));
    forall i: nat | i < |ts| ensures ts[i] == Choose(net, req, TakeAll(eos, req, s, ts[..i])) {
      var si := TakeAll(eos, req, s, ts[..i]);
      TakenFeeds(eos, req, s, ts[..i]);
      FoldLength(net, si.cache + [si.last]);
      LeadAt(|s.cache| + 1, ts, table, Fold(net, si.cache + [si.last]), Penalties(req, Penalty.DecodeTable(si.history)), i);
      hide TakeAll, Fold, Leader, Penalty.DecodeTable, Penalty.Meaning;
    }
    FollowsFrom(net, eos, req, s, ts, 0);
    assert ts[..0] == [] && ts[0..] == ts;
  }

  /** The plain steps over the drafts. */
  lemma LedAfter(eos: set<Token>, req: Request, s: Stream, ts: seq<Token>)
    requires !s.finished && req.schema.None? && Unstopped(eos, req, s.generated, ts) == |ts|
    ensures var st := TakeAll(eos, req, s, ts);
            Decodes(LeaderOf(req, s, ts), eos, req, s, |ts|) == st && !st.finished && st.sent == s.sent + ts
  {
    LedFollows(eos, req, s, ts);
    UnstoppedIs(eos, req, s.generated, ts);
    NoSchemaIsQuiet(req, s.schemaState, ts);
    LedRests(eos, req, s, ts);
    hide TakeAll, LeaderOf, Decodes, Follows, Unstopped;
    DecodesFollow(LeaderOf(req, s, ts), eos, req, s, ts);
  }

  /** Over a table that has changed, the choice after them is 0. */
  lemma LedChoice(eos: set<Token>, req: Request, s: Stream, ts: seq<Token>)
    requires req.schema.None? && req.penalized && !TableStands(s, ts)
    ensures Choose(LeaderOf(req, s, ts), req, TakeAll(eos, req, s, ts)) == 0
  {
    var net, table := LeaderOf(req, s, ts), Penalty.Meaning(Penalty.DecodeTable(s.history));
    var st := TakeAll(eos, req, s, ts);
    hide TakeAll, Fold, Leader, Penalty.DecodeTable, Penalty.Meaning;
    TakenFeeds(eos, req, s, ts);
    HistoryAfter(eos, req, s, ts);
    FoldLength(net, st.cache + [st.last]);
    LeadAt(|s.cache| + 1, ts, table, Fold(net, st.cache + [st.last]), Penalty.Meaning(Penalty.DecodeTable(st.history)), |ts|);
  }

  /** So plain decode sends the drafts and then 0. */
  lemma LedPlain(eos: set<Token>, req: Request, s: Stream, ts: seq<Token>, k: nat)
    requires !s.finished && req.schema.None? && req.penalized && Unstopped(eos, req, s.generated, ts) == |ts| && !TableStands(s, ts)
    ensures var sent := Decodes(LeaderOf(req, s, ts), eos, req, s, k).sent;
            k <= |ts| || (|sent| > |s.sent| + |ts| && sent[|s.sent| + |ts|] == 0)
    ensures k <= |ts| ==> |Decodes(LeaderOf(req, s, ts), eos, req, s, k).sent| <= |s.sent| + |ts|
  {
    hide *;
    LedAfter(eos, req, s, ts);
    LedChoice(eos, req, s, ts);
    if k > |ts| {
      PlainAppends(LeaderOf(req, s, ts), eos, req, s, TakeAll(eos, req, s, ts), |ts|, k);
    } else {
      DecodesSome(LeaderOf(req, s, ts), eos, req, s, k);
    }
  }

  lemma {:induction false} LedRests(eos: set<Token>, req: Request, s: Stream, ts: seq<Token>)
    requires !s.finished && req.schema.None? && Unstopped(eos, req, s.generated, ts) == |ts|
    ensures !TakeAll(eos, req, s, ts).finished && TakeAll(eos, req, s, ts).sent == s.sent + ts
    decreases |ts|
  {
    if ts != [] {
      NoTurn(req, s.schemaState, [ts[0]]);
      LedRests(eos, req, Take(eos, req, s, ts[0]), ts[1..]);
      assert s.sent + [ts[0]] + ts[1..] == s.sent + ts;
    }
  }

  lemma NoTurn(req: Request, st: nat, ts: seq<Token>)
    requires req.schema.None?
    ensures !SchemaAdvance(req, st, ts).1
  {
  }

  lemma {:induction false} DecodesSome(net: Network, eos: set<Token>, req: Request, s: Stream, k: nat)
    ensures |Decodes(net, eos, req, s, k).sent| <= |s.sent| + k
    decreases k
  {
    if k > 0 && !s.finished {
      hide Choose;
      DecodesSome(net, eos, req, Decode(net, eos, req, s), k - 1);
    }
  }

  lemma StreamOfRun(net: Network, eos: set<Token>, req: Request, s: Stream, parent: seq<int>, nodes: seq<Token>)
    requires IsTree(parent) && |nodes| + 1 == |parent| && req.schema.None?
    ensures var run := TreeRun(net, req, s, parent, nodes);
            TreeStream(net, eos, req, s, parent, nodes) == Commit(eos, req, s, run[..|run| - 1], run[|run| - 1])
  {
    assert Unmasked(req) == req;
    hide TreeRun, Commit, IsTree;
  }

  /** The step sends ts and then 1, plain decode ts and then 0. */
  lemma LedDiffers(eos: set<Token>, req: Request, s: Stream, ts: seq<Token>, run: seq<Token>, k: nat)
    requires |run| > |ts| && run[..|ts|] == ts && run[|ts|] == 1
    requires !s.finished && s.generated < req.maxNew && req.schema.None? && req.penalized
    requires Unstopped(eos, req, s.generated, ts) == |ts| && !TableStands(s, ts)
    ensures Commit(eos, req, s, run[..|run| - 1], run[|run| - 1]).sent != Decodes(LeaderOf(req, s, ts), eos, req, s, k).sent
  {
    hide *;
    RunIsSent(eos, req, s, ts, run);
    LedPlain(eos, req, s, ts, k);
  }

  lemma UnsteadyShows(eos: set<Token>, req: Request, s: Stream, parent: seq<int>, nodes: seq<Token>, p: seq<nat>)
    requires IsTree(parent) && |nodes| + 1 == |parent| && !s.finished && s.generated < req.maxNew && req.penalized && req.schema.None?
    requires Unsteady(eos, req, s, parent, [s.last] + nodes, p)
    ensures !TreeForEveryNetwork(eos, req, s, parent, nodes)
  {
    LedRun(req, s, parent, nodes, p);
    var ts := DraftsOn([s.last] + nodes, p);
    DiffersForOne(eos, req, s, parent, nodes, ts);
  }

  lemma DiffersForOne(eos: set<Token>, req: Request, s: Stream, parent: seq<int>, nodes: seq<Token>, ts: seq<Token>)
    requires IsTree(parent) && |nodes| + 1 == |parent|
    requires var run := TreeRun(LeaderOf(req, s, ts), req, s, parent, nodes); |run| > |ts| && run[..|ts|] == ts && run[|ts|] == 1
    requires !s.finished && s.generated < req.maxNew && req.schema.None? && req.penalized
    requires Unstopped(eos, req, s.generated, ts) == |ts| && !TableStands(s, ts)
    ensures !TreeForEveryNetwork(eos, req, s, parent, nodes)
  {
    var net := LeaderOf(req, s, ts);
    hide IsTree, TreeRun, TreeStream, LeaderOf, Decodes, Commit, Unstopped, TableStands;
    StreamOfRun(net, eos, req, s, parent, nodes);
    forall k: nat | k > 0 ensures TreeStream(net, eos, req, s, parent, nodes).sent != Decodes(net, eos, req, s, k).sent {
      LedDiffers(eos, req, s, ts, TreeRun(net, req, s, parent, nodes), k);
    }
  }

  /** A tree step is plain decode for every network that keeps to its masks exactly for lanes without
      a schema, if penalized only while no path of drafts that goes on changes the penalty table. */
  lemma TreeExactly(eos: set<Token>, req: Request, s: Stream, parent: seq<int>, nodes: seq<Token>)
    requires IsTree(parent) && |nodes| + 1 == |parent| && !s.finished && s.generated < req.maxNew
    ensures TreeForEveryNetwork(eos, req, s, parent, nodes) <==> TreeKeepsTables(eos, req, s, parent, nodes)
  {
    hide IsTree, Unsteady, TreeIsPlain;
    if TreeKeepsTables(eos, req, s, parent, nodes) {
      forall net | Obeys(net) ensures TreeIsPlain(net, eos, req, s, parent, nodes) {
        SteadyIsPlain(net, eos, req, s, parent, nodes);
      }
    } else if req.schema.Some? {
      SchemaShows(eos, req, s, parent, nodes);
    } else {
      var p :| Unsteady(eos, req, s, parent, [s.last] + nodes, p);
      UnsteadyShows(eos, req, s, parent, nodes, p);
    }
  }
}
