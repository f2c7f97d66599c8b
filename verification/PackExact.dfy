// When a packed lane takes the very step it would take alone, whatever the network is: never with a
// schema, and with penalties only while its drafts leave the table as it stood.

module PackExact {
  import opened Wrappers
  import opened Trunk
  import opened Device
  import opened GreedyLane
  import opened Lossless
  import opened Slots
  import opened LaneSteps
  import opened Forest
  import opened ChainExact
  import Penalty

  // ------------------------------------------------------------------ the packed step as a stream

  /** A packed column's choice: the lane's history as it stood, and no mask. */
  function StalePred(net: Network, req: Request, s: Stream, drafts: seq<Token>, j: nat): Token
    requires j <= |drafts|
  {
    net.pick(Fold(net, s.cache + [s.last] + drafts[..j]), Penalties(req, Penalty.DecodeTable(s.history)), None)
  }

  function StalePreds(net: Network, req: Request, s: Stream, drafts: seq<Token>): (p: seq<Token>)
    ensures |p| == |drafts| + 1
  {
    seq(|drafts| + 1, j requires 0 <= j <= |drafts| => StalePred(net, req, s, drafts, j))
  }

  /** A step over the choices `preds`: keep the agreed drafts and one more token. */
  function StepOver(eos: set<Token>, req: Request, s: Stream, drafts: seq<Token>, preds: seq<Token>): Stream
    requires |preds| == |drafts| + 1
  {
    var n := AcceptLen(preds, drafts);
    Commit(eos, req, s, drafts[..n], preds[n])
  }

  function PackedStep(net: Network, eos: set<Token>, req: Request, s: Stream, drafts: seq<Token>): Stream {
    StepOver(eos, Unmasked(req), s, drafts, StalePreds(net, req, s, drafts))
  }

  lemma StalePredIs(net: Network, d: Dev, p: Pack, j: nat)
    requires |p.cache| == p.l.pos && Live(net, d, p.l.phys, p.cache) && j <= |p.drafts|
    ensures ForestPred(net, d, p, j) == StalePred(net, p.l.req, View(p.l, p.cache, false), p.drafts, j)
  {
    ChainMem(net, p.cache, p.l.last, p.drafts, j);
    hide Fold, NodeMem, Penalties;
  }

  lemma StalePredsAre(net: Network, d: Dev, p: Pack)
    requires |p.cache| == p.l.pos && Live(net, d, p.l.phys, p.cache)
    ensures ForestPreds(net, d, p) == StalePreds(net, p.l.req, View(p.l, p.cache, false), p.drafts)
  {
    hide ForestPred, StalePred, Fold;
    forall j | 0 <= j <= |p.drafts| ensures ForestPred(net, d, p, j) == StalePred(net, p.l.req, View(p.l, p.cache, false), p.drafts, j) {
      StalePredIs(net, d, p, j);
    }
  }

  /** Every ready pack, on any device, takes that step; served alone it takes the chain's. */
  lemma PackedStreamIs(net: Network, cfg: Config, d: Dev, p: Pack)
    requires Ready(net, cfg, d, p.l, p.cache, |p.drafts| + 1) && |p.drafts| <= cfg.checkpoints
    ensures var s := View(p.l, p.cache, false);
            && ForestStream(net, cfg, d, p) == PackedStep(net, cfg.eos, p.l.req, s, p.drafts)
            && ChainStep(net, cfg, d, p.l, p.cache, p.drafts).stream == Chain(net, cfg.eos, p.l.req, s, p.drafts)
  {
    ChainStepOk(net, cfg, d, p.l, p.cache, p.drafts);
    StalePredsAre(net, d, p);
    hide Live, ForestPreds, StalePreds, Commit, ChainStep, Chain, ServedOk, AcceptLen;
  }

  // ------------------------------------------------------------------ which choices a step shows

  /** The last column whose choice the step shows: the bonus's only if no draft ends the lane. */
  function LastShown(eos: set<Token>, req: Request, s: Stream, drafts: seq<Token>): (n: int)
    ensures n <= |drafts| && |drafts| <= n + 1
  {
    if Unstopped(eos, req, s.generated, drafts) == |drafts| then |drafts| else |drafts| - 1
  }

  lemma {:induction false} SameAccepts(p: seq<Token>, q: seq<Token>, drafts: seq<Token>)
    requires |p| == |q| == |drafts| + 1 && forall i :: 0 <= i < |drafts| ==> p[i] == q[i]
    ensures AcceptLen(p, drafts) == AcceptLen(q, drafts)
    decreases |drafts|
  {
    if drafts != [] {
      SameAccepts(p[1..], q[1..], drafts[1..]);
    }
  }

  /** A cut that ends on a draft does not depend on what would have come after. */
  lemma {:induction false} CutIgnores(eos: set<Token>, req: Request, g: nat, drafts: seq<Token>, x: Token, y: Token)
    requires Unstopped(eos, req, g, drafts) < |drafts|
    ensures Cut(eos, req, g, drafts + [x]) == Cut(eos, req, g, drafts + [y])
    ensures var c := Cut(eos, req, g, drafts + [x]); c != [] && Stops(eos, req, g + |c|, c[|c| - 1])
    decreases |drafts|
  {
    if !Stops(eos, req, g + 1, drafts[0]) {
      CutIgnores(eos, req, g + 1, drafts[1..], x, y);
      assert (drafts + [x])[1..] == drafts[1..] + [x] && (drafts + [y])[1..] == drafts[1..] + [y];
    }
  }

  lemma EmitIgnores(eos: set<Token>, req: Request, g: nat, drafts: seq<Token>, x: Token, y: Token)
    requires g < req.maxNew && Unstopped(eos, req, g, drafts) < |drafts|
    ensures Emit(eos, req, g, drafts, x) == Emit(eos, req, g, drafts, y)
  {
    hide Emit, Cut, Unstopped, Stops, EosHit;
    CutIgnores(eos, req, g, drafts, x, y);
    EmitIsCut(eos, req, g, drafts, x);
    EmitIsCut(eos, req, g, drafts, y);
  }

  lemma CommitIgnores(eos: set<Token>, req: Request, s: Stream, drafts: seq<Token>, x: Token, y: Token)
    requires s.generated < req.maxNew && Unstopped(eos, req, s.generated, drafts) < |drafts|
    ensures Commit(eos, req, s, drafts, x) == Commit(eos, req, s, drafts, y)
  {
    hide Emit, SchemaAdvance, RememberAll, Unstopped;
    EmitIgnores(eos, req, s.generated, drafts, x, y);
    EmitEnds(eos, req, s.generated, drafts, x);
  }

  /** When the last token of the step is not the bonus, the lane is over. */
  lemma EmitEnds(eos: set<Token>, req: Request, g: nat, drafts: seq<Token>, x: Token)
    requires g < req.maxNew && Unstopped(eos, req, g, drafts) < |drafts|
    ensures var (toks, hit) := Emit(eos, req, g, drafts, x); hit || g + |toks| >= req.maxNew
  {
    hide Emit, Cut, Unstopped;
    CutIgnores(eos, req, g, drafts, x, x);
    EmitIsCut(eos, req, g, drafts, x);
  }

  lemma ShownDecides(eos: set<Token>, req: Request, s: Stream, drafts: seq<Token>, p: seq<Token>, q: seq<Token>)
    requires s.generated < req.maxNew && |p| == |q| == |drafts| + 1
    requires forall i :: 0 <= i <= LastShown(eos, req, s, drafts) ==> p[i] == q[i]
    ensures StepOver(eos, req, s, drafts, p) == StepOver(eos, req, s, drafts, q)
  {
    SameAccepts(p, q, drafts);
    var n := AcceptLen(p, drafts);
    if p[n] != q[n] {
      CommitIgnores(eos, req, s, drafts, p[n], q[n]);
      assert drafts[..n] == drafts;
    }
    hide Commit, AcceptLen;
  }

  /** Two choices at a shown column, all earlier drafts accepted, make two different steps. */
  lemma ShownTells(eos: set<Token>, req: Request, s: Stream, drafts: seq<Token>, p: seq<Token>, q: seq<Token>, j: nat)
    requires s.generated < req.maxNew && |p| == |q| == |drafts| + 1 && j <= LastShown(eos, req, s, drafts)
    requires forall i :: 0 <= i < j ==> p[i] == q[i] == drafts[i]
    requires p[j] != q[j] && (j < |drafts| ==> p[j] == drafts[j])
    ensures StepOver(eos, req, s, drafts, p) != StepOver(eos, req, s, drafts, q)
  {
    AcceptsAtLeast(p, drafts, j);
    AcceptsAtLeast(q, drafts, j);
    var m, n := AcceptLen(p, drafts), AcceptLen(q, drafts);
    CommitGrows(eos, req, s, drafts[..m], p[m]);
    CommitGrows(eos, req, s, drafts[..n], q[n]);
    if j < |drafts| {
      AcceptsAtLeast(p, drafts, j + 1);
      hide Commit, AcceptLen;
      assert |StepOver(eos, req, s, drafts, p).cache| > |StepOver(eos, req, s, drafts, q).cache|;
    } else {
      BonusShows(eos, req, s, drafts, p[j]);
      BonusShows(eos, req, s, drafts, q[j]);
      hide Commit, AcceptLen, Unstopped;
      assert drafts[..j] == drafts;
      assert (s.sent + drafts + [p[j]])[|s.sent| + j] != (s.sent + drafts + [q[j]])[|s.sent| + j];
    }
  }

  lemma BonusShows(eos: set<Token>, req: Request, s: Stream, drafts: seq<Token>, bonus: Token)
    requires s.generated < req.maxNew && Unstopped(eos, req, s.generated, drafts) == |drafts|
    ensures Commit(eos, req, s, drafts, bonus).sent == s.sent + drafts + [bonus]
  {
    var acc := drafts + [bonus];
    EmitIsCut(eos, req, s.generated, drafts, bonus);
    CutReaches(eos, req, s.generated, drafts, acc, |drafts|);
    hide Emit, Cut, Unstopped, SchemaAdvance, RememberAll;
    assert acc[..|drafts| + 1] == acc;
    assert s.sent + (drafts + [bonus]) == s.sent + drafts + [bonus];
  }

  // ------------------------------------------------------------------ the table

  /** One more token leaves the table's meaning alone exactly when it is full and does not list it. */
  lemma PushKept(e: seq<Penalty.Entry>, t: Token)
    requires Penalty.Proper(e)
    ensures Penalty.Meaning(e) <= Penalty.Meaning(Penalty.Push(e, t))
    ensures Penalty.Meaning(Penalty.Push(e, t)) == Penalty.Meaning(e)
       <==> |e| >= Penalty.MAX_PEN_TOKENS && t !in Penalty.Meaning(e)
    ensures Penalty.Meaning(Penalty.Push(e, t)) == Penalty.Meaning(e) ==> Penalty.Push(e, t) == e
  {
    Penalty.PushMeaning(e, t);
    hide Penalty.Meaning, Penalty.Push, Penalty.Proper;
    var m := Penalty.Meaning(e);
    assert m <= m + multiset{t} && (m + multiset{t})[t] == m[t] + 1;
  }

  lemma Between(a: multiset<Token>, b: multiset<Token>, c: multiset<Token>)
    requires a <= b <= c
    ensures a <= c && (a == c <==> a == b && b == c)
  {
    if a == c {
      assert forall t :: a[t] <= b[t] <= c[t];
    }
  }

  /** Drafts leave the table's meaning alone exactly when it is full and lists none of them. */
  lemma {:induction false} TableKept(e: seq<Penalty.Entry>, ts: seq<Token>)
    requires Penalty.Proper(e)
    ensures Penalty.Meaning(e) <= Penalty.Meaning(Penalty.PushAll(e, ts))
    ensures Penalty.Meaning(Penalty.PushAll(e, ts)) == Penalty.Meaning(e)
       <==> ts == [] || (|e| >= Penalty.MAX_PEN_TOKENS && forall t :: t in ts ==> t !in Penalty.Meaning(e))
    ensures Penalty.Meaning(Penalty.PushAll(e, ts)) == Penalty.Meaning(e) ==> Penalty.PushAll(e, ts) == e
    decreases |ts|
  {
    if ts == [] {
      Penalty.PushAllNone(e);
    } else {
      hide *;
      var init, t := ts[..|ts| - 1], ts[|ts| - 1];
      assert ts == init + [t];
      var e1 := Penalty.PushAll(e, init);
      TableKept(e, init);
      Penalty.PushAllProper(e, init);
      Penalty.PushAllSnoc(e, init, t);
      PushKept(e1, t);
      Between(Penalty.Meaning(e), Penalty.Meaning(e1), Penalty.Meaning(Penalty.Push(e1, t)));
      if init == [] {
        Penalty.PushAllNone(e);
      }
    }
  }

  /** The lane's penalty table is full and none of these drafts is listed in it. */
  ghost predicate Unlisted(history: seq<Token>, drafts: seq<Token>) {
    var e := Penalty.DecodeTable(history);
    drafts == [] || (|e| >= Penalty.MAX_PEN_TOKENS && forall t :: t in drafts ==> t !in Penalty.Meaning(e))
  }

  lemma UnlistedKeeps(history: seq<Token>, drafts: seq<Token>, j: nat)
    requires j <= |drafts| < Penalty.MAX_VERIFY
    ensures Penalty.Meaning(Penalty.Column(history, drafts, j)) == Penalty.Meaning(Penalty.DecodeTable(history))
       <==> Unlisted(history, drafts[..j])
  {
    Penalty.DecodeTableMeaning(history);
    TableKept(Penalty.DecodeTable(history), drafts[..j]);
  }

  // ------------------------------------------------------------------ exactly

  /** A network that never leaves an armed mask. */
  ghost predicate Obeys(net: Network) {
    forall m, pen, mask: Option<set<Token>> :: mask.Some? && mask.value != {} ==> net.pick(m, pen, mask) in mask.value
  }

  ghost function SomeOf(ts: set<Token>): (t: Token)
    ensures ts != {} ==> t in ts
  {
    if ts == {} then 0 else var t :| t in ts; t
  }

  ghost predicate PackedForEveryNetwork(eos: set<Token>, req: Request, s: Stream, drafts: seq<Token>) {
    forall net :: Obeys(net) ==> PackedStep(net, eos, req, s, drafts) == Chain(net, eos, req, s, drafts)
  }

  /** What a caller can check: no schema, and either no penalties or no shown draft the table lists. */
  ghost predicate PacksFaithfully(eos: set<Token>, req: Request, s: Stream, drafts: seq<Token>) {
    && req.schema.None?
    && (req.penalized ==> forall j :: 1 <= j <= LastShown(eos, req, s, drafts) ==> Unlisted(s.history, drafts[..j]))
  }

  /** Without a schema the chain step is a step over its own columns, too. */
  lemma ChainIsStepOver(net: Network, eos: set<Token>, req: Request, s: Stream, drafts: seq<Token>)
    requires req.schema.None?
    ensures Chain(net, eos, req, s, drafts) == StepOver(eos, req, s, drafts, Preds(net, req, s, drafts))
    ensures Unmasked(req) == req
  {
    hide Commit, Preds, AcceptLen;
  }

  lemma FaithfulPacks(net: Network, eos: set<Token>, req: Request, s: Stream, drafts: seq<Token>)
    requires s.generated < req.maxNew && |drafts| < Penalty.MAX_VERIFY && PacksFaithfully(eos, req, s, drafts)
    ensures PackedStep(net, eos, req, s, drafts) == Chain(net, eos, req, s, drafts)
  {
    ChainIsStepOver(net, eos, req, s, drafts);
    hide Chain, StepOver;
    forall j | 0 <= j <= LastShown(eos, req, s, drafts)
      ensures Preds(net, req, s, drafts)[j] == StalePreds(net, req, s, drafts)[j]
    {
      UnlistedKeeps(s.history, drafts, j);
      assert drafts[..0] == [];
      hide Fold, LastShown, Penalty.Column, Penalty.DecodeTable, Penalty.Meaning, Unlisted;
    }
    ShownDecides(eos, req, s, drafts, Preds(net, req, s, drafts), StalePreds(net, req, s, drafts));
  }

  /** Asks for an allowed token under a mask and for t without one. */
  ghost function MaskTeller(t: Token): (net: Network)
    ensures Obeys(net)
  {
    Network(0, (g, r, x) => 0, (g, r, x) => 0,
      (m: Mem, pen: multiset<Token>, mask: Option<set<Token>>) => if mask.None? then t else SomeOf(mask.value))
  }

  /** The first token of any step is column 0's choice. */
  lemma FirstSent(eos: set<Token>, req: Request, s: Stream, path: seq<Token>, bonus: Token)
    requires s.generated < req.maxNew
    ensures var c := Commit(eos, req, s, path, bonus).sent;
            |c| > |s.sent| && c[|s.sent|] == (path + [bonus])[0]
  {
    EmitShape(eos, req, s.generated, path, bonus);
    hide Emit, SchemaAdvance, RememberAll, Stops;
  }

  lemma SchemaTells(eos: set<Token>, req: Request, s: Stream, drafts: seq<Token>)
    requires s.generated < req.maxNew && req.schema.Some?
    ensures !PackedForEveryNetwork(eos, req, s, drafts)
  {
    var t := SomeOf(Mask(req, s.schemaState).value);
    var net := MaskTeller(t + 1);
    var p, q := Preds(net, req, s, drafts), StalePreds(net, req, s, drafts);
    var m, n := Accepted(net, req, s, drafts), AcceptLen(q, drafts);
    assert drafts[..0] == [] && StateAfter(req, s.schemaState, []) == s.schemaState;
    assert p[0] == t && q[0] == t + 1;
    FirstSent(eos, req, s, drafts[..m], p[m]);
    FirstSent(eos, Unmasked(req), s, drafts[..n], q[n]);
    RunAt(net, req, s, drafts, 0);
    hide Commit, Preds, StalePreds, AcceptLen, Accepted, MaskTeller;
    RunToken(drafts, q, n, 0);
    assert PackedStep(net, eos, req, s, drafts) != Chain(net, eos, req, s, drafts);
  }

  /** Keeps to a mask; else accepts the first t drafts, then answers x to one table and x + 1 to any
      other. */
  ghost function Tell(base: nat, drafts: seq<Token>, t: nat, table: multiset<Token>, x: Token,
                      rows: nat, pen: multiset<Token>, mask: Option<set<Token>>): Token
    requires t <= |drafts|
  {
    if mask.Some? then SomeOf(mask.value)
    else if base <= rows < base + t then drafts[rows - base]
    else if pen == table then x else x + 1
  }

  ghost function TableTeller(base: nat, drafts: seq<Token>, t: nat, table: multiset<Token>, x: Token): (net: Network)
    requires t <= |drafts|
    ensures Obeys(net)
  {
    Network(0, (g, r, y) => 0, (g, r, y) => 0,
      (m: Mem, pen: multiset<Token>, mask: Option<set<Token>>) => Tell(base, drafts, t, table, x, |m.rows|, pen, mask))
  }

  lemma TellerPreds(req: Request, s: Stream, drafts: seq<Token>, t: nat, x: Token, j: nat)
    requires j <= t <= |drafts| < Penalty.MAX_VERIFY && req.penalized && req.schema.None? && !Unlisted(s.history, drafts[..t])
    ensures var net := TableTeller(|s.cache| + 1, drafts, t, Penalty.Meaning(Penalty.Column(s.history, drafts, t)), x);
            if j < t then Pred(net, req, s, drafts, j) == StalePred(net, req, s, drafts, j) == drafts[j]
            else Pred(net, req, s, drafts, j) == x && StalePred(net, req, s, drafts, j) == x + 1
  {
    var table := Penalty.Meaning(Penalty.Column(s.history, drafts, t));
    var net := TableTeller(|s.cache| + 1, drafts, t, table, x);
    var m := Fold(net, s.cache + [s.last] + drafts[..j]);
    UnlistedKeeps(s.history, drafts, t);
    FoldLength(net, s.cache + [s.last] + drafts[..j]);
    hide Fold, TableTeller, Penalty.Column, Penalty.DecodeTable, Penalty.Meaning, Unlisted;
    TellAt(|s.cache| + 1, drafts, t, table, x, m, Penalty.Meaning(Penalty.Column(s.history, drafts, j)), j);
    TellAt(|s.cache| + 1, drafts, t, table, x, m, Penalty.Meaning(Penalty.DecodeTable(s.history)), j);
  }

  lemma TellAt(base: nat, drafts: seq<Token>, t: nat, table: multiset<Token>, x: Token, m: Mem, pen: multiset<Token>, j: nat)
    requires j <= t <= |drafts| && |m.rows| == base + j
    ensures TableTeller(base, drafts, t, table, x).pick(m, pen, None)
         == if j < t then drafts[j] else if pen == table then x else x + 1
  {
  }

  lemma TableTells(eos: set<Token>, req: Request, s: Stream, drafts: seq<Token>, t: nat)
    requires s.generated < req.maxNew && |drafts| < Penalty.MAX_VERIFY && req.schema.None? && req.penalized
    requires 1 <= t <= LastShown(eos, req, s, drafts) && !Unlisted(s.history, drafts[..t])
    ensures !PackedForEveryNetwork(eos, req, s, drafts)
  {
    var x := if t < |drafts| then drafts[t] else 0;
    var net := TableTeller(|s.cache| + 1, drafts, t, Penalty.Meaning(Penalty.Column(s.history, drafts, t)), x);
    var p, q := Preds(net, req, s, drafts), StalePreds(net, req, s, drafts);
    ChainIsStepOver(net, eos, req, s, drafts);
    forall j | 0 <= j <= t
      ensures if j < t then p[j] == q[j] == drafts[j] else p[j] == x && q[j] == x + 1
    {
      TellerPreds(req, s, drafts, t, x, j);
      hide TableTeller, Pred, StalePred, Unlisted;
    }
    hide TableTeller, Preds, StalePreds, Chain, StepOver, Unlisted;
    ShownTells(eos, req, s, drafts, p, q, t);
  }

  /** Packing changes nothing for any network that keeps to its masks exactly for lanes without a schema whose penalty
      table, if they have one, lists none of the shown drafts and has no room for them. */
  lemma PackedIsChainExactly(eos: set<Token>, req: Request, s: Stream, drafts: seq<Token>)
    requires s.generated < req.maxNew && |drafts| < Penalty.MAX_VERIFY
    ensures PackedForEveryNetwork(eos, req, s, drafts) <==> PacksFaithfully(eos, req, s, drafts)
  {
    hide PackedStep, Chain, Unlisted;
    if PacksFaithfully(eos, req, s, drafts) {
      forall net | Obeys(net) ensures PackedStep(net, eos, req, s, drafts) == Chain(net, eos, req, s, drafts) {
        FaithfulPacks(net, eos, req, s, drafts);
      }
    } else if req.schema.Some? {
      SchemaTells(eos, req, s, drafts);
    } else {
      var t: nat :| 1 <= t <= LastShown(eos, req, s, drafts) && !Unlisted(s.history, drafts[..t]);
      TableTells(eos, req, s, drafts, t);
    }
  }

  /** Packed, every schema lane can be sent any token its mask forbids, by a network that never
      leaves a mask. */
  lemma PackedLeavesSchema(eos: set<Token>, req: Request, s: Stream, drafts: seq<Token>, t: Token) returns (net: Network)
    requires s.generated < req.maxNew && req.schema.Some?
    ensures Obeys(net) && |PackedStep(net, eos, req, s, drafts).sent| > |s.sent|
    ensures PackedStep(net, eos, req, s, drafts).sent[|s.sent|] == t
  {
    net := MaskTeller(t);
    var q := StalePreds(net, req, s, drafts);
    var n := AcceptLen(q, drafts);
    assert q[0] == t;
    FirstSent(eos, Unmasked(req), s, drafts[..n], q[n]);
    hide Commit, StalePreds, AcceptLen;
    RunToken(drafts, q, n, 0);
  }
}
