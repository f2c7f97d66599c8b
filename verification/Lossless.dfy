// Speculation is lossless: a chain step with any drafts emits the plain greedy stream.

module Lossless {
  import opened Wrappers
  import opened Trunk
  import opened GreedyLane
  import Penalty

  // ------------------------------------------------------------------ states along a draft prefix

  lemma {:induction false} RememberAllShort(history: seq<Token>, ts: seq<Token>)
    requires |history| + |ts| <= HISTORY_CAP
    ensures RememberAll(history, ts) == history + ts
    decreases |ts|
  {
    if ts != [] {
      RememberAllShort(history + [ts[0]], ts[1..]);
      assert history + [ts[0]] + ts[1..] == history + ts;
    } else {
      assert history + ts == history;
    }
  }

  lemma {:induction false} TakeAllSnoc(eos: set<Token>, req: Request, s: Stream, ts: seq<Token>, t: Token)
    ensures TakeAll(eos, req, s, ts + [t]) == Take(eos, req, TakeAll(eos, req, s, ts), t)
    decreases |ts|
  {
    if ts == [] {
      assert ts + [t] == [t];
      assert [t][1..] == [];
    } else {
      TakeAllSnoc(eos, req, Take(eos, req, s, ts[0]), ts[1..], t);
      assert (ts + [t])[1..] == ts[1..] + [t];
    }
  }

  lemma SchemaOne(req: Request, st: nat, t: Token)
    ensures SchemaAdvance(req, st, [t]) ==
            match req.schema
            case None => (st, false)
            case Some(sm) => (match sm.step(st, t) case None => (st, true) case Some(st') => (st', sm.complete(st')))
  {
    assert [t][1..] == [];
  }

  /** Inside the valid prefix the schema machine takes the same steps one token at a time. */
  lemma {:induction false} SchemaAlongPrefix(eos: set<Token>, req: Request, s: Stream, drafts: seq<Token>, j: nat)
    requires j <= ValidLen(req, s.schemaState, drafts)
    ensures TakeAll(eos, req, s, drafts[..j]).schemaState == StateAfter(req, s.schemaState, drafts[..j])
    decreases j
  {
    if j > 0 {
      assert drafts[..j][1..] == drafts[1..][..j - 1];
      assert drafts[..j][0] == drafts[0];
      SchemaOne(req, s.schemaState, drafts[0]);
      SchemaAlongPrefix(eos, req, Take(eos, req, s, drafts[0]), drafts[1..], j - 1);
    }
  }

  /** Verify column `j` predicts exactly what plain decode chooses after the first j drafts. */
  lemma ColumnPredictsDecode(net: Network, eos: set<Token>, req: Request, s: Stream, drafts: seq<Token>, j: nat)
    requires |drafts| < Penalty.MAX_VERIFY && j <= ValidLen(req, s.schemaState, drafts)
    requires req.penalized ==> j == 0 || |s.history| + j <= Penalty.MAX_PEN_TOKENS
    ensures Choose(net, req, TakeAll(eos, req, s, drafts[..j])) == Pred(net, req, s, drafts, j)
  {
    var ds := drafts[..j];
    var sj := TakeAll(eos, req, s, ds);
    SchemaAlongPrefix(eos, req, s, drafts, j);
    if j == 0 {
      assert s.cache + [s.last] + ds == s.cache + [s.last];
    } else {
      TakeAllIs(eos, req, s, ds);
      assert sj.cache + [sj.last] == s.cache + [s.last] + ds;
    }
    if req.penalized {
      if j > 0 {
        RememberAllShort(s.history, ds);
      }
      Penalty.ColumnMatchesDecode(s.history, ds);
      assert s.history + [] == s.history;
    }
  }

  /** Tokens that are plain decode's choice one after the other are what it follows. */
  lemma {:induction false} FollowsFrom(net: Network, eos: set<Token>, req: Request, s: Stream, ts: seq<Token>, j: nat)
    requires j <= |ts|
    requires forall i :: j <= i < |ts| ==> ts[i] == Choose(net, req, TakeAll(eos, req, s, ts[..i]))
    ensures Follows(net, eos, req, TakeAll(eos, req, s, ts[..j]), ts[j..])
    decreases |ts| - j
  {
    hide Choose, Take;
    if j < |ts| {
      FollowsFrom(net, eos, req, s, ts, j + 1);
      assert ts[..j + 1] == ts[..j] + [ts[j]];
      TakeAllSnoc(eos, req, s, ts[..j], ts[j]);
      assert ts[j..][1..] == ts[j + 1..];
    }
  }

  // ------------------------------------------------------------------ stopping

  /** The schema turn does not end before the last token of `ts`. */
  ghost predicate QuietUntilLast(req: Request, st: nat, ts: seq<Token>)
    decreases |ts|
  {
    |ts| <= 1 ||
    var (st', done) := SchemaAdvance(req, st, ts[..1]);
    !done && QuietUntilLast(req, st', ts[1..])
  }

  lemma {:induction false} SchemaAdvanceSteps(eos: set<Token>, req: Request, s: Stream, ts: seq<Token>)
    requires ts != [] && QuietUntilLast(req, s.schemaState, ts)
    ensures TakeAll(eos, req, s, ts).schemaState == SchemaAdvance(req, s.schemaState, ts).0
    ensures TakeAll(eos, req, s, ts).finished
        <==> (Stops(eos, req, s.generated + |ts|, ts[|ts| - 1])
              || (req.schema.Some? && SchemaAdvance(req, s.schemaState, ts).1))
    decreases |ts|
  {
    assert ts[..1] == [ts[0]];
    if |ts| == 1 {
      assert ts == [ts[0]];
    } else {
      var s1 := Take(eos, req, s, ts[0]);
      assert SchemaAdvance(req, s.schemaState, [ts[0]]).0 == s1.schemaState;
      SchemaAdvanceSteps(eos, req, s1, ts[1..]);
      SchemaOne(req, s.schemaState, ts[0]);
    }
  }

  /** Plain decode along its own choices: it takes all of them if nothing stops it early. */
  lemma {:induction false} DecodesFollow(net: Network, eos: set<Token>, req: Request, s: Stream, ts: seq<Token>)
    requires !s.finished && Follows(net, eos, req, s, ts) && QuietUntilLast(req, s.schemaState, ts)
    requires forall j :: 0 <= j < |ts| - 1 ==> !Stops(eos, req, s.generated + j + 1, ts[j])
    ensures Decodes(net, eos, req, s, |ts|) == TakeAll(eos, req, s, ts)
    ensures forall j :: 0 <= j < |ts| ==> !Decodes(net, eos, req, s, j).finished
    decreases |ts|
  {
    if ts != [] {
      var s1 := Take(eos, req, s, ts[0]);
      assert s1 == Decode(net, eos, req, s);
      if |ts| == 1 {
        assert ts[1..] == [];
      } else {
        assert ts[..1] == [ts[0]];
        assert !Stops(eos, req, s.generated + 1, ts[0]);
        forall j | 0 <= j < |ts| - 2 ensures !Stops(eos, req, s1.generated + j + 1, ts[1..][j]) {
          assert ts[1..][j] == ts[j + 1];
          assert !Stops(eos, req, s.generated + (j + 1) + 1, ts[j + 1]);
        }
        DecodesFollow(net, eos, req, s1, ts[1..]);
        forall j | 0 <= j < |ts| ensures !Decodes(net, eos, req, s, j).finished {
          if j > 0 {
            assert Decodes(net, eos, req, s, j) == Decodes(net, eos, req, s1, j - 1);
          }
        }
      }
    }
  }

  // ------------------------------------------------------------------ one step

  /** A column is only trusted while the penalty window has room for it. */
  ghost predicate WindowOk(req: Request, s: Stream, accepted: nat) {
    req.penalized && accepted > 0 ==> |s.history| + accepted <= Penalty.MAX_PEN_TOKENS
  }

  /** Equal lanes up to the cache, which may only be longer, and only once finished. */
  ghost predicate SameLane(chain: Stream, plain: Stream) {
    && chain.(cache := plain.cache) == plain
    && plain.cache <= chain.cache
    && (!chain.finished ==> chain.cache == plain.cache)
  }

  /** The accepted drafts plus the bonus token. */
  function AcceptedRun(net: Network, req: Request, s: Stream, drafts: seq<Token>): seq<Token> {
    var nacc := Accepted(net, req, s, drafts);
    drafts[..nacc] + [Preds(net, req, s, drafts)[nacc]]
  }

  /** Tokens one chain step emits. */
  function NewTokens(net: Network, eos: set<Token>, req: Request, s: Stream, drafts: seq<Token>): seq<Token> {
    var nacc := Accepted(net, req, s, drafts);
    Emit(eos, req, s.generated, drafts[..nacc], Preds(net, req, s, drafts)[nacc]).0
  }

  lemma AcceptedRunChosen(net: Network, eos: set<Token>, req: Request, s: Stream, drafts: seq<Token>)
    requires |drafts| < Penalty.MAX_VERIFY && WindowOk(req, s, Accepted(net, req, s, drafts))
    ensures Follows(net, eos, req, s, AcceptedRun(net, req, s, drafts))
  {
    var nacc, acc := Accepted(net, req, s, drafts), AcceptedRun(net, req, s, drafts);
    forall j | 0 <= j < |acc| ensures acc[j] == Choose(net, req, TakeAll(eos, req, s, acc[..j])) {
      hide Choose, TakeAll;
      assert acc[..j] == drafts[..j];
      ColumnPredictsDecode(net, eos, req, s, drafts, j);
      assert Preds(net, req, s, drafts)[j] == Pred(net, req, s, drafts, j);
    }
    FollowsFrom(net, eos, req, s, acc, 0);
    assert acc[..0] == [] && acc[0..] == acc;
  }

  /** Plain decode follows a token list as far as the emit loop lets it through. */
  lemma EmitFollows(net: Network, eos: set<Token>, req: Request, s: Stream, path: seq<Token>, bonus: Token)
    requires s.generated < req.maxNew && Follows(net, eos, req, s, path + [bonus])
    ensures var toks := Emit(eos, req, s.generated, path, bonus).0;
            && 1 <= |toks| <= |path| + 1
            && Follows(net, eos, req, s, toks)
            && forall j :: 0 <= j < |toks| - 1 ==> !Stops(eos, req, s.generated + j + 1, toks[j])
  {
    var acc, toks := path + [bonus], Emit(eos, req, s.generated, path, bonus).0;
    EmitIsCut(eos, req, s.generated, path, bonus);
    FollowsPrefix(net, eos, req, s, acc, |toks|);
    assert acc[..|toks|] == toks;
    CutStops(eos, req, s.generated, acc);
  }

  /** What the emit loop lets through: a nonempty prefix that ends at the first stop. */
  lemma EmitShape(eos: set<Token>, req: Request, g: nat, path: seq<Token>, bonus: Token)
    requires g < req.maxNew
    ensures var (toks, hit) := Emit(eos, req, g, path, bonus);
            && toks != [] && toks <= path + [bonus]
            && (Stops(eos, req, g + |toks|, toks[|toks| - 1]) <==> hit || g + |toks| >= req.maxNew)
            && (!Stops(eos, req, g + |toks|, toks[|toks| - 1]) ==> toks == path + [bonus])
  {
    EmitIsCut(eos, req, g, path, bonus);
    CutStops(eos, req, g, path + [bonus]);
    hide Emit, Cut;
  }

  /** A commit's bookkeeping is plain decode's, token by token. */
  lemma CommitTakes(eos: set<Token>, req: Request, s: Stream, path: seq<Token>, bonus: Token)
    requires s.generated < req.maxNew
    requires QuietUntilLast(req, s.schemaState, Emit(eos, req, s.generated, path, bonus).0)
    ensures SameLane(Commit(eos, req, s, path, bonus),
                     TakeAll(eos, req, s, Emit(eos, req, s.generated, path, bonus).0))
  {
    hide TakeAll, SchemaAdvance, Emit, QuietUntilLast, RememberAll, Stops;
    var toks := Emit(eos, req, s.generated, path, bonus).0;
    EmitShape(eos, req, s.generated, path, bonus);
    TakeAllIs(eos, req, s, toks);
    SchemaAdvanceSteps(eos, req, s, toks);
    CommitCache(s.cache, s.last, path, bonus, toks);
    SchemaNone(req, s.schemaState, toks);
  }

  lemma SchemaNone(req: Request, st: nat, ts: seq<Token>)
    ensures req.schema.None? ==> SchemaAdvance(req, st, ts) == (st, false)
  {
  }

  lemma CommitCache(cache: seq<Token>, last: Token, path: seq<Token>, bonus: Token, toks: seq<Token>)
    requires toks != [] && toks <= path + [bonus]
    ensures cache + [last] + toks[..|toks| - 1] <= cache + [last] + path
    ensures toks == path + [bonus] ==>
              toks[..|toks| - 1] == path && toks[|toks| - 1] == bonus
  {
    assert toks[..|toks| - 1] == (path + [bonus])[..|toks| - 1] == path[..|toks| - 1];
  }

  /** One verified step over choices of plain decode is that many steps of plain decode. */
  lemma CommitIsPlain(net: Network, eos: set<Token>, req: Request, s: Stream, path: seq<Token>, bonus: Token)
    requires !s.finished && s.generated < req.maxNew && Follows(net, eos, req, s, path + [bonus])
    requires QuietUntilLast(req, s.schemaState, Emit(eos, req, s.generated, path, bonus).0)
    ensures var k := |Emit(eos, req, s.generated, path, bonus).0|;
            && k >= 1
            && SameLane(Commit(eos, req, s, path, bonus), Decodes(net, eos, req, s, k))
            && forall j :: 0 <= j < k ==> !Decodes(net, eos, req, s, j).finished
  {
    EmitFollows(net, eos, req, s, path, bonus);
    CommitTakes(eos, req, s, path, bonus);
    DecodesFollow(net, eos, req, s, Emit(eos, req, s.generated, path, bonus).0);
  }

  /** One chain step with any drafts is |new tokens| steps of plain decode: the same tokens,
      the same finish point, the same lane, provided no schema document ends mid-step. */
  lemma ChainIsPlain(net: Network, eos: set<Token>, req: Request, s: Stream, drafts: seq<Token>)
    requires !s.finished && s.generated < req.maxNew && |drafts| < Penalty.MAX_VERIFY
    requires WindowOk(req, s, Accepted(net, req, s, drafts))
    requires QuietUntilLast(req, s.schemaState, NewTokens(net, eos, req, s, drafts))
    ensures var k := |NewTokens(net, eos, req, s, drafts)|;
            && k >= 1
            && SameLane(Chain(net, eos, req, s, drafts), Decodes(net, eos, req, s, k))
            && forall j :: 0 <= j < k ==> !Decodes(net, eos, req, s, j).finished
  {
    var nacc := Accepted(net, req, s, drafts);
    AcceptedRunChosen(net, eos, req, s, drafts);
    CommitIsPlain(net, eos, req, s, drafts[..nacc], Preds(net, req, s, drafts)[nacc]);
  }

  // ------------------------------------------------------------------ whole runs

  /** What the scheduler may do to a greedy lane in one step. */
  datatype Move = Plain | Speculate(drafts: seq<Token>)

  function Moved(net: Network, eos: set<Token>, req: Request, s: Stream, m: Move): Stream {
    if s.finished then s
    else match m
      case Plain => Decode(net, eos, req, s)
      case Speculate(drafts) => Chain(net, eos, req, s, drafts)
  }

  function Run(net: Network, eos: set<Token>, req: Request, s: Stream, ms: seq<Move>): Stream {
    if ms == [] then s else Moved(net, eos, req, Run(net, eos, req, s, ms[..|ms| - 1]), ms[|ms| - 1])
  }

  /** Every speculative step of the run respects the width and the exactness conditions. */
  ghost predicate RunOk(net: Network, eos: set<Token>, req: Request, s: Stream, ms: seq<Move>)
    decreases |ms|
  {
    ms == [] ||
    var before := Run(net, eos, req, s, ms[..|ms| - 1]);
    && RunOk(net, eos, req, s, ms[..|ms| - 1])
    && (ms[|ms| - 1].Speculate? && !before.finished ==>
          var drafts := ms[|ms| - 1].drafts;
          && |drafts| < Penalty.MAX_VERIFY
          && WindowOk(req, before, Accepted(net, req, before, drafts))
          && QuietUntilLast(req, before.schemaState, NewTokens(net, eos, req, before, drafts)))
  }

  lemma {:induction false} DecodesAdd(net: Network, eos: set<Token>, req: Request, s: Stream, m: nat, n: nat)
    ensures Decodes(net, eos, req, Decodes(net, eos, req, s, m), n) == Decodes(net, eos, req, s, m + n)
    decreases m
  {
    hide Decode;
    if m > 0 && !s.finished {
      DecodesAdd(net, eos, req, Decode(net, eos, req, s), m - 1, n);
    }
  }

  lemma {:induction false} DecodesBudget(net: Network, eos: set<Token>, req: Request, s: Stream, n: nat)
    requires s.finished || s.generated < req.maxNew
    ensures var r := Decodes(net, eos, req, s, n); r.finished || r.generated < req.maxNew
    decreases n
  {
    if n > 0 && !s.finished {
      DecodesBudget(net, eos, req, Decode(net, eos, req, s), n - 1);
    }
  }

  /** One step of a run is some plain steps. */
  lemma MoveIsPlain(net: Network, eos: set<Token>, req: Request, s: Stream, m: Move) returns (k: nat)
    requires !s.finished && s.generated < req.maxNew
    requires m.Speculate? ==>
               && |m.drafts| < Penalty.MAX_VERIFY && WindowOk(req, s, Accepted(net, req, s, m.drafts))
               && QuietUntilLast(req, s.schemaState, NewTokens(net, eos, req, s, m.drafts))
    ensures k > 0 && SameLane(Moved(net, eos, req, s, m), Decodes(net, eos, req, s, k))
  {
    hide NewTokens, QuietUntilLast, Accepted, WindowOk;
    if m.Speculate? {
      k := |NewTokens(net, eos, req, s, m.drafts)|;
      ChainIsPlain(net, eos, req, s, m.drafts);
      hide Chain, Decodes;
    } else {
      k := 1;
      assert Decodes(net, eos, req, s, 1) == Decode(net, eos, req, s);
    }
  }

  /** For every drafter and every mix of plain and speculative steps, the lane is the one plain
      decode reaches: the same tokens, in the same order, up to the same finish point. */
  lemma {:induction false} SpeculationIsLossless(net: Network, eos: set<Token>, req: Request, s: Stream, ms: seq<Move>)
    returns (n: nat)
    requires !s.finished && s.generated < req.maxNew && RunOk(net, eos, req, s, ms)
    ensures SameLane(Run(net, eos, req, s, ms), Decodes(net, eos, req, s, n))
    ensures |ms| <= n || Run(net, eos, req, s, ms).finished
    decreases |ms|
  {
    hide Moved, NewTokens, QuietUntilLast, Accepted, WindowOk;
    if ms == [] {
      n := 0;
    } else {
      hide Decodes;
      var init, m := ms[..|ms| - 1], ms[|ms| - 1];
      n := SpeculationIsLossless(net, eos, req, s, init);
      var before := Run(net, eos, req, s, init);
      if before.finished {
        FinishedStays(net, eos, req, before, m);
      } else {
        assert before == Decodes(net, eos, req, s, n);
        DecodesBudget(net, eos, req, s, n);
        var k := MoveIsPlain(net, eos, req, before, m);
        DecodesAdd(net, eos, req, s, n, k);
        n := n + k;
      }
    }
  }

  lemma FinishedStays(net: Network, eos: set<Token>, req: Request, s: Stream, m: Move)
    requires s.finished
    ensures Moved(net, eos, req, s, m) == s
  {
  }

  /** Without penalties and without a schema the conditions of a run are free. */
  lemma {:induction false} UnconstrainedRunOk(net: Network, eos: set<Token>, req: Request, s: Stream, ms: seq<Move>)
    requires !req.penalized && req.schema.None?
    requires forall m :: m in ms && m.Speculate? ==> |m.drafts| < Penalty.MAX_VERIFY
    ensures RunOk(net, eos, req, s, ms)
    decreases |ms|
  {
    if ms != [] {
      UnconstrainedRunOk(net, eos, req, s, ms[..|ms| - 1]);
      var before := Run(net, eos, req, s, ms[..|ms| - 1]);
      if ms[|ms| - 1].Speculate? {
        NoSchemaIsQuiet(req, before.schemaState, NewTokens(net, eos, req, before, ms[|ms| - 1].drafts));
      }
    }
  }

  lemma {:induction false} NoSchemaIsQuiet(req: Request, st: nat, ts: seq<Token>)
    requires req.schema.None?
    ensures QuietUntilLast(req, st, ts)
    decreases |ts|
  {
    if |ts| > 1 {
      NoSchemaIsQuiet(req, st, ts[1..]);
    }
  }
}
