// When a chain step sends plain decode's tokens whatever the network is: exactly while every column
// it may read past still has plain decode's penalty table and the schema's turn goes on.

module ChainExact {
  import opened Wrappers
  import opened Trunk
  import opened GreedyLane
  import opened Lossless
  import Penalty

  // ------------------------------------------------------------------ the condition, before the step

  /** Leading drafts that do not end the lane by end token or budget. */
  function Unstopped(eos: set<Token>, req: Request, g: nat, drafts: seq<Token>): (n: nat)
    ensures n <= |drafts|
    decreases |drafts|
  {
    if drafts == [] || Stops(eos, req, g + 1, drafts[0]) then 0 else 1 + Unstopped(eos, req, g + 1, drafts[1..])
  }

  lemma {:induction false} UnstoppedIs(eos: set<Token>, req: Request, g: nat, drafts: seq<Token>)
    ensures var n := Unstopped(eos, req, g, drafts);
            && (forall j :: 0 <= j < n ==> !Stops(eos, req, g + j + 1, drafts[j]))
            && (n < |drafts| ==> Stops(eos, req, g + n + 1, drafts[n]))
    decreases |drafts|
  {
    if drafts != [] && !Stops(eos, req, g + 1, drafts[0]) {
      UnstoppedIs(eos, req, g + 1, drafts[1..]);
      forall j | 0 <= j < Unstopped(eos, req, g, drafts) ensures !Stops(eos, req, g + j + 1, drafts[j]) {
        if j > 0 {
          assert drafts[j] == drafts[1..][j - 1];
          assert !Stops(eos, req, (g + 1) + (j - 1) + 1, drafts[1..][j - 1]);
        }
      }
    }
  }

  /** Drafts the step can accept and still send a token after: no stop, no schema break. */
  function Reach(eos: set<Token>, req: Request, s: Stream, drafts: seq<Token>): (n: nat)
    ensures n <= |drafts|
  {
    Min(Unstopped(eos, req, s.generated, drafts), ValidLen(req, s.schemaState, drafts))
  }

  /** After j accepted drafts the schema's turn goes on and the penalty window has room. */
  ghost predicate Passable(req: Request, s: Stream, drafts: seq<Token>, j: nat)
    requires j <= |drafts|
  {
    && !SchemaAdvance(req, s.schemaState, drafts[..j]).1
    && (req.penalized ==> |s.history| + j <= Penalty.MAX_PEN_TOKENS)
  }

  ghost predicate LosslessForEveryNetwork(eos: set<Token>, req: Request, s: Stream, drafts: seq<Token>) {
    forall net :: Chain(net, eos, req, s, drafts).sent
               == Decodes(net, eos, req, s, |NewTokens(net, eos, req, s, drafts)|).sent
  }

  // ------------------------------------------------------------------ enough

  /** The schema turn ends nowhere before the last token exactly when no proper prefix ends it. */
  lemma {:induction false} QuietPrefixes(req: Request, st: nat, ts: seq<Token>)
    requires forall j :: 1 <= j < |ts| ==> !SchemaAdvance(req, st, ts[..j]).1
    ensures QuietUntilLast(req, st, ts)
    decreases |ts|
  {
    if |ts| > 1 {
      var (st', done) := SchemaAdvance(req, st, ts[..1]);
      assert ts[..1] == [ts[0]] && !done;
      SchemaOne(req, st, ts[0]);
      forall j | 1 <= j < |ts[1..]| ensures !SchemaAdvance(req, st', ts[1..][..j]).1 {
        assert ts[..j + 1][1..] == ts[1..][..j] && ts[..j + 1][0] == ts[0];
        assert !SchemaAdvance(req, st, ts[..j + 1]).1;
      }
      QuietPrefixes(req, st', ts[1..]);
    }
  }

  /** The cut of some drafts and one more token: it stops nowhere before its last token. */
  lemma CutShape(eos: set<Token>, req: Request, g: nat, drafts: seq<Token>, n: nat, bonus: Token)
    requires n <= |drafts|
    ensures var toks := Cut(eos, req, g, drafts[..n] + [bonus]);
            && toks != [] && toks <= drafts[..n] + [bonus] && |toks| - 1 <= n
            && |toks| - 1 <= Unstopped(eos, req, g, drafts) && toks[..|toks| - 1] == drafts[..|toks| - 1]
            && forall j :: 0 <= j < |toks| - 1 ==> !Stops(eos, req, g + j + 1, toks[j])
  {
    var acc := drafts[..n] + [bonus];
    var toks := Cut(eos, req, g, acc);
    CutStops(eos, req, g, acc);
    UnstoppedIs(eos, req, g, drafts);
    hide Cut, Stops, Unstopped;
    var m, u := |toks| - 1, Unstopped(eos, req, g, drafts);
    assert toks[..m] == acc[..m] == drafts[..m];
    assert forall j :: 0 <= j < m ==> toks[j] == toks[..m][j] == drafts[..m][j] == drafts[j];
  }

  /** What a step sends: some drafts within reach, then one more token of the verified run. */
  lemma SentShape(net: Network, eos: set<Token>, req: Request, s: Stream, drafts: seq<Token>)
    requires s.generated < req.maxNew
    ensures var toks := NewTokens(net, eos, req, s, drafts);
            && toks != [] && toks <= AcceptedRun(net, req, s, drafts)
            && |toks| - 1 <= Accepted(net, req, s, drafts) && |toks| - 1 <= Reach(eos, req, s, drafts)
            && toks[..|toks| - 1] == drafts[..|toks| - 1]
            && forall j :: 0 <= j < |toks| - 1 ==> !Stops(eos, req, s.generated + j + 1, toks[j])
    ensures Chain(net, eos, req, s, drafts).sent == s.sent + NewTokens(net, eos, req, s, drafts)
  {
    var nacc, preds := Accepted(net, req, s, drafts), Preds(net, req, s, drafts);
    assert nacc <= ValidLen(req, s.schemaState, drafts);
    EmitIsCut(eos, req, s.generated, drafts[..nacc], preds[nacc]);
    hide Cut, Emit, Preds, Stops, Accepted, Unstopped, ValidLen;
    CutShape(eos, req, s.generated, drafts, nacc, preds[nacc]);
  }

  /** Within a passable reach every network is decoded losslessly. */
  lemma InsideIsPlain(net: Network, eos: set<Token>, req: Request, s: Stream, drafts: seq<Token>)
    requires !s.finished && s.generated < req.maxNew && |drafts| < Penalty.MAX_VERIFY
    requires forall j :: 1 <= j <= Reach(eos, req, s, drafts) ==> Passable(req, s, drafts, j)
    ensures Chain(net, eos, req, s, drafts).sent
         == Decodes(net, eos, req, s, |NewTokens(net, eos, req, s, drafts)|).sent
  {
    hide Chain, NewTokens, Reach, Accepted, AcceptedRun, Stops, Decodes, Follows;
    var toks := NewTokens(net, eos, req, s, drafts);
    SentShape(net, eos, req, s, drafts);
    SentFollows(net, eos, req, s, drafts, toks);
    forall j | 1 <= j < |toks| ensures !SchemaAdvance(req, s.schemaState, toks[..j]).1 {
      assert Passable(req, s, drafts, j);
      assert toks[..j] == toks[..|toks| - 1][..j] == drafts[..j];
    }
    QuietPrefixes(req, s.schemaState, toks);
    DecodesFollow(net, eos, req, s, toks);
    TakeAllIs(eos, req, s, toks);
  }

  /** Every token of the verified run is its column's choice. */
  lemma RunAt(net: Network, req: Request, s: Stream, drafts: seq<Token>, j: nat)
    requires j <= Accepted(net, req, s, drafts)
    ensures j <= ValidLen(req, s.schemaState, drafts)
    ensures AcceptedRun(net, req, s, drafts)[j] == Pred(net, req, s, drafts, j)
  {
    var preds := Preds(net, req, s, drafts);
    assert preds[j] == Pred(net, req, s, drafts, j);
    hide Pred, Preds, ValidLen, AcceptLen;
    RunToken(drafts, preds, Accepted(net, req, s, drafts), j);
  }

  lemma RunToken(drafts: seq<Token>, preds: seq<Token>, n: nat, j: nat)
    requires |preds| == |drafts| + 1 && j <= n <= |drafts| && forall i :: 0 <= i < n ==> preds[i] == drafts[i]
    ensures (drafts[..n] + [preds[n]])[j] == preds[j]
  {
  }

  lemma SentChosen(net: Network, eos: set<Token>, req: Request, s: Stream, drafts: seq<Token>, j: nat)
    requires |drafts| < Penalty.MAX_VERIFY && j <= Accepted(net, req, s, drafts) && (j > 0 ==> Passable(req, s, drafts, j))
    ensures AcceptedRun(net, req, s, drafts)[j] == Choose(net, req, TakeAll(eos, req, s, drafts[..j]))
  {
    RunAt(net, req, s, drafts, j);
    hide Choose, TakeAll, SchemaAdvance, Pred, ValidLen, Accepted, AcceptedRun;
    ColumnPredictsDecode(net, eos, req, s, drafts, j);
  }

  lemma SentFollows(net: Network, eos: set<Token>, req: Request, s: Stream, drafts: seq<Token>, toks: seq<Token>)
    requires |drafts| < Penalty.MAX_VERIFY && toks != [] && toks <= AcceptedRun(net, req, s, drafts)
    requires |toks| - 1 <= Accepted(net, req, s, drafts) && toks[..|toks| - 1] == drafts[..|toks| - 1]
    requires forall j :: 1 <= j < |toks| ==> Passable(req, s, drafts, j)
    ensures Follows(net, eos, req, s, toks)
  {
    hide Choose, TakeAll, Passable, AcceptedRun, Accepted, Follows;
    forall j | 0 <= j < |toks| ensures toks[j] == Choose(net, req, TakeAll(eos, req, s, toks[..j])) {
      assert toks[..j] == toks[..|toks| - 1][..j] == drafts[..j];
      SentChosen(net, eos, req, s, drafts, j);
    }
    FollowsFrom(net, eos, req, s, toks, 0);
    TakeNone(eos, req, s);
    assert toks[..0] == [] && toks[0..] == toks;
  }

  lemma TakeNone(eos: set<Token>, req: Request, s: Stream)
    ensures TakeAll(eos, req, s, []) == s
  {
  }

  // ------------------------------------------------------------------ needed

  lemma {:induction false} RecentSurvivesDrain(history: seq<Token>, ts: seq<Token>)
    ensures Penalty.Recent(RememberAll(history, ts)) == Penalty.Recent(history + ts)
    decreases |ts|
  {
    if ts == [] {
      assert history + ts == history;
    } else {
      RecentSurvivesDrain(Remember(history, ts[0]), ts[1..]);
      assert history + ts == history + [ts[0]] + ts[1..];
      var h := history + [ts[0]];
      if |h| > HISTORY_CAP {
        assert Penalty.Recent(h[HISTORY_DRAIN..] + ts[1..]) == Penalty.Recent(h + ts[1..]);
      }
    }
  }

  /** Accepts the first `t` drafts whatever the tables say, then betrays which table it saw. */
  function Witness(base: nat, drafts: seq<Token>, t: nat, table: multiset<Token>): Network
    requires t <= |drafts|
  {
    Network(0, (g, r, x) => 0, (g, r, x) => 0,
      (m: Mem, pen, mask) =>
        if base <= |m.rows| < base + t then drafts[|m.rows| - base]
        else if pen == table then 0 else 1)
  }

  lemma WitnessPred(req: Request, s: Stream, drafts: seq<Token>, t: nat, table: multiset<Token>, j: nat)
    requires j < t <= |drafts|
    ensures Pred(Witness(|s.cache| + 1, drafts, t, table), req, s, drafts, j) == drafts[j]
  {
    FoldLength(Witness(|s.cache| + 1, drafts, t, table), s.cache + [s.last] + drafts[..j]);
    hide Fold, ColumnMask;
  }

  /** The chain accepts the t drafts, and its next token is column t's. */
  lemma WitnessAccepts(req: Request, s: Stream, drafts: seq<Token>, t: nat, table: multiset<Token>)
    requires t <= ValidLen(req, s.schemaState, drafts)
    ensures var net := Witness(|s.cache| + 1, drafts, t, table);
            && t <= Accepted(net, req, s, drafts)
            && AcceptedRun(net, req, s, drafts)[..t] == drafts[..t]
            && AcceptedRun(net, req, s, drafts)[t] == Pred(net, req, s, drafts, t)
  {
    hide Witness, Pred, Preds, ValidLen, Accepted;
    var net := Witness(|s.cache| + 1, drafts, t, table);
    WitnessAgrees(req, s, drafts, t, table);
    RunAt(net, req, s, drafts, t);
    assert drafts[..Accepted(net, req, s, drafts)][..t] == drafts[..t];
  }

  lemma WitnessAgrees(req: Request, s: Stream, drafts: seq<Token>, t: nat, table: multiset<Token>)
    requires t <= ValidLen(req, s.schemaState, drafts)
    ensures t <= Accepted(Witness(|s.cache| + 1, drafts, t, table), req, s, drafts)
  {
    var net := Witness(|s.cache| + 1, drafts, t, table);
    var preds := Preds(net, req, s, drafts);
    forall j | 0 <= j < t ensures preds[j] == drafts[j] {
      WitnessPred(req, s, drafts, t, table, j);
      assert preds[j] == Pred(net, req, s, drafts, j);
    }
    hide Witness, Pred, Preds, ValidLen, AcceptLen;
    AcceptsAtLeast(preds, drafts, t);
  }

  lemma AcceptsAtLeast(preds: seq<Token>, drafts: seq<Token>, t: nat)
    requires |preds| == |drafts| + 1 && t <= |drafts| && forall j :: 0 <= j < t ==> preds[j] == drafts[j]
    ensures t <= AcceptLen(preds, drafts)
  {
  }

  /** Plain decode takes the same t drafts. */
  lemma WitnessFollows(eos: set<Token>, req: Request, s: Stream, drafts: seq<Token>, t: nat, table: multiset<Token>)
    requires t <= |drafts|
    ensures Follows(Witness(|s.cache| + 1, drafts, t, table), eos, req, s, drafts[..t])
  {
    var net := Witness(|s.cache| + 1, drafts, t, table);
    var ts := drafts[..t];
    forall i | 0 <= i < t ensures ts[i] == Choose(net, req, TakeAll(eos, req, s, ts[..i])) {
      var si := TakeAll(eos, req, s, ts[..i]);
      if i == 0 {
        assert ts[..i] == [];
      } else {
        TakeAllIs(eos, req, s, ts[..i]);
      }
      FoldLength(net, si.cache + [si.last]);
    }
    FollowsFrom(net, eos, req, s, ts, 0);
    assert ts[..0] == [] && ts[0..] == ts;
  }

  /** A cut lets through leading drafts that do not stop, and the token after them. */
  lemma {:induction false} CutReaches(eos: set<Token>, req: Request, g: nat, drafts: seq<Token>, acc: seq<Token>, t: nat)
    requires t <= Unstopped(eos, req, g, drafts) && t < |acc| && acc[..t] == drafts[..t]
    ensures |Cut(eos, req, g, acc)| > t && Cut(eos, req, g, acc)[..t + 1] == acc[..t + 1]
    decreases t
  {
    if t > 0 {
      assert acc[0] == acc[..t][0] == drafts[..t][0] == drafts[0];
      assert acc[1..][..t - 1] == acc[..t][1..] == drafts[..t][1..] == drafts[1..][..t - 1];
      CutReaches(eos, req, g + 1, drafts[1..], acc[1..], t - 1);
    }
  }

  /** The chain sends the t drafts within reach and then at least column t's token. */
  lemma WitnessChain(eos: set<Token>, req: Request, s: Stream, drafts: seq<Token>, t: nat, table: multiset<Token>)
    requires s.generated < req.maxNew && t <= Reach(eos, req, s, drafts)
    ensures var net := Witness(|s.cache| + 1, drafts, t, table);
            var toks := NewTokens(net, eos, req, s, drafts);
            && |toks| > t && toks[..t] == drafts[..t] && toks[t] == Pred(net, req, s, drafts, t)
            && Chain(net, eos, req, s, drafts).sent == s.sent + toks
  {
    hide Witness, Emit, Chain, Accepted, Preds, Pred, Stops, Unstopped, Cut;
    var net := Witness(|s.cache| + 1, drafts, t, table);
    WitnessAccepts(req, s, drafts, t, table);
    SentShape(net, eos, req, s, drafts);
    var nacc, acc := Accepted(net, req, s, drafts), AcceptedRun(net, req, s, drafts);
    EmitIsCut(eos, req, s.generated, drafts[..nacc], Preds(net, req, s, drafts)[nacc]);
    CutReaches(eos, req, s.generated, drafts, acc, t);
    assert acc[..t + 1][..t] == acc[..t] && acc[..t + 1][t] == acc[t];
  }

  /** Plain decode only ever appends. */
  lemma {:induction false} DecodesExtends(net: Network, eos: set<Token>, req: Request, s: Stream, n: nat)
    ensures s.sent <= Decodes(net, eos, req, s, n).sent
    decreases n
  {
    if n > 0 && !s.finished {
      hide Choose;
      DecodesExtends(net, eos, req, Decode(net, eos, req, s), n - 1);
    }
  }

  /** Plain decode of the witness after the t drafts, when nothing stopped it on the way. */
  lemma WitnessPlain(eos: set<Token>, req: Request, s: Stream, drafts: seq<Token>, t: nat, table: multiset<Token>)
    requires !s.finished && 0 < t <= Reach(eos, req, s, drafts)
    requires forall j :: 1 <= j < t ==> Passable(req, s, drafts, j)
    ensures var net, st := Witness(|s.cache| + 1, drafts, t, table), TakeAll(eos, req, s, drafts[..t]);
            && Decodes(net, eos, req, s, t) == st && st.sent == s.sent + drafts[..t]
            && st.history == RememberAll(s.history, drafts[..t]) && st.cache == s.cache + [s.last] + drafts[..t - 1]
            && (st.finished <==> req.schema.Some? && SchemaAdvance(req, s.schemaState, drafts[..t]).1)
  {
    var net, ts := Witness(|s.cache| + 1, drafts, t, table), drafts[..t];
    WitnessFollows(eos, req, s, drafts, t, table);
    UnstoppedIs(eos, req, s.generated, drafts);
    hide Witness, Stops, Unstopped, Choose, Follows;
    forall j | 1 <= j < t ensures !SchemaAdvance(req, s.schemaState, ts[..j]).1 {
      assert Passable(req, s, drafts, j);
      assert ts[..j] == drafts[..j];
    }
    QuietPrefixes(req, s.schemaState, ts);
    DecodesFollow(net, eos, req, s, ts);
    TakeAllIs(eos, req, s, ts);
    SchemaAdvanceSteps(eos, req, s, ts);
    assert ts[..|ts| - 1] == drafts[..t - 1];
    assert !Stops(eos, req, s.generated + t - 1 + 1, drafts[t - 1]);
  }

  /** Where the schema's turn ends on an accepted draft, plain decode stops and the chain goes on. */
  lemma EndedTurnLoses(eos: set<Token>, req: Request, s: Stream, drafts: seq<Token>, t: nat)
    requires !s.finished && s.generated < req.maxNew && 0 < t <= Reach(eos, req, s, drafts)
    requires forall j :: 1 <= j < t ==> Passable(req, s, drafts, j)
    requires SchemaAdvance(req, s.schemaState, drafts[..t]).1
    ensures !LosslessForEveryNetwork(eos, req, s, drafts)
  {
    var net := Witness(|s.cache| + 1, drafts, t, multiset{});
    WitnessChain(eos, req, s, drafts, t, multiset{});
    WitnessPlain(eos, req, s, drafts, t, multiset{});
    EndsEarly(net, eos, req, s, drafts, t);
  }

  /** Plain decode that is over after t tokens never gets to what the chain sends next. */
  lemma EndsEarly(net: Network, eos: set<Token>, req: Request, s: Stream, drafts: seq<Token>, t: nat)
    requires t <= |drafts| && Decodes(net, eos, req, s, t).finished && Decodes(net, eos, req, s, t).sent == s.sent + drafts[..t]
    requires |NewTokens(net, eos, req, s, drafts)| > t
    requires Chain(net, eos, req, s, drafts).sent == s.sent + NewTokens(net, eos, req, s, drafts)
    ensures !LosslessForEveryNetwork(eos, req, s, drafts)
  {
    hide *;
    var toks := NewTokens(net, eos, req, s, drafts);
    StaysFinished(net, eos, req, s, t, |toks| - t);
    PartsWays(net, eos, req, s, drafts);
  }

  lemma PartsWays(net: Network, eos: set<Token>, req: Request, s: Stream, drafts: seq<Token>)
    requires Chain(net, eos, req, s, drafts).sent != Decodes(net, eos, req, s, |NewTokens(net, eos, req, s, drafts)|).sent
    ensures !LosslessForEveryNetwork(eos, req, s, drafts)
  {
    hide Chain, NewTokens, Decodes;
  }

  lemma StaysFinished(net: Network, eos: set<Token>, req: Request, s: Stream, t: nat, n: nat)
    requires Decodes(net, eos, req, s, t).finished
    ensures Decodes(net, eos, req, s, t + n) == Decodes(net, eos, req, s, t)
  {
    DecodesAdd(net, eos, req, s, t, n);
  }

  /** Past the window, the table at column t is not the one plain decode has after the t drafts. */
  lemma FullWindowLoses(eos: set<Token>, req: Request, s: Stream, drafts: seq<Token>, t: nat)
    requires !s.finished && s.generated < req.maxNew && |drafts| < Penalty.MAX_VERIFY && 0 < t <= Reach(eos, req, s, drafts)
    requires forall j :: 1 <= j < t ==> Passable(req, s, drafts, j)
    requires !SchemaAdvance(req, s.schemaState, drafts[..t]).1
    requires req.penalized && |s.history| + t > Penalty.MAX_PEN_TOKENS
    ensures !LosslessForEveryNetwork(eos, req, s, drafts)
  {
    hide *;
    var st := TakeAll(eos, req, s, drafts[..t]);
    var table := Penalty.Meaning(Penalty.DecodeTable(RememberAll(s.history, drafts[..t])));
    var net := Witness(|s.cache| + 1, drafts, t, table);
    WitnessChain(eos, req, s, drafts, t, table);
    WitnessPlain(eos, req, s, drafts, t, table);
    ColumnDiffers(s, req, drafts, t);
    WitnessTells(req, s, st, drafts, t, table);
    var toks := NewTokens(net, eos, req, s, drafts);
    PlainAppends(net, eos, req, s, st, t, |toks|);
    SentApart(s.sent, drafts[..t], toks, Decodes(net, eos, req, s, |toks|).sent);
    PartsWays(net, eos, req, s, drafts);
  }

  lemma SentApart(sent: seq<Token>, ts: seq<Token>, toks: seq<Token>, plain: seq<Token>)
    requires |toks| > |ts| && |plain| > |sent + ts| && toks[|ts|] != plain[|sent + ts|]
    ensures sent + toks != plain
  {
    assert (sent + toks)[|sent| + |ts|] == toks[|ts|];
  }

  /** The token after the first t of plain decode stands where it was sent. */
  lemma PlainAppends(net: Network, eos: set<Token>, req: Request, s: Stream, st: Stream, t: nat, n: nat)
    requires t < n && st == Decodes(net, eos, req, s, t) && !st.finished
    ensures |Decodes(net, eos, req, s, n).sent| > |st.sent|
    ensures Decodes(net, eos, req, s, n).sent[|st.sent|] == Choose(net, req, st)
  {
    var s1 := Decode(net, eos, req, st);
    assert s1.sent == st.sent + [Choose(net, req, st)];
    assert Decodes(net, eos, req, st, n - t) == Decodes(net, eos, req, s1, n - t - 1);
    hide Decode, Choose;
    DecodesAdd(net, eos, req, s, t, n - t);
    DecodesExtends(net, eos, req, s1, n - t - 1);
    assert s1.sent[|st.sent|] == Choose(net, req, st);
  }

  lemma ColumnDiffers(s: Stream, req: Request, drafts: seq<Token>, t: nat)
    requires 0 < t <= |drafts| < Penalty.MAX_VERIFY && |s.history| + t > Penalty.MAX_PEN_TOKENS
    ensures Penalty.Meaning(Penalty.Column(s.history, drafts, t))
         != Penalty.Meaning(Penalty.DecodeTable(RememberAll(s.history, drafts[..t])))
  {
    RecentSurvivesDrain(s.history, drafts[..t]);
    Penalty.ColumnMatchesDecode(s.history, drafts[..t]);
  }

  /** The witness answers 1 to the column's table and 0 to plain decode's. */
  lemma WitnessTells(req: Request, s: Stream, st: Stream, drafts: seq<Token>, t: nat, table: multiset<Token>)
    requires req.penalized && 0 < t <= |drafts|
    requires st.cache == s.cache + [s.last] + drafts[..t - 1] && Penalty.Meaning(Penalty.DecodeTable(st.history)) == table
    requires Penalty.Meaning(Penalty.Column(s.history, drafts, t)) != table
    ensures var net := Witness(|s.cache| + 1, drafts, t, table);
            Pred(net, req, s, drafts, t) == 1 && Choose(net, req, st) == 0
  {
    var net := Witness(|s.cache| + 1, drafts, t, table);
    FoldLength(net, s.cache + [s.last] + drafts[..t]);
    FoldLength(net, st.cache + [st.last]);
    hide Fold, Penalty.Meaning, Penalty.DecodeTable, Penalty.Column, ColumnMask;
  }

  // ------------------------------------------------------------------ exactly

  /** The first column within reach that may not be passed. */
  lemma {:induction false} FirstBlocked(eos: set<Token>, req: Request, s: Stream, drafts: seq<Token>, j: nat) returns (t: nat)
    requires 1 <= j <= Reach(eos, req, s, drafts) && !Passable(req, s, drafts, j)
    ensures 1 <= t <= j && !Passable(req, s, drafts, t) && forall i :: 1 <= i < t ==> Passable(req, s, drafts, i)
    decreases j
  {
    if i :| 1 <= i < j && !Passable(req, s, drafts, i) {
      t := FirstBlocked(eos, req, s, drafts, i);
    } else {
      t := j;
    }
  }

  /** A chain step sends plain decode's tokens for every network exactly when every column within
      reach is passable; drafts, stops, schema and history all stand before the step. */
  lemma ExactForEveryNetwork(eos: set<Token>, req: Request, s: Stream, drafts: seq<Token>)
    requires !s.finished && s.generated < req.maxNew && |drafts| < Penalty.MAX_VERIFY
    ensures LosslessForEveryNetwork(eos, req, s, drafts)
       <==> forall j :: 1 <= j <= Reach(eos, req, s, drafts) ==> Passable(req, s, drafts, j)
  {
    hide Chain, Decodes, NewTokens;
    if forall j :: 1 <= j <= Reach(eos, req, s, drafts) ==> Passable(req, s, drafts, j) {
      forall net
        ensures Chain(net, eos, req, s, drafts).sent
             == Decodes(net, eos, req, s, |NewTokens(net, eos, req, s, drafts)|).sent
      {
        InsideIsPlain(net, eos, req, s, drafts);
      }
    } else {
      var j: nat :| 1 <= j <= Reach(eos, req, s, drafts) && !Passable(req, s, drafts, j);
      var t := FirstBlocked(eos, req, s, drafts, j);
      if SchemaAdvance(req, s.schemaState, drafts[..t]).1 {
        EndedTurnLoses(eos, req, s, drafts, t);
      } else {
        FullWindowLoses(eos, req, s, drafts, t);
      }
    }
  }

  /** Without a schema only the penalty window counts, and only for the drafts before a stop. */
  lemma PenaltyWindowExact(eos: set<Token>, req: Request, s: Stream, drafts: seq<Token>)
    requires !s.finished && s.generated < req.maxNew && |drafts| < Penalty.MAX_VERIFY
    requires req.penalized && req.schema.None?
    ensures LosslessForEveryNetwork(eos, req, s, drafts)
       <==> var n := Unstopped(eos, req, s.generated, drafts); n == 0 || |s.history| + n <= Penalty.MAX_PEN_TOKENS
  {
    ExactForEveryNetwork(eos, req, s, drafts);
    var n := Reach(eos, req, s, drafts);
    assert n == Unstopped(eos, req, s.generated, drafts);
    hide LosslessForEveryNetwork, Unstopped;
    assert n > 0 && |s.history| + n > Penalty.MAX_PEN_TOKENS ==> !Passable(req, s, drafts, n);
  }

  /** Without penalties only the schema counts: no accepted draft may complete its document. */
  lemma SchemaExact(eos: set<Token>, req: Request, s: Stream, drafts: seq<Token>)
    requires !s.finished && s.generated < req.maxNew && |drafts| < Penalty.MAX_VERIFY && !req.penalized
    ensures LosslessForEveryNetwork(eos, req, s, drafts)
       <==> forall j :: 1 <= j <= Reach(eos, req, s, drafts) ==> !SchemaAdvance(req, s.schemaState, drafts[..j]).1
  {
    ExactForEveryNetwork(eos, req, s, drafts);
    hide LosslessForEveryNetwork, Reach;
    forall j | 1 <= j <= Reach(eos, req, s, drafts)
      ensures Passable(req, s, drafts, j) <==> !SchemaAdvance(req, s.schemaState, drafts[..j]).1
    {
    }
  }
}
