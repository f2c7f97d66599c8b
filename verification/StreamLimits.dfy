// Where the chain step and plain decode part ways: an exhausted budget at entry, and a schema
// document that ends on an accepted draft.

module StreamLimits {
  import opened Wrappers
  import opened Trunk
  import opened GreedyLane
  import opened Lossless
  import Penalty

  lemma {:induction false} DecodesSends(net: Network, eos: set<Token>, req: Request, s: Stream, n: nat)
    ensures |Decodes(net, eos, req, s, n).sent| >= |s.sent|
    ensures n > 0 && !s.finished ==> |Decodes(net, eos, req, s, n).sent| > |s.sent|
    decreases n
  {
    if n > 0 && !s.finished {
      hide Choose;
      DecodesSends(net, eos, req, Decode(net, eos, req, s), n - 1);
    }
  }

  /** A lane that enters with its budget spent (a request for one token) gets one more token
      from plain decode and none from the chain step. */
  lemma SpentBudget(net: Network, eos: set<Token>, req: Request, s: Stream, drafts: seq<Token>)
    requires !s.finished && s.generated >= req.maxNew
    ensures Chain(net, eos, req, s, drafts).sent == s.sent && Chain(net, eos, req, s, drafts).finished
    ensures Decode(net, eos, req, s).sent == s.sent + [Choose(net, req, s)] && Decode(net, eos, req, s).finished
  {
    hide Choose, Preds;
  }

  lemma UnspentIsPlain(net: Network, eos: set<Token>, req: Request, s: Stream, drafts: seq<Token>)
    requires !s.finished && !req.penalized && req.schema.None? && |drafts| < Penalty.MAX_VERIFY && s.generated < req.maxNew
    ensures var k := |NewTokens(net, eos, req, s, drafts)|;
            k > 0 && Chain(net, eos, req, s, drafts).sent == Decodes(net, eos, req, s, k).sent
  {
    NoSchemaIsQuiet(req, s.schemaState, NewTokens(net, eos, req, s, drafts));
    hide Chain, Decodes, NewTokens, Accepted;
    ChainIsPlain(net, eos, req, s, drafts);
  }

  /** For an unconstrained lane the chain step is a positive number of plain steps exactly when
      it entered with budget left. */
  lemma ChainIsPlainExactly(net: Network, eos: set<Token>, req: Request, s: Stream, drafts: seq<Token>)
    requires !s.finished && !req.penalized && req.schema.None? && |drafts| < Penalty.MAX_VERIFY
    ensures (exists k: nat :: k > 0 && Chain(net, eos, req, s, drafts).sent == Decodes(net, eos, req, s, k).sent)
       <==> s.generated < req.maxNew
  {
    hide *;
    if s.generated < req.maxNew {
      UnspentIsPlain(net, eos, req, s, drafts);
      var k := |NewTokens(net, eos, req, s, drafts)|;
      assert k > 0 && Chain(net, eos, req, s, drafts).sent == Decodes(net, eos, req, s, k).sent;
    } else {
      SpentBudget(net, eos, req, s, drafts);
      forall k: nat | k > 0 ensures Chain(net, eos, req, s, drafts).sent != Decodes(net, eos, req, s, k).sent {
        DecodesSends(net, eos, req, s, k);
      }
    }
  }

  /** Two-token documents "7" that could also go on with "8": the turn ends at 7. */
  const Short: Schema := Schema(0,
    (st: nat, t: Token) => if st == 0 && t == 7 then Some(1) else if st == 1 && t == 8 then Some(2) else None,
    (st: nat) => st > 0,
    (st: nat) => if st == 0 then {7} else {8})

  /** Always picks from the armed mask: 7 where it is allowed, else 8. */
  const Obedient: Network := Network(0, (g, r, t) => 0, (g, r, t) => 0,
    (m: Mem, pen, mask: Option<set<Token>>) => if mask.Some? && 7 in mask.value then 7 else 8)

  /** The chain checks for a complete document once, after all its tokens: with the document's
      last token drafted, it sends a token past the end that plain decode never sends. */
  lemma SchemaOvershoot()
    ensures var req := Request([1], 10, 0, false, true, false, Some(Short));
            var s := Stream([1], 5, 0, [5], 0, [], false);
            && Decode(Obedient, {}, req, s).finished && Decode(Obedient, {}, req, s).sent == [7]
            && Chain(Obedient, {}, req, s, [7]).sent == [7, 8]
  {
    var req := Request([1], 10, 0, false, true, false, Some(Short));
    var s := Stream([1], 5, 0, [5], 0, [], false);
    var ds: seq<Token> := [7];
    SchemaOne(req, 0, 7);
    assert Choose(Obedient, req, s) == 7;
    assert ds[1..] == [] && ds[..1] == ds && ds[..0] == [];
    assert ValidLen(req, 0, ds) == 1 + ValidLen(req, 1, []);
    assert StateAfter(req, 0, ds) == StateAfter(req, 1, []);
    assert Pred(Obedient, req, s, ds, 0) == 7;
    assert Pred(Obedient, req, s, ds, 1) == 8;
    assert Preds(Obedient, req, s, ds) == [7, 8];
    assert Accepted(Obedient, req, s, ds) == 1;
    assert EmitDrafts({}, req, 1, []) == ([], false);
    assert EmitDrafts({}, req, 0, ds) == ([7] + [], false);
    assert Emit({}, req, 0, ds, 8).0 == [7, 8];
  }
}
