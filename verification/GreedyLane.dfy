// One greedy request as a token stream: plain one-token decode, the speculative chain step,
// and the proof that the second emits exactly the stream of the first.

module GreedyLane {
  import opened Wrappers
  import opened Trunk
  import Penalty

  /** A compiled JSON-schema machine: `step` is partial, `allowed` is the vocabulary mask. */
  datatype Schema = Schema(
    start: nat,
    step: (nat, Token) -> Option<nat>,
    complete: nat -> bool,
    allowed: nat -> set<Token>)

  datatype Request = Request(
    prompt: seq<Token>,
    maxNew: nat,
    minNew: nat,
    ignoreEos: bool,
    greedy: bool,
    penalized: bool,
    schema: Option<Schema>)

  /** What a lane has consumed (`cache`), what it feeds next (`last`) and what it has sent. */
  datatype Stream = Stream(
    cache: seq<Token>,
    last: Token,
    generated: nat,
    history: seq<Token>,
    schemaState: nat,
    sent: seq<Token>,
    finished: bool)

  const HISTORY_CAP: nat := 256
  const HISTORY_DRAIN: nat := 128
  const MAX_AUTO_DEPTH: nat := 8

  function Remember(history: seq<Token>, t: Token): seq<Token> {
    var h := history + [t];
    if |h| > HISTORY_CAP then h[HISTORY_DRAIN..] else h
  }

  function RememberAll(history: seq<Token>, ts: seq<Token>): seq<Token>
    decreases |ts|
  {
    if ts == [] then history else RememberAll(Remember(history, ts[0]), ts[1..])
  }

  /** The stop rule of one emitted token; `g` counts it already. */
  predicate Stops(eos: set<Token>, req: Request, g: nat, t: Token) {
    (t in eos && !req.ignoreEos && g >= req.minNew) || g >= req.maxNew
  }

  predicate EosHit(eos: set<Token>, req: Request, g: nat, t: Token) {
    t in eos && !req.ignoreEos && g >= req.minNew
  }

  /** Advance the schema machine over committed tokens; the flag says the turn is over. */
  function SchemaAdvance(req: Request, st: nat, ts: seq<Token>): (nat, bool)
    decreases |ts|
  {
    match req.schema
    case None => (st, false)
    case Some(sm) =>
      if ts == [] then (st, sm.complete(st))
      else match sm.step(st, ts[0])
        case None => (st, true)
        case Some(st') => SchemaAdvance(req, st', ts[1..])
  }

  /** The request as a step sees it that neither masks nor advances a schema. */
  function Unmasked(req: Request): Request {
    req.(schema := None)
  }

  function Penalties(req: Request, table: seq<Penalty.Entry>): multiset<Token> {
    if req.penalized then Penalty.Meaning(table) else multiset{}
  }

  function Mask(req: Request, st: nat): Option<set<Token>> {
    match req.schema
    case None => None
    case Some(sm) => Some(sm.allowed(st))
  }

  // ------------------------------------------------------------------ plain decode

  /** The token a batched decode step selects for this lane. */
  function Choose(net: Network, req: Request, s: Stream): Token {
    net.pick(Fold(net, s.cache + [s.last]),
             Penalties(req, Penalty.DecodeTable(s.history)),
             Mask(req, s.schemaState))
  }

  /** Bookkeeping of one emitted token. The cache records the token that was fed, not `t`. */
  function Take(eos: set<Token>, req: Request, s: Stream, t: Token): Stream {
    var (st, done) := SchemaAdvance(req, s.schemaState, [t]);
    Stream(s.cache + [s.last], t, s.generated + 1, Remember(s.history, t), st, s.sent + [t],
           Stops(eos, req, s.generated + 1, t) || done)
  }

  function Decode(net: Network, eos: set<Token>, req: Request, s: Stream): Stream {
    Take(eos, req, s, Choose(net, req, s))
  }

  /** Plain decode for up to `n` tokens; a finished lane stays as it is. */
  function Decodes(net: Network, eos: set<Token>, req: Request, s: Stream, n: nat): Stream
    decreases n
  {
    if n == 0 || s.finished then s else Decodes(net, eos, req, Decode(net, eos, req, s), n - 1)
  }

  // ------------------------------------------------------------------ the chain step

  /** How many of `drafts` the schema machine accepts in a row (all of them without a schema). */
  function ValidLen(req: Request, st: nat, drafts: seq<Token>): (v: nat)
    ensures v <= |drafts|
    decreases |drafts|
  {
    if drafts == [] || req.schema.None? then |drafts|
    else match req.schema.value.step(st, drafts[0])
      case None => 0
      case Some(st') => 1 + ValidLen(req, st', drafts[1..])
  }

  function StateAfter(req: Request, st: nat, ts: seq<Token>): nat
    decreases |ts|
  {
    if ts == [] || req.schema.None? then st
    else match req.schema.value.step(st, ts[0])
      case None => st
      case Some(st') => StateAfter(req, st', ts[1..])
  }

  /** Mask of verify column `j`: the live state's mask, and nothing past the first break. */
  function ColumnMask(req: Request, st: nat, drafts: seq<Token>, j: nat): Option<set<Token>>
    requires j <= |drafts|
  {
    if req.schema.None? then None
    else if j <= ValidLen(req, st, drafts) then Mask(req, StateAfter(req, st, drafts[..j]))
    else Some({})
  }

  /** The target's choice after verify column `j`. */
  function Pred(net: Network, req: Request, s: Stream, drafts: seq<Token>, j: nat): Token
    requires j <= |drafts|
  {
    net.pick(Fold(net, s.cache + [s.last] + drafts[..j]),
             Penalties(req, Penalty.Column(s.history, drafts, j)),
             ColumnMask(req, s.schemaState, drafts, j))
  }

  function Preds(net: Network, req: Request, s: Stream, drafts: seq<Token>): (p: seq<Token>)
    ensures |p| == |drafts| + 1
  {
    seq(|drafts| + 1, j requires 0 <= j <= |drafts| => Pred(net, req, s, drafts, j))
  }

  /** Longest prefix of `drafts` that agrees with `preds`. */
  function AcceptLen(preds: seq<Token>, drafts: seq<Token>): (n: nat)
    requires |preds| == |drafts| + 1
    ensures n <= |drafts|
    ensures forall j :: 0 <= j < n ==> preds[j] == drafts[j]
    ensures n < |drafts| ==> preds[n] != drafts[n]
  {
    if drafts == [] || preds[0] != drafts[0] then 0
    else 1 + AcceptLen(preds[1..], drafts[1..])
  }

  function Accepted(net: Network, req: Request, s: Stream, drafts: seq<Token>): (n: nat)
    ensures n <= |drafts|
  {
    Min(AcceptLen(Preds(net, req, s, drafts), drafts), ValidLen(req, s.schemaState, drafts))
  }

  /** The emit loop over the accepted drafts; the flag says an end token was hit. */
  function EmitDrafts(eos: set<Token>, req: Request, g: nat, ds: seq<Token>): (seq<Token>, bool)
    decreases |ds|
  {
    if ds == [] || g >= req.maxNew then ([], false)
    else if EosHit(eos, req, g + 1, ds[0]) then ([ds[0]], true)
    else
      var (rest, hit) := EmitDrafts(eos, req, g + 1, ds[1..]);
      ([ds[0]] + rest, hit)
  }

  /** Accepted drafts, then the bonus token if the budget and the end rule still allow it. */
  function Emit(eos: set<Token>, req: Request, g: nat, ds: seq<Token>, bonus: Token): (seq<Token>, bool) {
    var (toks, hit) := EmitDrafts(eos, req, g, ds);
    if !hit && g + |toks| < req.maxNew then (toks + [bonus], EosHit(eos, req, g + |toks| + 1, bonus))
    else (toks, hit)
  }

  /** Commit of a verified step: emit `path` and the bonus under the stop rule, and record what
      was fed, which is the committed token and all of `path` even when the emit was cut short. */
  function Commit(eos: set<Token>, req: Request, s: Stream, path: seq<Token>, bonus: Token): Stream {
    var (toks, hit) := Emit(eos, req, s.generated, path, bonus);
    var (st, done) := SchemaAdvance(req, s.schemaState, toks);
    var finished := hit || s.generated + |toks| >= req.maxNew || (req.schema.Some? && done);
    Stream(s.cache + [s.last] + path,
           if !finished then bonus else if toks == [] then s.last else toks[|toks| - 1],
           s.generated + |toks|,
           RememberAll(s.history, toks),
           st,
           s.sent + toks,
           finished)
  }

  /** One speculative step: verify all drafts at once, keep the agreed prefix plus one token. */
  function Chain(net: Network, eos: set<Token>, req: Request, s: Stream, drafts: seq<Token>): Stream {
    var nacc := Accepted(net, req, s, drafts);
    Commit(eos, req, s, drafts[..nacc], Preds(net, req, s, drafts)[nacc])
  }

  // ------------------------------------------------------------------ helper facts

  function TakeAll(eos: set<Token>, req: Request, s: Stream, ts: seq<Token>): Stream
    decreases |ts|
  {
    if ts == [] then s else TakeAll(eos, req, Take(eos, req, s, ts[0]), ts[1..])
  }

  /** `ts` are the choices plain decode makes from `s`, ignoring the stop rule. */
  ghost predicate Follows(net: Network, eos: set<Token>, req: Request, s: Stream, ts: seq<Token>)
    decreases |ts|
  {
    ts == [] || (ts[0] == Choose(net, req, s) && Follows(net, eos, req, Take(eos, req, s, ts[0]), ts[1..]))
  }

  /** `ts` cut after the first token that stops the lane by end token or budget. */
  function Cut(eos: set<Token>, req: Request, g: nat, ts: seq<Token>): (r: seq<Token>)
    ensures r <= ts
    ensures ts != [] ==> r != []
    decreases |ts|
  {
    if ts == [] then []
    else if Stops(eos, req, g + 1, ts[0]) then [ts[0]]
    else [ts[0]] + Cut(eos, req, g + 1, ts[1..])
  }

  lemma TakeIs(eos: set<Token>, req: Request, s: Stream, t: Token)
    ensures var r := Take(eos, req, s, t);
            && r.cache == s.cache + [s.last] && r.last == t && r.generated == s.generated + 1
            && r.history == Remember(s.history, t) && r.sent == s.sent + [t]
  {
  }

  lemma {:induction false} TakeAllIs(eos: set<Token>, req: Request, s: Stream, ts: seq<Token>)
    requires ts != []
    ensures TakeAll(eos, req, s, ts).cache == s.cache + [s.last] + ts[..|ts| - 1]
    ensures TakeAll(eos, req, s, ts).last == ts[|ts| - 1]
    ensures TakeAll(eos, req, s, ts).generated == s.generated + |ts|
    ensures TakeAll(eos, req, s, ts).history == RememberAll(s.history, ts)
    ensures TakeAll(eos, req, s, ts).sent == s.sent + ts
    decreases |ts|
  {
    hide Take, Remember;
    var s1 := Take(eos, req, s, ts[0]);
    TakeIs(eos, req, s, ts[0]);
    if |ts| == 1 {
      assert ts[1..] == [];
      assert TakeAll(eos, req, s1, []) == s1;
      assert RememberAll(Remember(s.history, ts[0]), []) == Remember(s.history, ts[0]);
      assert ts == [ts[0]];
    } else {
      TakeAllIs(eos, req, s1, ts[1..]);
      assert s.cache + [s.last] + [ts[0]] + ts[1..][..|ts| - 2] == s.cache + [s.last] + ts[..|ts| - 1];
      assert s.sent + [ts[0]] + ts[1..] == s.sent + ts;
    }
  }

  lemma EmitNext(eos: set<Token>, req: Request, g: nat, ds: seq<Token>, bonus: Token)
    requires g < req.maxNew && ds != []
    ensures Emit(eos, req, g, ds, bonus)
         == if Stops(eos, req, g + 1, ds[0]) then ([ds[0]], EosHit(eos, req, g + 1, ds[0]))
            else ([ds[0]] + Emit(eos, req, g + 1, ds[1..], bonus).0, Emit(eos, req, g + 1, ds[1..], bonus).1)
  {
    var (rest, hit) := EmitDrafts(eos, req, g + 1, ds[1..]);
    assert [ds[0]] + rest + [bonus] == [ds[0]] + (rest + [bonus]);
    assert rest == [] ==> [ds[0]] + rest == [ds[0]];
  }

  lemma {:induction false} EmitIsCut(eos: set<Token>, req: Request, g: nat, ds: seq<Token>, bonus: Token)
    requires g < req.maxNew
    ensures Emit(eos, req, g, ds, bonus).0 == Cut(eos, req, g, ds + [bonus])
    ensures var toks := Emit(eos, req, g, ds, bonus).0;
            Emit(eos, req, g, ds, bonus).1 == EosHit(eos, req, g + |toks|, toks[|toks| - 1])
    decreases |ds|
  {
    var acc := ds + [bonus];
    if ds == [] {
      assert acc == [bonus];
      assert acc[1..] == [];
    } else {
      hide Emit;
      EmitNext(eos, req, g, ds, bonus);
      assert acc[1..] == ds[1..] + [bonus];
      if !Stops(eos, req, g + 1, ds[0]) {
        EmitIsCut(eos, req, g + 1, ds[1..], bonus);
      }
    }
  }

  lemma {:induction false} CutStops(eos: set<Token>, req: Request, g: nat, ts: seq<Token>)
    requires ts != []
    ensures var r := Cut(eos, req, g, ts);
            && (forall j :: 0 <= j < |r| - 1 ==> !Stops(eos, req, g + j + 1, r[j]))
            && (!Stops(eos, req, g + |r|, r[|r| - 1]) ==> r == ts)
    decreases |ts|
  {
    if !Stops(eos, req, g + 1, ts[0]) && |ts| > 1 {
      CutStops(eos, req, g + 1, ts[1..]);
      var r, r1 := Cut(eos, req, g, ts), Cut(eos, req, g + 1, ts[1..]);
      assert r == [ts[0]] + r1;
      forall j | 0 <= j < |r| - 1 ensures !Stops(eos, req, g + j + 1, r[j]) {
        if j > 0 {
          assert r[j] == r1[j - 1];
        }
      }
    } else if |ts| == 1 {
      assert ts[1..] == [];
    }
  }

  lemma {:induction false} FollowsPrefix(net: Network, eos: set<Token>, req: Request, s: Stream, ts: seq<Token>, k: nat)
    requires Follows(net, eos, req, s, ts) && k <= |ts|
    ensures Follows(net, eos, req, s, ts[..k])
    decreases k
  {
    if k > 0 {
      FollowsPrefix(net, eos, req, Take(eos, req, s, ts[0]), ts[1..], k - 1);
      assert ts[..k][1..] == ts[1..][..k - 1];
    }
  }
}
