// Speculative rejection sampling over real-valued laws: whatever is proposed, every token
// sequence comes out with its autoregressive probability under the target.

module Rejection {
  type Token = nat

  /** Probabilities of tokens 0..|d|-1. */
  type Law = seq<real>

  const EPS: real := 0.000000000001

  function Sum(d: Law): real {
    if d == [] then 0.0 else Sum(d[..|d| - 1]) + d[|d| - 1]
  }

  ghost predicate IsLaw(d: Law, vocab: nat) {
    |d| == vocab && (forall t :: 0 <= t < vocab ==> d[t] >= 0.0) && Sum(d) == 1.0
  }

  /** Joint probability of independent events. */
  function Times(a: real, b: real): real {
    a * b
  }

  function MinR(a: real, b: real): real {
    if a <= b then a else b
  }

  /** A draft survives a uniform draw below this, from what target and proposal give it. */
  function AcceptRatio(p: real, q: real): real {
    if q < EPS then 1.0 else MinR(1.0, p / q)
  }

  /** Chance that draft t survives its uniform draw. */
  function AcceptChance(p: Law, q: Law, t: Token): real
    requires t < |p| == |q|
  {
    AcceptRatio(p[t], q[t])
  }

  /** Mass of drawing t from the proposal and keeping it; of drawing it and rejecting it. */
  function Kept(p: Law, q: Law): (r: Law)
    requires |p| == |q|
    ensures |r| == |p|
  {
    seq(|p|, t requires 0 <= t < |p| => q[t] * AcceptChance(p, q, t))
  }

  function Refused(p: Law, q: Law): (r: Law)
    requires |p| == |q|
    ensures |r| == |p|
  {
    seq(|p|, t requires 0 <= t < |p| => q[t] * (1.0 - AcceptChance(p, q, t)))
  }

  /** The target's excess over the proposal, and its normalised form: the residual law. */
  function Excess(p: Law, q: Law): (r: Law)
    requires |p| == |q|
    ensures |r| == |p| && forall t :: 0 <= t < |p| ==> r[t] == (if p[t] > q[t] then p[t] - q[t] else 0.0)
  {
    seq(|p|, t requires 0 <= t < |p| => if p[t] > q[t] then p[t] - q[t] else 0.0)
  }

  function Residual(p: Law, q: Law, t: Token): real
    requires t < |p| == |q|
  {
    var z := Sum(Excess(p, q));
    if z == 0.0 then 0.0 else Excess(p, q)[t] / z
  }

  /** Chance that one accept-or-resample emits t. */
  function Emits(p: Law, q: Law, t: Token): real
    requires t < |p| == |q|
  {
    Kept(p, q)[t] + Times(Sum(Refused(p, q)), Residual(p, q, t))
  }

  // ------------------------------------------------------------------ one position

  /** The epsilon guard never keeps a draft the target likes less than the proposal does. */
  ghost predicate GuardIdle(p: Law, q: Law)
    requires |p| == |q|
  {
    forall t :: 0 <= t < |p| && 0.0 < q[t] < EPS ==> p[t] >= q[t]
  }

  lemma {:induction false} SumPointwise(a: Law, b: Law, c: Law)
    requires |a| == |b| == |c| && forall t :: 0 <= t < |a| ==> a[t] == b[t] + c[t]
    ensures Sum(a) == Sum(b) + Sum(c)
    decreases |a|
  {
    if a != [] {
      SumPointwise(a[..|a| - 1], b[..|b| - 1], c[..|c| - 1]);
    }
  }

  lemma {:induction false} SumNonNegative(a: Law, t: Token)
    requires t < |a| && forall k :: 0 <= k < |a| ==> a[k] >= 0.0
    ensures 0.0 <= a[t] <= Sum(a)
    decreases |a|
  {
    if t == |a| - 1 {
      SumAtLeastZero(a[..t]);
    } else {
      SumNonNegative(a[..|a| - 1], t);
    }
  }

  lemma {:induction false} SumAtLeastZero(a: Law)
    requires forall k :: 0 <= k < |a| ==> a[k] >= 0.0
    ensures Sum(a) >= 0.0
    decreases |a|
  {
    if a != [] {
      SumAtLeastZero(a[..|a| - 1]);
    }
  }

  /** What is kept is the pointwise minimum of target and proposal. */
  lemma KeptIsMin(p: Law, q: Law, t: Token)
    requires t < |p| == |q| && p[t] >= 0.0 && q[t] >= 0.0 && GuardIdle(p, q)
    ensures Kept(p, q)[t] == MinR(p[t], q[t])
  {
    if q[t] >= EPS {
      DivideBack(p[t], q[t]);
    }
  }

  lemma DivideBack(a: real, b: real)
    requires b > 0.0 && a >= 0.0
    ensures b * (a / b) == a && (a / b >= 1.0 <==> a >= b)
  {
  }

  /** The refused mass is exactly the target's excess. */
  lemma RefusedIsExcess(p: Law, q: Law, vocab: nat)
    requires IsLaw(p, vocab) && IsLaw(q, vocab) && GuardIdle(p, q)
    ensures Sum(Refused(p, q)) == Sum(Excess(p, q))
  {
    forall t | 0 <= t < vocab ensures q[t] == Kept(p, q)[t] + Refused(p, q)[t] && p[t] == Kept(p, q)[t] + Excess(p, q)[t] {
      KeptIsMin(p, q, t);
      Distribute(q[t], AcceptChance(p, q, t));
    }
    SumPointwise(q, Kept(p, q), Refused(p, q));
    SumPointwise(p, Kept(p, q), Excess(p, q));
  }

  lemma Distribute(q: real, a: real)
    ensures q == q * a + q * (1.0 - a)
  {
  }

  /** Refusing with the excess's mass and resampling from its law adds the excess itself. */
  lemma ResidualMass(p: Law, q: Law, t: Token)
    requires t < |p| == |q|
    ensures Times(Sum(Excess(p, q)), Residual(p, q, t)) == Excess(p, q)[t]
  {
    SumNonNegative(Excess(p, q), t);
    var z, x := Sum(Excess(p, q)), Excess(p, q)[t];
    hide Sum, Excess;
    if z > 0.0 {
      DivideBack(x, z);
    }
  }

  /** One position emits exactly the target law. */
  lemma OnePositionExact(p: Law, q: Law, vocab: nat, t: Token)
    requires IsLaw(p, vocab) && IsLaw(q, vocab) && GuardIdle(p, q) && t < vocab
    ensures Emits(p, q, t) == p[t]
  {
    KeptIsMin(p, q, t);
    RefusedIsExcess(p, q, vocab);
    ResidualMass(p, q, t);
    hide Sum, Kept, Refused, Residual, GuardIdle, Times;
  }

  /** And it does so for every token exactly when the epsilon guard stays idle. */
  lemma OnePositionExactIff(p: Law, q: Law, vocab: nat)
    requires IsLaw(p, vocab) && IsLaw(q, vocab)
    ensures (forall t :: 0 <= t < vocab ==> Emits(p, q, t) == p[t]) <==> GuardIdle(p, q)
  {
    if GuardIdle(p, q) {
      forall t | 0 <= t < vocab ensures Emits(p, q, t) == p[t] { OnePositionExact(p, q, vocab, t); }
    } else {
      var t :| 0 <= t < |p| && 0.0 < q[t] < EPS && p[t] < q[t];
      assert Excess(p, q)[t] == 0.0;
      assert Residual(p, q, t) == 0.0;
      assert Emits(p, q, t) == q[t];
    }
  }

  /** Greedy drafts are point masses; the guard is idle for them, and the residual is the target
      with the draft struck out. */
  lemma PointMassIdle(p: Law, q: Law, d: Token)
    requires d < |p| == |q| && (forall t :: 0 <= t < |q| ==> q[t] == (if t == d then 1.0 else 0.0))
    requires forall t :: 0 <= t < |p| ==> 0.0 <= p[t] <= 1.0
    ensures GuardIdle(p, q) && AcceptChance(p, q, d) == p[d]
    ensures forall t :: 0 <= t < |p| ==> Excess(p, q)[t] == (if t == d then 0.0 else p[t])
  {
  }

  // ------------------------------------------------------------------ whole runs

  /** A run's surroundings: the target law after any context; and, driven by an internal state of
      the policy and drafter, how deep a step drafts, what it proposes at each position, and how
      that state moves on an accept, a rejection and a bonus. */
  datatype World = World(
    vocab: nat,
    target: seq<Token> -> Law,
    depth: (nat, seq<Token>) -> nat,
    proposal: (nat, seq<Token>) -> Law,
    onAccept: (nat, seq<Token>) -> nat,
    onReject: (nat, seq<Token>) -> nat,
    onBonus: (nat, seq<Token>) -> nat)

  ghost predicate WorldOk(w: World) {
    && (forall c :: IsLaw(w.target(c), w.vocab))
    && (forall s, c :: IsLaw(w.proposal(s, c), w.vocab) && GuardIdle(w.target(c), w.proposal(s, c)))
  }

  /** Autoregressive probability of `toks` after context `c`. */
  function Autoregressive(w: World, c: seq<Token>, toks: seq<Token>): real
    requires forall k :: 0 <= k < |toks| ==> toks[k] < w.vocab
    requires forall c :: |w.target(c)| == w.vocab
    decreases |toks|
  {
    if toks == [] then 1.0 else Times(w.target(c)[toks[0]], Autoregressive(w, c + [toks[0]], toks[1..]))
  }

  /** Probability that the stream continues with `toks`, with `left` drafts still to be judged in
      the current step and the machinery in state s. A step judges its drafts in order; it ends
      with a residual token at the first rejection, or with a bonus token after the last draft. */
  function Stream(w: World, s: nat, c: seq<Token>, left: nat, toks: seq<Token>): real
    requires forall k :: 0 <= k < |toks| ==> toks[k] < w.vocab
    requires (forall c :: |w.target(c)| == w.vocab) && forall s, c :: |w.proposal(s, c)| == w.vocab
    decreases |toks|
  {
    if toks == [] then 1.0
    else
      var t, rest := toks[0], toks[1..];
      var c' := c + [t];
      var p := w.target(c);
      if left == 0 then
        var s' := w.onBonus(s, c');
        Times(p[t], Stream(w, s', c', w.depth(s', c'), rest))
      else
        var q := w.proposal(s, c);
        var sa, sr := w.onAccept(s, c'), w.onReject(s, c');
        Times(Kept(p, q)[t], Stream(w, sa, c', left - 1, rest))
        + Times(Times(Sum(Refused(p, q)), Residual(p, q, t)), Stream(w, sr, c', w.depth(sr, c'), rest))
  }

  /** For every drafter, depth policy and machinery state: every sequence has exactly its
      autoregressive probability under the target. */
  lemma {:induction false} StreamIsAutoregressive(w: World, s: nat, c: seq<Token>, left: nat, toks: seq<Token>)
    requires WorldOk(w) && forall k :: 0 <= k < |toks| ==> toks[k] < w.vocab
    ensures Stream(w, s, c, left, toks) == Autoregressive(w, c, toks)
    decreases |toks|
  {
    if toks != [] {
      var t, rest := toks[0], toks[1..];
      var c' := c + [t];
      hide Sum, Residual, Kept, Refused, GuardIdle, Times;
      if left == 0 {
        var s' := w.onBonus(s, c');
        StreamIsAutoregressive(w, s', c', w.depth(s', c'), rest);
      } else {
        StreamIsAutoregressive(w, w.onAccept(s, c'), c', left - 1, rest);
        StreamIsAutoregressive(w, w.onReject(s, c'), c', w.depth(w.onReject(s, c'), c'), rest);
        JudgedExact(w.target(c), w.proposal(s, c), w.vocab, t, Autoregressive(w, c', rest));
      }
    }
  }

  /** One judged position in a run, whatever both continuations weigh. */
  lemma JudgedExact(p: Law, q: Law, vocab: nat, t: Token, tail: real)
    requires IsLaw(p, vocab) && IsLaw(q, vocab) && GuardIdle(p, q) && t < vocab
    ensures Times(Kept(p, q)[t], tail) + Times(Times(Sum(Refused(p, q)), Residual(p, q, t)), tail) == Times(p[t], tail)
  {
    hide Times, Kept, Refused, Residual, GuardIdle, Sum;
    OnePositionExact(p, q, vocab, t);
    Factor(Kept(p, q)[t], Times(Sum(Refused(p, q)), Residual(p, q, t)), tail);
  }

  lemma Factor(a: real, b: real, x: real)
    ensures Times(a, x) + Times(b, x) == Times(a + b, x)
  {
  }

  // ------------------------------------------------------------------ the accept loop

  /** Draft j was drawn from the proposal `qs[j]` and is judged under the target `ps[j]`. */
  predicate Survives(ps: seq<Law>, qs: seq<Law>, drafts: seq<Token>, draws: seq<real>, j: nat)
    requires j < |drafts| == |ps| == |qs| == |draws| && drafts[j] < |ps[j]| == |qs[j]|
  {
    draws[j] < AcceptChance(ps[j], qs[j], drafts[j])
  }

  /** Judge the drafts in order against their uniform draws, from the two probabilities gathered
      for each: keep exactly the drafts before the first that does not survive its laws' accept
      chance, then the residual token of that one, or the bonus. */
  method AcceptLoop(drafts: seq<Token>, p: seq<real>, q: seq<real>, draws: seq<real>, resid: seq<Token>, bonus: Token,
                    ghost ps: seq<Law>, ghost qs: seq<Law>)
    returns (emitted: seq<Token>, nacc: nat)
    requires |drafts| == |p| == |q| == |draws| == |resid| == |ps| == |qs|
    requires forall j :: 0 <= j < |drafts| ==> drafts[j] < |ps[j]| == |qs[j]| && p[j] == ps[j][drafts[j]] && q[j] == qs[j][drafts[j]]
    ensures nacc <= |drafts| && emitted == drafts[..nacc] + [if nacc < |drafts| then resid[nacc] else bonus]
    ensures forall j :: 0 <= j < nacc ==> Survives(ps, qs, drafts, draws, j)
    ensures nacc < |drafts| ==> !Survives(ps, qs, drafts, draws, nacc)
  {
    emitted, nacc := [], 0;
    while nacc < |drafts|
      invariant 0 <= nacc <= |drafts| && emitted == drafts[..nacc]
      invariant forall j :: 0 <= j < nacc ==> Survives(ps, qs, drafts, draws, j)
    {
      var ratio := AcceptRatio(p[nacc], q[nacc]);
      if draws[nacc] < ratio {
        emitted := emitted + [drafts[nacc]];
        nacc := nacc + 1;
      } else {
        emitted := emitted + [resid[nacc]];
        return;
      }
    }
    emitted := emitted + [bonus];
  }
}
