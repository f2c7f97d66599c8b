// The N-way schedule: in round k a rank exchanges with the rank whose bit k differs. Any window
// of log2(world) consecutive epochs is a full all-reduce.

module RecursiveDoubling {
  const MAX_ROUNDS: nat := 4

  type RankId = bv8

  /** 1 << k. */
  function Bit(k: nat): (b: bv8)
    requires k < MAX_ROUNDS
    ensures b == 1 || b == 2 || b == 4 || b == 8
  {
    if k == 0 then 1 else if k == 1 then 2 else if k == 2 then 4 else 8
  }

  function Partner(rank: RankId, round: nat): RankId
    requires round < MAX_ROUNDS
  {
    rank ^ Bit(round)
  }

  function RoundOf(rounds: nat, e: nat): (k: nat)
    requires 0 < rounds
    ensures k < rounds
  {
    e % rounds
  }

  /** Number of ranks: 1 << rounds. */
  function World(rounds: nat): nat
    requires rounds <= MAX_ROUNDS
  {
    if rounds == 0 then 1 else 2 * World(rounds - 1)
  }

  /** Partners name each other, are different ranks, and stay inside the world. */
  lemma PartnersMutual(rounds: nat, rank: RankId, round: nat)
    requires round < rounds <= MAX_ROUNDS && rank as nat < World(rounds)
    ensures Partner(Partner(rank, round), round) == rank && Partner(rank, round) != rank
    ensures Partner(rank, round) as nat < World(rounds)
  {
    WorldIs(rounds);
    var mask: bv8 := if rounds == 1 then 1 else if rounds == 2 then 3 else if rounds == 3 then 7 else 15;
    assert rank <= mask;
    assert Partner(rank, round) <= mask;
  }

  lemma PartnersDiffer(rank: RankId, j: nat, k: nat)
    requires j < k < MAX_ROUNDS
    ensures Partner(rank, j) != Partner(rank, k) && Partner(rank, j) as nat != Partner(rank, k) as nat
  {
  }

  lemma WorldIs(rounds: nat)
    requires rounds <= MAX_ROUNDS
    ensures World(rounds) == (if rounds == 0 then 1 else if rounds == 1 then 2 else if rounds == 2 then 4 else if rounds == 3 then 8 else 16)
  {
    assert World(0) == 1 && World(1) == 2 && World(2) == 4;
    assert World(3) == 8 && World(4) == 16;
  }

  // ------------------------------------------------------------------ what a rank has combined

  /** How often rank q's contribution is in rank r's value after exchanging in rounds `ds`. */
  function Times(ds: seq<nat>, r: RankId, q: RankId): nat
    requires forall i :: 0 <= i < |ds| ==> ds[i] < MAX_ROUNDS
  {
    if ds == [] then (if r == q then 1 else 0)
    else
      var d := ds[|ds| - 1];
      Times(ds[..|ds| - 1], r, q) + Times(ds[..|ds| - 1], Partner(r, d), q)
  }

  /** The bits exchanged so far. */
  function Mask(ds: seq<nat>): bv8
    requires forall i :: 0 <= i < |ds| ==> ds[i] < MAX_ROUNDS
  {
    if ds == [] then 0 else Join(Mask(ds[..|ds| - 1]), Bit(ds[|ds| - 1]))
  }

  ghost predicate Distinct(ds: seq<nat>) {
    forall i, k :: 0 <= i < k < |ds| ==> ds[i] != ds[k]
  }

  lemma {:induction false} MaskMisses(ds: seq<nat>, d: nat)
    requires d < MAX_ROUNDS && forall i :: 0 <= i < |ds| ==> ds[i] < MAX_ROUNDS && ds[i] != d
    ensures Apart(Mask(ds), Bit(d))
  {
    if ds != [] {
      var k := ds[|ds| - 1];
      MaskMisses(ds[..|ds| - 1], d);
      assert Bit(k) & Bit(d) == 0;
      OrMisses(Mask(ds[..|ds| - 1]), Bit(k), Bit(d));
    }
  }

  lemma OrMisses(m: bv8, b: bv8, d: bv8)
    requires m & d == 0 && b & d == 0
    ensures (m | b) & d == 0
  {
  }

  /** Bits where two ranks differ, masks joined, masks apart. */
  function Diff(r: bv8, q: bv8): bv8 { r ^ q }

  function Join(m: bv8, b: bv8): bv8 { m | b }

  predicate Apart(m: bv8, b: bv8) { m & b == 0 }

  /** No bit outside the mask is set. */
  predicate Inside(m: bv8, x: bv8) {
    x & !m == 0
  }

  /** The ranks agree on every bit outside the mask. */
  predicate Agree(m: bv8, r: RankId, q: RankId) {
    Inside(m, Diff(r, q))
  }

  lemma OneBit(x: bv8, y: bv8, m: bv8, b: bv8)
    requires Apart(m, b) && (b == 1 || b == 2 || b == 4 || b == 8) && y == Diff(x, b)
    ensures Inside(Join(m, b), x) <==> (Inside(m, x) || Inside(m, y))
    ensures !(Inside(m, x) && Inside(m, y))
  {
  }

  lemma XorMoves(r: bv8, q: bv8, d: nat)
    requires d < MAX_ROUNDS
    ensures Diff(Partner(r, d), q) == Diff(Diff(r, q), Bit(d))
  {
    hide Bit;
  }

  /** One more exchanged bit: of two ranks that differ only there, at most one agreed before. */
  lemma OneOfTwo(r: bv8, q: bv8, m: bv8, d: nat)
    requires d < MAX_ROUNDS && Apart(m, Bit(d))
    ensures Agree(Join(m, Bit(d)), r, q) <==> (Agree(m, r, q) || Agree(m, Partner(r, d), q))
    ensures !(Agree(m, r, q) && Agree(m, Partner(r, d), q))
  {
    hide Inside, Bit, Partner, Diff, Join, Apart;
    XorMoves(r, q, d);
    OneBit(Diff(r, q), Diff(Partner(r, d), q), m, Bit(d));
  }

  /** After distinct rounds a rank has exactly the ranks that agree with it on the other bits. */
  lemma {:induction false} TimesIs(ds: seq<nat>, r: RankId, q: RankId)
    requires Distinct(ds) && forall i :: 0 <= i < |ds| ==> ds[i] < MAX_ROUNDS
    ensures Times(ds, r, q) == (if Agree(Mask(ds), r, q) then 1 else 0)
    decreases |ds|
  {
    hide Agree, Partner, Bit, Join, Apart;
    if ds == [] {
      SameIffXorZero(r, q);
    } else {
      var init, d := ds[..|ds| - 1], ds[|ds| - 1];
      TimesIs(init, r, q);
      TimesIs(init, Partner(r, d), q);
      MaskMisses(init, d);
      OneOfTwo(r, q, Mask(init), d);
    }
  }

  lemma SameIffXorZero(r: bv8, q: bv8)
    ensures Agree(0, r, q) <==> r == q
  {
  }

  // ------------------------------------------------------------------ a window of epochs

  /** The rounds of `n` consecutive epochs from e0. */
  function Window(rounds: nat, e0: nat, n: nat): (ds: seq<nat>)
    requires 0 < rounds
    ensures |ds| == n && forall i :: 0 <= i < n ==> ds[i] == RoundOf(rounds, e0 + i)
  {
    seq<nat>(n, i requires 0 <= i < n => RoundOf(rounds, e0 + i))
  }

  lemma Apart2(e: nat, i: nat, k: nat)
    requires i < k < 2
    ensures (e + i) % 2 != (e + k) % 2
  {
  }

  lemma Apart3(e: nat, i: nat, k: nat)
    requires i < k < 3
    ensures (e + i) % 3 != (e + k) % 3
  {
  }

  lemma Apart4(e: nat, i: nat, k: nat)
    requires i < k < 4
    ensures (e + i) % 4 != (e + k) % 4
  {
  }

  lemma WindowDistinct(rounds: nat, e0: nat)
    requires 0 < rounds <= MAX_ROUNDS
    ensures Distinct(Window(rounds, e0, rounds))
  {
    var ds := Window(rounds, e0, rounds);
    forall i: nat, k: nat | i < k < |ds| ensures ds[i] != ds[k] {
      if rounds == 2 { Apart2(e0, i, k); } else if rounds == 3 { Apart3(e0, i, k); } else { Apart4(e0, i, k); }
    }
  }

  /** A window covers every bit of the world. */
  lemma {:induction false} MaskHas(ds: seq<nat>, i: nat)
    requires i < |ds| && forall k :: 0 <= k < |ds| ==> ds[k] < MAX_ROUNDS
    ensures Mask(ds) & Bit(ds[i]) == Bit(ds[i])
    decreases |ds|
  {
    if i < |ds| - 1 {
      MaskHas(ds[..|ds| - 1], i);
      OrKeeps(Mask(ds[..|ds| - 1]), Bit(ds[|ds| - 1]), Bit(ds[i]));
    } else {
      OrAdds(Mask(ds[..|ds| - 1]), Bit(ds[i]));
    }
  }

  lemma OrKeeps(m: bv8, b: bv8, d: bv8)
    requires m & d == d
    ensures (m | b) & d == d
  {
  }

  lemma OrAdds(m: bv8, d: bv8)
    ensures (m | d) & d == d
  {
  }

  lemma Cover2(e: nat, k: nat) returns (i: nat)
    requires k < 2
    ensures i < 2 && (e + i) % 2 == k
  {
    i := (k + 2 - e % 2) % 2;
  }

  lemma Cover3(e: nat, k: nat) returns (i: nat)
    requires k < 3
    ensures i < 3 && (e + i) % 3 == k
  {
    i := (k + 3 - e % 3) % 3;
  }

  lemma Cover4(e: nat, k: nat) returns (i: nat)
    requires k < 4
    ensures i < 4 && (e + i) % 4 == k
  {
    i := (k + 4 - e % 4) % 4;
  }

  lemma WindowCovers(rounds: nat, e0: nat, k: nat) returns (i: nat)
    requires k < rounds <= MAX_ROUNDS
    ensures i < rounds && RoundOf(rounds, e0 + i) == k
  {
    if rounds == 1 {
      i := 0;
    } else if rounds == 2 {
      i := Cover2(e0, k);
    } else if rounds == 3 {
      i := Cover3(e0, k);
    } else {
      i := Cover4(e0, k);
    }
  }

  lemma MaskCovers(rounds: nat, e0: nat, k: nat)
    requires k < rounds <= MAX_ROUNDS
    ensures Mask(Window(rounds, e0, rounds)) & Bit(k) == Bit(k)
  {
    var i := WindowCovers(rounds, e0, k);
    MaskHas(Window(rounds, e0, rounds), i);
  }

  lemma InsideMask(rounds: nat, m: bv8, r: bv8, q: bv8)
    requires 0 < rounds <= MAX_ROUNDS && r as nat < World(rounds) && q as nat < World(rounds)
    requires forall k :: 0 <= k < rounds ==> m & Bit(k) == Bit(k)
    ensures Agree(m, r, q)
  {
    WorldIs(rounds);
    assert m & Bit(0) == Bit(0) && (rounds > 1 ==> m & Bit(1) == Bit(1))
        && (rounds > 2 ==> m & Bit(2) == Bit(2)) && (rounds > 3 ==> m & Bit(3) == Bit(3));
    var mask: bv8 := if rounds == 1 then 1 else if rounds == 2 then 3 else if rounds == 3 then 7 else 15;
    assert r <= mask && q <= mask;
    MaskedZero(m, mask, r, q);
  }

  lemma MaskedZero(m: bv8, mask: bv8, r: bv8, q: bv8)
    requires mask == 1 || mask == 3 || mask == 7 || mask == 15
    requires m & mask == mask && r <= mask && q <= mask
    ensures (r ^ q) & !m == 0
  {
  }

  /** From any starting epoch, after `rounds` consecutive epochs every rank has combined every
      rank's contribution exactly once. */
  lemma FullAllReduce(rounds: nat, e0: nat, r: RankId, q: RankId)
    requires 0 < rounds <= MAX_ROUNDS && r as nat < World(rounds) && q as nat < World(rounds)
    ensures Times(Window(rounds, e0, rounds), r, q) == 1
  {
    var ds := Window(rounds, e0, rounds);
    WindowDistinct(rounds, e0);
    TimesIs(ds, r, q);
    forall k | 0 <= k < rounds ensures Mask(ds) & Bit(k) == Bit(k) {
      MaskCovers(rounds, e0, k);
    }
    InsideMask(rounds, Mask(ds), r, q);
  }
}
