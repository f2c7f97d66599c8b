// Carrying the block drafter's shared modulo ring across a prefix-cache hit: when the carried rows
// really are the new prompt's rows, and what a surviving claim is worth.

module Df2Ring {
  import opened Wrappers
  import opened Trunk
  import opened Scheduler
  import opened Residues
  import ServeLoops

  /** A ring row is a pure function of the tokens up to its position; it is identified with them. */
  type RingRow = seq<Token>

  /** Rows of positions [lo, hi) of `toks` are all in place. */
  ghost predicate Holds(ring: seq<RingRow>, toks: seq<Token>, lo: nat, hi: nat)
    requires ring != [] && hi <= |toks|
  {
    forall p :: lo <= p < hi ==> RowAt(ring, toks, p)
  }

  ghost predicate RowAt(ring: seq<RingRow>, toks: seq<Token>, p: nat)
    requires ring != [] && p < |toks|
  {
    ring[p % |ring|] == toks[..p + 1]
  }

  /** Priming writes positions a, a+1, ..., b-1, each at its residue. */
  function Prime(ring: seq<RingRow>, toks: seq<Token>, a: nat, b: nat): (r: seq<RingRow>)
    requires ring != [] && a <= b <= |toks|
    ensures |r| == |ring|
    decreases b - a
  {
    if a == b then ring else Prime(ring, toks, a, b - 1)[(b - 1) % |ring| := toks[..b]]
  }

  // ------------------------------------------------------------------ priming

  /** After priming, every position of the last ring's length holds its own row, primed or kept. */
  lemma {:induction false} PrimeKeeps(ring: seq<RingRow>, toks: seq<Token>, a: nat, b: nat, p: nat)
    requires ring != [] && a <= b <= |toks| && p < b <= p + |ring|
    requires p < a ==> RowAt(ring, toks, p)
    ensures RowAt(Prime(ring, toks, a, b), toks, p)
    decreases b - a
  {
    if a < b {
      if p < b - 1 {
        PrimeKeeps(ring, toks, a, b - 1, p);
        RowsApart(|ring|, p, b - 1);
      }
    }
  }

  // ------------------------------------------------------------------ the carry

  /** The scheduler's guard. */
  predicate CarryOk(enabled: bool, df2Source: bool, reuse: nat, plen: nat, phys: nat, ringSlot: Option<nat>, ringLen: nat) {
    enabled && df2Source && reuse > 0 && ringSlot == Some(phys) && ringLen >= reuse && ringLen <= plen
  }

  /** First position a draft at `plen` attends to. */
  function BandStart(ring: nat, plen: nat): nat {
    Monus(plen + 1, ring)
  }

  /** With the rows of an agreeing sequence up to N, and reuse <= N <= plen, the suffix prime
      leaves every row of the read band holding its own position. */
  lemma CarrySound(ring: seq<RingRow>, from: seq<Token>, n: nat, prompt: seq<Token>, reuse: nat)
    requires ring != [] && n <= |from| && Holds(ring, from, Monus(n, |ring|), n)
    requires reuse <= n <= |prompt| && from[..reuse] == prompt[..reuse]
    ensures Holds(Prime(ring, prompt, reuse, |prompt|), prompt, BandStart(|ring|, |prompt|), |prompt|)
  {
    var plen := |prompt|;
    forall p | BandStart(|ring|, plen) <= p < plen ensures RowAt(Prime(ring, prompt, reuse, plen), prompt, p) {
      if p < reuse {
        CarriedRow(ring, from, prompt, reuse, p);
      }
      hide Holds, RowAt, Prime;
      PrimeKeeps(ring, prompt, reuse, plen, p);
    }
    hide RowAt, Prime;
  }

  lemma CarriedRow(ring: seq<RingRow>, from: seq<Token>, prompt: seq<Token>, reuse: nat, p: nat)
    requires ring != [] && p < reuse <= |from| && reuse <= |prompt| && from[..reuse] == prompt[..reuse] && RowAt(ring, from, p)
    ensures RowAt(ring, prompt, p)
  {
    assert from[..p + 1] == from[..reuse][..p + 1] == prompt[..p + 1];
  }

  /** The draft reads as many positions before its anchor as share the ring with it: all of them, or
      all rows but the anchor's own. */
  lemma BandIsWidest(ring: nat, plen: nat)
    requires ring > 0
    ensures BandStart(ring, plen) <= plen || plen + 1 < ring
    ensures plen - BandStart(ring, plen) + 1 <= ring && (BandStart(ring, plen) == 0 || plen - BandStart(ring, plen) + 1 == ring)
    ensures forall p: nat, q: nat :: BandStart(ring, plen) <= p < q <= plen ==> p % ring != q % ring
  {
    forall p: nat, q: nat | BandStart(ring, plen) <= p < q <= plen ensures p % ring != q % ring {
      RowsApart(ring, p, q);
    }
  }

  /** Exactly when a carry is safe: nothing is carried into the band, or the frontier has not yet
      recycled the band's first row. The guard's N <= plen is one position stricter. */
  ghost predicate FrontierSafe(ring: nat, n: nat, plen: nat, reuse: nat) {
    reuse <= BandStart(ring, plen) || Monus(n, ring) <= BandStart(ring, plen)
  }

  ghost predicate CarryWorks(size: nat, n: nat, prompt: seq<Token>, reuse: nat)
    requires size > 0 && reuse <= |prompt|
  {
    forall ring: seq<RingRow>, from: seq<Token> ::
      (|ring| == size && reuse <= n <= |from| && Holds(ring, from, Monus(n, size), n) && from[..reuse] == prompt[..reuse])
      ==> Holds(Prime(ring, prompt, reuse, |prompt|), prompt, BandStart(size, |prompt|), |prompt|)
  }

  /** Not primed over, a row keeps what it held. */
  lemma {:induction false} PrimeMisses(ring: seq<RingRow>, toks: seq<Token>, a: nat, b: nat, r: nat)
    requires ring != [] && a <= b <= |toks| && r < |ring| && forall p :: a <= p < b ==> p % |ring| != r
    ensures Prime(ring, toks, a, b)[r] == ring[r]
    decreases b - a
  {
    if a < b {
      PrimeMisses(ring, toks, a, b - 1, r);
    }
  }

  /** Priming a suffix no longer than the ring leaves the last carried row where it was. */
  lemma LastCarried(ring: seq<RingRow>, prompt: seq<Token>, reuse: nat)
    requires ring != [] && 0 < reuse <= |prompt| < reuse + |ring|
    ensures Prime(ring, prompt, reuse, |prompt|)[(reuse - 1) % |ring|] == ring[(reuse - 1) % |ring|]
  {
    forall k | reuse <= k < |prompt| ensures k % |ring| != (reuse - 1) % |ring| {
      RowsApart(|ring|, reuse - 1, k);
    }
    PrimeMisses(ring, prompt, reuse, |prompt|, (reuse - 1) % |ring|);
  }

  lemma CarryBreaks(size: nat, n: nat, prompt: seq<Token>, reuse: nat)
    requires size > 0 && reuse <= |prompt| && reuse <= n && !FrontierSafe(size, n, |prompt|, reuse)
    ensures !CarryWorks(size, n, prompt, reuse)
  {
    var plen := |prompt|;
    var from := prompt + seq(n, i => 0);
    var blank: seq<RingRow> := seq(size, i => []);
    var ring := Prime(blank, from, 0, n);
    forall p | Monus(n, size) <= p < n ensures RowAt(ring, from, p) {
      PrimeKeeps(blank, from, 0, n, p);
    }
    assert from[..reuse] == prompt[..reuse];
    var p := BandStart(size, plen);
    forall k | reuse <= k < plen ensures k % size != p % size {
      RowsApart(size, p, k);
    }
    PrimeMisses(ring, prompt, reuse, plen, p % size);
    StaleRow(ring, from, n, p);
    assert !RowAt(Prime(ring, prompt, reuse, plen), prompt, p);
  }

  /** A row below the last ring's length was recycled by a later position. */
  lemma {:induction false} StaleRow(ring: seq<RingRow>, from: seq<Token>, n: nat, p: nat)
    requires ring != [] && n <= |from| && Holds(ring, from, Monus(n, |ring|), n) && p + |ring| < n
    ensures |ring[p % |ring|]| > p + 1
    decreases n - p
  {
    SameRow(|ring|, p);
    if p + |ring| >= Monus(n, |ring|) {
      assert RowAt(ring, from, p + |ring|);
    } else {
      StaleRow(ring, from, n, p + |ring|);
    }
  }

  lemma CarryHolds(size: nat, n: nat, prompt: seq<Token>, reuse: nat)
    requires size > 0 && reuse <= |prompt| && reuse <= n && FrontierSafe(size, n, |prompt|, reuse)
    ensures CarryWorks(size, n, prompt, reuse)
  {
    var plen := |prompt|;
    forall ring: seq<RingRow>, from: seq<Token> |
      |ring| == size && reuse <= n <= |from| && Holds(ring, from, Monus(n, size), n) && from[..reuse] == prompt[..reuse]
      ensures Holds(Prime(ring, prompt, reuse, plen), prompt, BandStart(size, plen), plen)
    {
      forall p | BandStart(size, plen) <= p < plen ensures RowAt(Prime(ring, prompt, reuse, plen), prompt, p) {
        if p < reuse {
          assert RowAt(ring, from, p);
          assert from[..p + 1] == from[..reuse][..p + 1] == prompt[..p + 1];
        }
        PrimeKeeps(ring, prompt, reuse, plen, p);
      }
    }
  }

  /** For any ring size the carry is sound exactly when the frontier is safe. */
  lemma CarryExact(size: nat, n: nat, prompt: seq<Token>, reuse: nat)
    requires size > 0 && reuse <= |prompt| && reuse <= n
    ensures CarryWorks(size, n, prompt, reuse) <==> FrontierSafe(size, n, |prompt|, reuse)
    ensures n <= |prompt| ==> FrontierSafe(size, n, |prompt|, reuse)
  {
    if FrontierSafe(size, n, |prompt|, reuse) {
      CarryHolds(size, n, prompt, reuse);
    } else {
      CarryBreaks(size, n, prompt, reuse);
    }
  }

  // ------------------------------------------------------------------ the claim over admissions

  /** The ring's claim on a slot: it was built from `from` up to `len`. `extent` is how much of that
      sequence still agrees with the slot's recorded cache; the scheduler does not keep it. */
  datatype Claim = Claim(from: seq<Token>, len: nat, extent: nat)

  ghost predicate ClaimOk(ring: seq<RingRow>, c: Claim, cache: seq<Token>) {
    && ring != [] && c.extent <= c.len <= |c.from| && c.extent <= |cache|
    && Holds(ring, c.from, Monus(c.len, |ring|), c.len)
    && c.from[..c.extent] == cache[..c.extent]
  }

  /** The scheduler keeps the claim when the new prompt matches the cache as far as it reaches. */
  predicate Survives(c: Claim, cache: seq<Token>, prompt: seq<Token>) {
    c.len > 0 && Lcp(cache, prompt) >= Min(c.len, |prompt|)
  }

  /** A surviving claim is worth only the shorter of its old extent and the new prompt. */
  lemma SurvivingClaim(ring: seq<RingRow>, c: Claim, cache: seq<Token>, prompt: seq<Token>)
    requires ClaimOk(ring, c, cache) && Survives(c, cache, prompt)
    ensures ClaimOk(ring, c.(extent := Min(c.extent, |prompt|)), prompt)
  {
    var n := Min(c.extent, |prompt|);
    var l := Lcp(cache, prompt);
    assert cache[..l][..n] == prompt[..l][..n];
    assert c.from[..c.extent][..n] == cache[..c.extent][..n];
  }

  /** The claim is kept exactly when the cache it is about and the new prompt are the same as far as
      the claim and the prompt both reach. */
  lemma SurvivesExactly(c: Claim, cache: seq<Token>, prompt: seq<Token>)
    ensures var n := Min(c.len, |prompt|);
            Survives(c, cache, prompt) <==> c.len > 0 && n <= |cache| && cache[..n] == prompt[..n]
  {
    var n, l := Min(c.len, |prompt|), Lcp(cache, prompt);
    if l < n <= |cache| {
      assert cache[..n][l] == cache[l] && prompt[..n][l] == prompt[l];
    } else if n <= l {
      assert cache[..n] == cache[..l][..n] && prompt[..n] == prompt[..l][..n];
    }
  }

  /** For one ring and a frontier the guard lets through: the read band ends up right exactly when
      nothing is carried into it or the carried prefix is the new prompt's own. */
  lemma CarriedExactly(ring: seq<RingRow>, from: seq<Token>, n: nat, prompt: seq<Token>, reuse: nat)
    requires ring != [] && reuse <= n <= |from| && n <= |prompt| && Holds(ring, from, Monus(n, |ring|), n)
    ensures Holds(Prime(ring, prompt, reuse, |prompt|), prompt, BandStart(|ring|, |prompt|), |prompt|)
       <==> reuse <= BandStart(|ring|, |prompt|) || from[..reuse] == prompt[..reuse]
  {
    hide Prime, Holds;
    if reuse <= BandStart(|ring|, |prompt|) {
      BandFresh(ring, prompt, reuse);
    } else if from[..reuse] == prompt[..reuse] {
      CarrySound(ring, from, n, prompt, reuse);
    } else {
      CarriedWrong(ring, from, n, prompt, reuse);
    }
  }

  lemma BandFresh(ring: seq<RingRow>, prompt: seq<Token>, reuse: nat)
    requires ring != [] && reuse <= |prompt| && reuse <= BandStart(|ring|, |prompt|)
    ensures Holds(Prime(ring, prompt, reuse, |prompt|), prompt, BandStart(|ring|, |prompt|), |prompt|)
  {
    forall p | BandStart(|ring|, |prompt|) <= p < |prompt| ensures RowAt(Prime(ring, prompt, reuse, |prompt|), prompt, p) {
      PrimeKeeps(ring, prompt, reuse, |prompt|, p);
    }
  }

  lemma CarriedWrong(ring: seq<RingRow>, from: seq<Token>, n: nat, prompt: seq<Token>, reuse: nat)
    requires ring != [] && reuse <= n <= |from| && n <= |prompt| && Holds(ring, from, Monus(n, |ring|), n)
    requires reuse > BandStart(|ring|, |prompt|) && from[..reuse] != prompt[..reuse]
    ensures !Holds(Prime(ring, prompt, reuse, |prompt|), prompt, BandStart(|ring|, |prompt|), |prompt|)
  {
    var p := reuse - 1;
    LastCarried(ring, prompt, reuse);
    assert RowAt(ring, from, p);
    hide Prime;
    assert !RowAt(Prime(ring, prompt, reuse, |prompt|), prompt, p);
  }

  /** A claim of length n whose sequence is only known to agree with the prompt up to x. */
  ghost predicate ClaimCarries(size: nat, x: nat, n: nat, prompt: seq<Token>, reuse: nat)
    requires size > 0 && x <= n <= |prompt| && reuse <= n
  {
    forall ring: seq<RingRow>, from: seq<Token> ::
      |ring| == size && n <= |from| && Holds(ring, from, Monus(n, size), n) && from[..x] == prompt[..x]
      ==> Holds(Prime(ring, prompt, reuse, |prompt|), prompt, BandStart(size, |prompt|), |prompt|)
  }

  /** What the guard leaves out: behind it a claim is safe to carry exactly when the reused prefix
      lies within the extent still agreed on, or none of it reaches the read band. */
  lemma SurvivorExact(size: nat, x: nat, n: nat, prompt: seq<Token>, reuse: nat)
    requires size > 0 && x <= n <= |prompt| && reuse <= n
    ensures ClaimCarries(size, x, n, prompt, reuse) <==> reuse <= x || reuse <= BandStart(size, |prompt|)
  {
    if reuse <= x || reuse <= BandStart(size, |prompt|) {
      forall ring: seq<RingRow>, from: seq<Token> |
        |ring| == size && n <= |from| && Holds(ring, from, Monus(n, size), n) && from[..x] == prompt[..x]
        ensures Holds(Prime(ring, prompt, reuse, |prompt|), prompt, BandStart(size, |prompt|), |prompt|)
      {
        assert reuse <= x ==> from[..reuse] == from[..x][..reuse] == prompt[..x][..reuse] == prompt[..reuse];
        CarriedExactly(ring, from, n, prompt, reuse);
      }
    } else {
      var from := prompt[x := prompt[x] + 1];
      var ring := BuiltRing(size, from, n);
      assert from[..x] == prompt[..x];
      assert from[..reuse][x] != prompt[..reuse][x];
      CarriedExactly(ring, from, n, prompt, reuse);
    }
  }

  /** The ring a drafter leaves that ran `from` up to position n. */
  lemma BuiltRing(size: nat, from: seq<Token>, n: nat) returns (ring: seq<RingRow>)
    requires size > 0 && n <= |from|
    ensures |ring| == size && Holds(ring, from, Monus(n, size), n)
  {
    var blank: seq<RingRow> := seq(size, i => []);
    ring := Prime(blank, from, 0, n);
    forall p | Monus(n, size) <= p < n ensures RowAt(ring, from, p) {
      PrimeKeeps(blank, from, 0, n, p);
    }
  }

  /** Token lists that agree up to l agree up to anything shorter. */
  lemma ShorterAgrees(a: seq<Token>, b: seq<Token>, l: nat, k: nat)
    requires k <= l <= |a| && l <= |b| && a[..l] == b[..l]
    ensures a[..k] == b[..k]
  {
    assert a[..k] == a[..l][..k] && b[..k] == b[..l][..k];
  }

  /** A claim the guard lets through, on its own ring: the band ends up right exactly when the
      claim's sequence is the cached one as far as the reuse, as it is within the extent, or none
      of the reused rows is read. */
  lemma CarryWithinExtent(ring: seq<RingRow>, c: Claim, cache: seq<Token>, prompt: seq<Token>, reuse: nat)
    requires ClaimOk(ring, c, cache) && reuse <= c.len <= |prompt| && reuse <= |cache| && cache[..reuse] == prompt[..reuse]
    ensures Holds(Prime(ring, prompt, reuse, |prompt|), prompt, BandStart(|ring|, |prompt|), |prompt|)
       <==> reuse <= BandStart(|ring|, |prompt|) || c.from[..reuse] == cache[..reuse]
    ensures reuse <= c.extent ==> c.from[..reuse] == cache[..reuse]
  {
    CarriedExactly(ring, c.from, c.len, prompt, reuse);
    hide Holds, Prime;
    if reuse <= c.extent {
      ShorterAgrees(c.from, cache, c.extent, reuse);
    }
  }

  /** One ring is shared by all slots, and the claim is about the cache of the slot that ran it
      last. What the guard lets through comes from the request's own slot, so a reuse within the
      claim's extent ends up right whatever the other slots hold. */
  lemma GuardIsSound(ring: seq<RingRow>, owner: Option<nat>, c: Claim, caches: seq<seq<Token>>, enabled: bool, df2: bool, phys: nat, prompt: seq<Token>, reuse: nat)
    requires ring != [] && phys < |caches| && reuse <= |prompt| && reuse <= |caches[phys]| && caches[phys][..reuse] == prompt[..reuse]
    requires owner.Some? ==> owner.value < |caches| && ClaimOk(ring, c, caches[owner.value])
    requires CarryOk(enabled, df2, reuse, |prompt|, phys, owner, c.len) && (reuse <= c.extent || reuse <= BandStart(|ring|, |prompt|))
    ensures Holds(Prime(ring, prompt, reuse, |prompt|), prompt, BandStart(|ring|, |prompt|), |prompt|)
  {
    CarryWithinExtent(ring, c, caches[phys], prompt, reuse);
  }

  const DF2_RING: nat := 2048

  /** `a` ones and then `b` twos. */
  function Text(a: nat, b: nat): (r: seq<Token>)
    ensures |r| == a + b
  {
    seq(a, i => 1) + seq(b, i => 2)
  }

  lemma TextLcp(a: nat, b: nat, c: nat, d: nat)
    requires c <= a && (c < a ==> d == 0)
    ensures Lcp(Text(a, b), Text(c, d)) == if c < a then c else a + Min(b, d)
  {
    var n := if c < a then c else a + Min(b, d);
    var u, v := Text(a, b), Text(c, d);
    assert forall i :: 0 <= i < n ==> u[i] == v[i];
    assert u[..n] == v[..n];
    ServeLoops.LcpIs(u, v, n);
  }

  /** On the real ring and the 512 grid: a 2000-token turn leaves the claim; a retry of its first
      600 tokens and then a 1500-token edit of what followed are both too short to carry, and the
      claim survives both; a 2300-token turn resumes at 1024, the guard passes, and rows of the
      first turn stand where the prompt's should. */
  lemma SurvivorMisleads() returns (ring: seq<RingRow>, c: Claim)
    ensures |ring| == DF2_RING && c == Claim(Text(2000, 0), 2000, 2000) && ClaimOk(ring, c, Text(2000, 0))
    ensures Survives(c, Text(2000, 0), Text(600, 0)) && !CarryOk(true, true, 512, 600, 0, Some(0), c.len)
    ensures Survives(c, Text(600, 1500), Text(600, 900)) && !CarryOk(true, true, 512, 1500, 0, Some(0), c.len)
    ensures var prompt := Text(600, 1700);
            && 1024 <= Lcp(Text(600, 1600), prompt) && CarryOk(true, true, 1024, |prompt|, 0, Some(0), c.len)
            && !Holds(Prime(ring, prompt, 1024, |prompt|), prompt, BandStart(DF2_RING, |prompt|), |prompt|)
  {
    ring := BuiltRing(DF2_RING, Text(2000, 0), 2000);
    c := Claim(Text(2000, 0), 2000, 2000);
    assert ClaimOk(ring, c, Text(2000, 0));
    MisledBand(ring);
    hide Holds, Prime, Lcp, ClaimOk, Text;
    TextLcp(2000, 0, 600, 0);
    TextLcp(600, 1500, 600, 900);
    TextLcp(600, 1600, 600, 1700);
  }

  lemma MisledBand(ring: seq<RingRow>)
    requires |ring| == DF2_RING && Holds(ring, Text(2000, 0), 0, 2000)
    ensures !Holds(Prime(ring, Text(600, 1700), 1024, 2300), Text(600, 1700), BandStart(DF2_RING, 2300), 2300)
  {
    assert Text(2000, 0)[..1024][600] == 1 && Text(600, 1700)[..1024][600] == 2;
    hide Holds, Prime, Text;
    CarriedExactly(ring, Text(2000, 0), 2000, Text(600, 1700), 1024);
  }
}
