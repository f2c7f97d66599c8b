// Facts about residues modulo a variable, which the solver does not find on its own.

module Residues {
  lemma MulAtLeast(d: int, n: int)
    requires n >= 0
    ensures d >= 1 ==> d * n >= n
    ensures d <= -1 ==> d * n <= 0 - n
  {
    if d >= 1 {
      assert (d - 1) * n >= 0;
    } else if d <= -1 {
      assert (-d - 1) * n >= 0;
    }
  }

  /** Two multiples of n less than n apart are the same. */
  lemma NoGap(d: int, n: int, s: int)
    requires n >= 0 && d * n == s && 0 - n < s < n
    ensures d == 0
  {
    MulAtLeast(d, n);
  }

  /** Positions less than a ring apart sit in different rows. */
  lemma RowsApart(n: nat, p: nat, k: nat)
    requires n > 0 && p < k < p + n
    ensures p % n != k % n
  {
    if p % n == k % n {
      var d := k / n - p / n;
      assert p == p / n * n + p % n && k == k / n * n + k % n;
      assert d * n == k - p;
      NoGap(d, n, k - p);
    }
  }

  lemma SameRow(n: nat, p: nat)
    requires n > 0
    ensures (p + n) % n == p % n
  {
    var q, r := p / n, p % n;
    assert p == q * n + r;
    var q', r' := (p + n) / n, (p + n) % n;
    assert p + n == q' * n + r';
    assert (q' - q - 1) * n == r - r';
    NoGap(q' - q - 1, n, r - r');
  }

  lemma MultipleMod(q: nat, n: nat)
    requires n > 0
    ensures (q * n) % n == 0
  {
    var x := q * n;
    var y, r := x / n, x % n;
    assert x == y * n + r;
    assert (q - y) * n == r;
    NoGap(q - y, n, r);
  }
}
