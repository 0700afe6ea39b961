/** Integer facts behind the rounding in the scan: Dafny's `/` on
    non-negative operands is floor division, which is what `Math.round`
    and `toFixed` reduce to once amounts are integers. */
module Arith {

  lemma MulMonotone(k: nat, a: int, b: int)
    requires a <= b
    ensures k * a <= k * b
  {
  }

  lemma DivBounds(x: nat, d: nat)
    requires d > 0
    ensures d * (x / d) <= x < d * (x / d + 1)
  {
  }

  lemma DivBelow(x: nat, d: nat, m: int)
    requires d > 0 && x < d * m
    ensures x / d < m
  {
    var q := x / d;
    DivBounds(x, d);
    if q >= m {
      MulMonotone(d, m, q);
      assert false;
    }
  }

  /** Division of `a * d + b` by `d` when `0 <= b < d`. */
  lemma DivUnique(y: int, d: int, a: int, b: int)
    requires d > 0 && 0 <= b < d && y == a * d + b
    ensures y / d == a
  {
    var q, r := y / d, y % d;
    assert (q - a) * d == b - r;
    if q > a {
      MulMonotone(d, 1, q - a);
      assert false;
    }
    if q < a {
      MulMonotone(d, q - a, -1);
      assert false;
    }
  }

  /** Two numbers that add up to `n * d` have quotients adding up to `n`,
      or to `n - 1` when neither is a multiple of `d`. */
  lemma SplitDivSum(x: nat, y: nat, d: nat, n: nat)
    requires d > 0 && x + y == n * d
    ensures x / d + y / d == (if x % d == 0 then n else n - 1)
  {
    var q, r := x / d, x % d;
    assert x == q * d + r;
    if r == 0 {
      assert y == (n - q) * d + 0;
      DivUnique(y, d, n - q, 0);
    } else {
      assert y == (n - q - 1) * d + (d - r);
      DivUnique(y, d, n - q - 1, d - r);
    }
  }

}
