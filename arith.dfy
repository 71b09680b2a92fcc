/** Euclidean division facts shared by the byte encoding and the fee arithmetic. */
module Arith {

  /** Division is determined by any quotient/remainder pair with the remainder in range. */
  lemma ModUnique(n: int, d: int, k: int, r: int)
    requires d > 0 && n == d * k + r && 0 <= r < d
    ensures n % d == r && n / d == k
  {
    var k', r' := n / d, n % d;
    assert n == d * k' + r';
    var x := k - k';
    assert d * x == r' - r by {
      assert d * k - d * k' == r' - r;
    }
    if x > 0 {
      MulGrows(d, x);
    } else if x < 0 {
      MulGrows(d, -x);
    }
  }

  lemma MulGrows(d: int, x: int)
    requires d > 0 && x >= 1
    ensures d * x >= d
  {
    if x > 1 {
      MulGrows(d, x - 1);
      assert d * x == d * (x - 1) + d;
    }
  }

  /** Multiplying by a bounded factor stays below the bound's product. */
  lemma MulBelow(a: nat, b: nat, c: nat)
    requires a < b
    ensures a * c <= (b - 1) * c
  {
    if c > 0 {
      MulBelow(a, b, c - 1);
    }
  }
}
