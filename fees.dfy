/**
 * Fee arithmetic of the swap engine.  A fee percentage is a fixed-point
 * number in which 1e18 stands for 1%: the deployed default 1e17 is 0.1%, and
 * the tests expect the fee on `amount` to be `amount / 1000`.
 */
module Fees {
  import opened Arith

  /** 1e18: the fixed-point unit of a fee percentage, which stands for 1%. */
  const ONE_PERCENT: nat := 1_000_000_000_000_000_000

  /** 1e20: the fee percentage that takes the whole amount (100%). */
  const FEE_SCALE: nat := 100 * ONE_PERCENT

  /** The default fee percentage of the deployment and of the test fixture: 0.1%. */
  const DEFAULT_FEE_PERCENTAGE: nat := 100_000_000_000_000_000

  /** The fee on `amount`: floor(amount * percentage / 1e20). */
  function CalculateFee(amount: nat, percentage: nat): (fee: nat)
    ensures fee * FEE_SCALE <= amount * percentage < (fee + 1) * FEE_SCALE
  {
    amount * percentage / FEE_SCALE
  }

  /** A percentage of at most 100% never takes more than the amount. */
  lemma FeeAtMostAmount(amount: nat, percentage: nat)
    requires percentage <= FEE_SCALE
    ensures CalculateFee(amount, percentage) <= amount
  {
    assert amount * percentage <= amount * FEE_SCALE;
  }

  /** A larger amount never pays a smaller fee. */
  lemma FeeMonotonic(a: nat, b: nat, percentage: nat)
    requires a <= b
    ensures CalculateFee(a, percentage) <= CalculateFee(b, percentage)
  {
    assert a * percentage <= b * percentage;
  }

  /** The default percentage takes exactly one thousandth, rounded down. */
  lemma DefaultFeeIsOneThousandth(amount: nat)
    ensures CalculateFee(amount, DEFAULT_FEE_PERCENTAGE) == amount / 1000
  {
    var q, r := amount / 1000, amount % 1000;
    var k := DEFAULT_FEE_PERCENTAGE;
    assert amount * k == FEE_SCALE * q + r * k by {
      assert amount == 1000 * q + r;
      assert amount * k == (1000 * q + r) * k;
      assert (1000 * q + r) * k == q * (1000 * k) + r * k;
    }
    assert 0 <= r * k < FEE_SCALE by {
      MulBelow(r, 1000, k);
    }
    ModUnique(amount * k, FEE_SCALE, q, r * k);
  }
}
