/**
 The trigger threshold is a decimal number of settlement-asset units, while the
 ledger reports integer base units. The bot compares `balance / 10^decimals`
 against the threshold; this module makes that comparison exact by
 cross-multiplying, and proves it agrees with exact real division.
 */
module Threshold {

  /** The decimal number mantissa / 10^scale, e.g. 10.5 is Decimal(105, 1). */
  datatype Decimal = Decimal(mantissa: int, scale: nat) {
    function Value(): real {
      (mantissa as real) / (Pow10(scale) as real)
    }
  }

  function Pow10(n: nat): (p: nat)
    ensures p >= 1
  {
    if n == 0 then 1 else 10 * Pow10(n - 1)
  }

  /** The human-scale value of `amount` base units. */
  function Scaled(amount: nat, decimals: nat): real {
    Decimal(amount, decimals).Value()
  }

  /** Cross-multiplying by two positive denominators preserves the order. */
  lemma CrossMultiply(x: int, a: int, m: int, b: int)
    requires a > 0 && b > 0
    ensures (x as real) / (a as real) >= (m as real) / (b as real) <==> x * b >= m * a
  {
    var xr, ar, mr, br := x as real, a as real, m as real, b as real;
    var k := ar * br;
    assert k > 0.0;
    assert (xr / ar) * k == xr * br;
    assert (mr / br) * k == mr * ar;
    assert (x * b) as real == xr * br;
    assert (m * a) as real == mr * ar;
    if xr / ar >= mr / br {
      assert (xr / ar) * k >= (mr / br) * k;
    }
    if xr * br >= mr * ar {
      assert (xr / ar) * k >= (mr / br) * k;
      assert xr / ar >= mr / br;
    }
  }

  /** True iff `amount` base units of a token with `decimals` decimals is at
      least `threshold` whole units. Decided exactly over integers by
      cross-multiplying, it agrees with the real-number comparison
      `amount / 10^decimals >= threshold`. */
  predicate MeetsThreshold(amount: nat, decimals: nat, threshold: Decimal): (b: bool)
    ensures b <==> Scaled(amount, decimals) >= threshold.Value()
  {
    CrossMultiply(amount, Pow10(decimals), threshold.mantissa, Pow10(threshold.scale));
    amount * Pow10(threshold.scale) >= threshold.mantissa * Pow10(decimals)
  }
}
