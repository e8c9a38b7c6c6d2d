/**
 * Exact decimal arithmetic standing in for JavaScript numbers.
 *
 * Prices are modelled as exact rationals (`real`). The two rounding operations the
 * code uses are written out:
 *  - `Number(x.toFixed(d))` (or `parseFloat(...)`) rounds to `d` decimals, half away
 *    from zero: toFixed works on |x| and picks the larger candidate on a tie;
 *  - `Math.round(x)` rounds to an integer, half toward +infinity.
 * Scaling by 10^d is written as `d` multiplications by ten so that every proof
 * about it stays within linear arithmetic.
 */
module Decimal {

  /** x * 10^d */
  function Scale(x: real, d: nat): real {
    if d == 0 then x else 10.0 * Scale(x, d - 1)
  }

  /** y / 10^d */
  function Unscale(y: real, d: nat): real {
    if d == 0 then y else Unscale(y, d - 1) / 10.0
  }

  /** `y` is a whole number. */
  predicate IsWhole(y: real) {
    y.Floor as real == y
  }

  /** `x` has at most `d` digits after the decimal point. */
  predicate HasDecimals(x: real, d: nat) {
    IsWhole(Scale(x, d))
  }

  /** `Number(x.toFixed(d))` on an exact decimal: round half away from zero. */
  function ToFixed(x: real, d: nat): (r: real)
    ensures HasDecimals(r, d)
    ensures x >= 0.0 ==> r >= 0.0
    ensures x <= 0.0 ==> r <= 0.0
  {
    if x >= 0.0 then
      var n := (Scale(x, d) + 0.5).Floor;
      ScaleZero(d);
      ScaleNonNegative(x, d);
      UnscaleHasDecimals(n, d);
      UnscaleSign(n as real, d);
      Unscale(n as real, d)
    else
      var n := (Scale(-x, d) + 0.5).Floor;
      ScaleNonNegative(-x, d);
      UnscaleHasDecimals(n, d);
      NegHasDecimals(Unscale(n as real, d), d);
      UnscaleSign(n as real, d);
      -Unscale(n as real, d)
  }

  /** `Math.round(x)`: the nearest integer, ties toward +infinity. */
  function MathRound(x: real): (n: int)
    ensures x - 0.5 < n as real <= x + 0.5
  {
    (x + 0.5).Floor
  }

  lemma {:induction false} ScaleUnscale(y: real, d: nat)
    ensures Scale(Unscale(y, d), d) == y
  {
    if d > 0 {
      var u := Unscale(y, d - 1);
      ScaleUnscale(y, d - 1);
      ScaleDivTen(u, d - 1);
    }
  }

  lemma UnscaleHasDecimals(n: int, d: nat)
    ensures HasDecimals(Unscale(n as real, d), d)
  {
    ScaleUnscale(n as real, d);
  }

  lemma {:induction false} UnscaleSign(y: real, d: nat)
    ensures y >= 0.0 ==> Unscale(y, d) >= 0.0
    ensures y <= 0.0 ==> Unscale(y, d) <= 0.0
  {
    if d > 0 { UnscaleSign(y, d - 1); }
  }

  lemma {:induction false} ScaleDivTen(x: real, d: nat)
    ensures Scale(x / 10.0, d) == Scale(x, d) / 10.0
  {
    if d > 0 { ScaleDivTen(x, d - 1); }
  }

  lemma {:induction false} ScaleAdd(x: real, y: real, d: nat)
    ensures Scale(x + y, d) == Scale(x, d) + Scale(y, d)
  {
    if d > 0 { ScaleAdd(x, y, d - 1); }
  }

  lemma {:induction false} ScaleNeg(x: real, d: nat)
    ensures Scale(-x, d) == -Scale(x, d)
  {
    if d > 0 { ScaleNeg(x, d - 1); }
  }

  lemma {:induction false} ScaleZero(d: nat)
    ensures Scale(0.0, d) == 0.0
  {
    if d > 0 { ScaleZero(d - 1); }
  }

  lemma ScaleNonNegative(x: real, d: nat)
    requires x >= 0.0
    ensures Scale(x, d) >= 0.0
  {
    ScaleZero(d);
    ScaleMonotone(0.0, x, d);
  }

  lemma ScaleSub(x: real, y: real, d: nat)
    ensures Scale(x - y, d) == Scale(x, d) - Scale(y, d)
  {
    ScaleAdd(x, -y, d);
    ScaleNeg(y, d);
  }

  lemma {:induction false} ScaleMonotone(x: real, y: real, d: nat)
    requires x <= y
    ensures Scale(x, d) <= Scale(y, d)
  {
    if d > 0 { ScaleMonotone(x, y, d - 1); }
  }

  lemma {:induction false} ScalePositive(x: real, d: nat)
    requires x > 0.0
    ensures Scale(x, d) >= x
  {
    if d > 0 { ScalePositive(x, d - 1); }
  }

  /** `Scale` is one-to-one. */
  lemma ScaleInjective(x: real, y: real, d: nat)
    requires Scale(x, d) == Scale(y, d)
    ensures x == y
  {
    if x < y { ScaleSub(y, x, d); ScalePositive(y - x, d); }
    if y < x { ScaleSub(x, y, d); ScalePositive(x - y, d); }
  }

  lemma NegHasDecimals(x: real, d: nat)
    requires HasDecimals(x, d)
    ensures HasDecimals(-x, d)
  {
    ScaleNeg(x, d);
    var n := Scale(x, d).Floor;
    assert Scale(-x, d) == (-n) as real;
  }

  lemma AddHasDecimals(x: real, y: real, d: nat)
    requires HasDecimals(x, d) && HasDecimals(y, d)
    ensures HasDecimals(x + y, d)
  {
    ScaleAdd(x, y, d);
    var m, n := Scale(x, d).Floor, Scale(y, d).Floor;
    assert Scale(x + y, d) == (m + n) as real;
  }

  lemma SubHasDecimals(x: real, y: real, d: nat)
    requires HasDecimals(x, d) && HasDecimals(y, d)
    ensures HasDecimals(x - y, d)
  {
    NegHasDecimals(y, d);
    AddHasDecimals(x, -y, d);
  }

  /** Rounding a number that already has `d` decimals leaves it unchanged. */
  lemma ToFixedExact(x: real, d: nat)
    requires HasDecimals(x, d)
    ensures ToFixed(x, d) == x
  {
    if x >= 0.0 {
      RoundWhole(x, d);
    } else {
      NegHasDecimals(x, d);
      RoundWhole(-x, d);
    }
  }

  lemma RoundWhole(x: real, d: nat)
    requires HasDecimals(x, d)
    ensures Unscale((Scale(x, d) + 0.5).Floor as real, d) == x
  {
    var y := Scale(x, d);
    var n := (y + 0.5).Floor;
    assert n == y.Floor;
    ScaleUnscale(n as real, d);
    ScaleInjective(Unscale(n as real, d), x, d);
  }

  /** toFixed never moves a value by more than half a unit in the last place. */
  lemma ToFixedError(x: real, d: nat)
    ensures -0.5 <= Scale(ToFixed(x, d) - x, d) <= 0.5
  {
    var r := ToFixed(x, d);
    ScaleSub(r, x, d);
    if x >= 0.0 {
      var n := (Scale(x, d) + 0.5).Floor;
      ScaleUnscale(n as real, d);
    } else {
      var n := (Scale(-x, d) + 0.5).Floor;
      ScaleUnscale(n as real, d);
      ScaleNeg(Unscale(n as real, d), d);
      ScaleNeg(x, d);
    }
  }

  /** toFixed preserves order (not strictly). */
  lemma ToFixedMonotone(x: real, y: real, d: nat)
    requires x <= y
    ensures ToFixed(x, d) <= ToFixed(y, d)
  {
    if x >= 0.0 {
      ScaleMonotone(x, y, d);
      var m, n := (Scale(x, d) + 0.5).Floor, (Scale(y, d) + 0.5).Floor;
      assert m <= n;
      UnscaleMonotone(m as real, n as real, d);
    } else if y < 0.0 {
      ScaleMonotone(-y, -x, d);
      var m, n := (Scale(-y, d) + 0.5).Floor, (Scale(-x, d) + 0.5).Floor;
      assert m <= n;
      UnscaleMonotone(m as real, n as real, d);
    }
  }

  lemma {:induction false} UnscaleMonotone(x: real, y: real, d: nat)
    requires x <= y
    ensures Unscale(x, d) <= Unscale(y, d)
  {
    if d > 0 { UnscaleMonotone(x, y, d - 1); }
  }

  /** toFixed(2) on a non-negative number, written out. */
  lemma ToFixedTwo(x: real)
    requires x >= 0.0
    ensures ToFixed(x, 2) == (100.0 * x + 0.5).Floor as real / 100.0
  {
    assert Scale(x, 2) == 10.0 * Scale(x, 1) == 10.0 * (10.0 * Scale(x, 0)) == 100.0 * x;
    var n := (100.0 * x + 0.5).Floor as real;
    assert Unscale(n, 2) == Unscale(n, 1) / 10.0 == Unscale(n, 0) / 10.0 / 10.0 == n / 100.0;
  }

  /** toFixed rounds |x| and puts the sign back, so ties go away from zero on both sides. */
  lemma ToFixedNegate(x: real, d: nat)
    ensures ToFixed(-x, d) == -ToFixed(x, d)
  {
    if x == 0.0 {
      ScaleZero(d);
      UnscaleSign(0.0, d);
    }
  }

  /** A negative tie: -0.125 rounds to -0.13, the mirror image of 0.125 rounding to 0.13. */
  lemma ToFixedNegativeTie()
    ensures ToFixed(-0.125, 2) == -0.13
  {
    ToFixedNegate(0.125, 2);
    ToFixedTwo(0.125);
    assert (100.0 * 0.125 + 0.5).Floor == 13;
  }

  /** toFixed(2) moves a value by at most half a hundredth. */
  lemma ToFixedTwoError(x: real)
    ensures -0.005 <= ToFixed(x, 2) - x <= 0.005
  {
    var y := ToFixed(x, 2) - x;
    ToFixedError(x, 2);
    assert Scale(y, 2) == 10.0 * Scale(y, 1) == 10.0 * (10.0 * Scale(y, 0)) == 100.0 * y;
  }
}
