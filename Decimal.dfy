/**
 * Decimal rounding to one place, as `parseFloat(x.toFixed(1))` performs it, stated over
 * exact reals. `toFixed(1)` picks the integer n for which n / 10 is closest to the number,
 * the larger one when two are equally close, after setting the sign aside; `parseFloat`
 * reads the digits back.
 */
module Decimal {

  function Abs(x: real): (r: real)
    ensures r >= 0.0 && (r == x || r == -x)
  {
    if x < 0.0 then -x else x
  }

  /** x is a whole number of tenths. */
  predicate IsTenth(x: real) {
    (x * 10.0).Floor as real == x * 10.0
  }

  /** Rounding of a non-negative number to the nearest tenth, half-way cases upwards. */
  function RoundNonNegative(x: real): (r: real)
    requires x >= 0.0
    ensures r >= 0.0
    ensures IsTenth(r)
    ensures x - 0.05 < r <= x + 0.05
  {
    var n := (x * 10.0 + 0.5).Floor;
    assert n as real * 0.1 * 10.0 == n as real;
    n as real * 0.1
  }

  /** The negation of a whole number of tenths is one too. */
  lemma NegatedTenth(x: real)
    requires IsTenth(x)
    ensures IsTenth(-x)
  {
    var n := (x * 10.0).Floor;
    assert -x * 10.0 == (-n) as real;
  }

  /** `parseFloat(x.toFixed(1))` on the exact value x. */
  function RoundTenth(x: real): (r: real)
    ensures IsTenth(r)
    ensures Abs(r - x) <= 0.05
    ensures x >= 0.0 ==> r >= 0.0
  {
    if x < 0.0 then
      var m := RoundNonNegative(-x);
      NegatedTenth(m);
      -m
    else
      RoundNonNegative(x)
  }

  /** No multiple of a tenth is closer to x than its rounding. */
  lemma RoundTenthIsNearest(x: real, k: int)
    ensures Abs(RoundTenth(x) - x) <= Abs(k as real / 10.0 - x)
  {
    var r := RoundTenth(x);
    var n := (r * 10.0).Floor;
    assert r == n as real / 10.0;
    if k != n {
      // Two distinct tenths lie at least 0.1 apart, and r is within 0.05 of x.
      assert Abs(k as real - n as real) >= 1.0;
      assert Abs(k as real / 10.0 - r) >= 0.1;
    }
  }

  lemma FloorMonotone(a: real, b: real)
    requires a <= b
    ensures a.Floor <= b.Floor
  {
  }

  /** Rounding never reverses the order of two numbers. */
  lemma RoundTenthMonotone(x: real, y: real)
    requires x <= y
    ensures RoundTenth(x) <= RoundTenth(y)
  {
    if 0.0 <= x {
      FloorMonotone(x * 10.0 + 0.5, y * 10.0 + 0.5);
    } else if y <= 0.0 {
      FloorMonotone(-y * 10.0 + 0.5, -x * 10.0 + 0.5);
    }
  }

  /** Rounding leaves a number alone exactly when it already is a whole number of tenths. */
  lemma RoundTenthFixesTenths(x: real)
    ensures RoundTenth(x) == x <==> IsTenth(x)
  {
    if IsTenth(x) {
      var n := (x * 10.0).Floor;
      assert x == n as real / 10.0;
      RoundTenthIsNearest(x, n);
    }
  }

  /** Rounding twice is rounding once. */
  lemma RoundTenthIdempotent(x: real)
    ensures RoundTenth(RoundTenth(x)) == RoundTenth(x)
  {
    RoundTenthFixesTenths(RoundTenth(x));
  }

  /** The sign is set aside before rounding, so rounding commutes with negation. */
  lemma RoundTenthSymmetric(x: real)
    ensures RoundTenth(-x) == -RoundTenth(x)
  {
  }
}
