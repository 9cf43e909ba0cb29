/** Money is a JavaScript number; the model uses exact `real` arithmetic and
    writes out the two roundings the checkout performs:
    `parseFloat(x.toFixed(2))` and `Math.round(x)`. */
module Money {

  /** The number of cents that `x.toFixed(2)` denotes: the nearest multiple
      of 0.01, halves rounded away from zero (toFixed rounds the magnitude). */
  function Cents(x: real): int {
    if x >= 0.0 then (x * 100.0 + 0.5).Floor else -((-x) * 100.0 + 0.5).Floor
  }

  /** `parseFloat(x.toFixed(2))`. */
  function Round2(x: real): real {
    Cents(x) as real / 100.0
  }

  /** `Math.round(x)`: the nearest integer, halves rounded up. */
  function MathRound(x: real): int {
    (x + 0.5).Floor
  }

  /** Rounding to two decimals moves a value by at most half a cent. */
  lemma Round2Close(x: real)
    ensures -0.005 <= Round2(x) - x <= 0.005
  {
    var k := Cents(x);
    if x >= 0.0 {
      assert k as real <= x * 100.0 + 0.5 < k as real + 1.0;
    } else {
      var m := ((-x) * 100.0 + 0.5).Floor;
      assert m as real <= (-x) * 100.0 + 0.5 < m as real + 1.0;
      assert k == -m;
    }
  }

  /** A value that is already a whole number of cents is left as it is. */
  lemma {:induction false} CentsOfWholeCents(k: int)
    ensures Cents(k as real / 100.0) == k
    ensures Round2(k as real / 100.0) == k as real / 100.0
  {
    var x := k as real / 100.0;
    assert x * 100.0 == k as real;
    if k >= 0 {
      assert (k as real + 0.5).Floor == k;
    } else {
      assert (-x) * 100.0 == (-k) as real;
      assert ((-k) as real + 0.5).Floor == -k;
    }
  }

  /** So rounding twice is rounding once: a rounded total is never changed
      by being rounded again. */
  lemma Round2Idempotent(x: real)
    ensures Round2(Round2(x)) == Round2(x)
  {
    CentsOfWholeCents(Cents(x));
  }

  /** `Math.round` leaves whole numbers as they are. */
  lemma MathRoundWhole(k: int)
    ensures MathRound(k as real) == k
  {
  }
}
