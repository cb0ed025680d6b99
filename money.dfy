/** Rounding of amounts to whole cents, as `parseFloat(x.toFixed(2))` does it:
    the nearest multiple of 0.01, a tie going away from zero (`toFixed` rounds
    the magnitude half-up and puts the sign back). Amounts are exact reals. */
module Money {

  /** `x` is a whole number of cents. */
  predicate IsCents(x: real) {
    (x * 100.0).Floor as real == x * 100.0
  }

  /** `r` is a whole number of cents within half a cent of `x`, a tie going
      away from zero: what `toFixed(2)` gives, read back as a number. */
  predicate RoundedFrom(r: real, x: real) {
    && IsCents(r)
    && (x >= 0.0 ==> r - 0.005 <= x < r + 0.005)
    && (x < 0.0 ==> r - 0.005 < x <= r + 0.005)
  }

  /** `x` rounded to two decimal places. */
  function Round2(x: real): (r: real)
    ensures RoundedFrom(r, x)
    ensures x >= 0.0 ==> r >= 0.0
  {
    var n := ((if x >= 0.0 then x else -x) * 100.0 + 0.5).Floor;
    CentsOfInt(n);
    CentsOfInt(-n);
    if x >= 0.0 then n as real / 100.0 else -(n as real / 100.0)
  }

  lemma CentsOfInt(n: int)
    ensures IsCents(n as real / 100.0)
  {
    assert (n as real / 100.0) * 100.0 == n as real;
  }

  /** Rounding never reverses the order of two amounts. */
  lemma Round2Monotone(x: real, y: real)
    requires x <= y
    ensures Round2(x) <= Round2(y)
  {
    if x >= 0.0 {
      assert (x * 100.0 + 0.5).Floor <= (y * 100.0 + 0.5).Floor;
    } else if y < 0.0 {
      assert (-y * 100.0 + 0.5).Floor <= (-x * 100.0 + 0.5).Floor;
    }
  }

  /** An amount already in whole cents is left as it is; in particular
      `Round2(0) == 0`. */
  lemma Round2OfCents(x: real)
    requires IsCents(x)
    ensures Round2(x) == x
  {
    var n := (x * 100.0).Floor;
    assert x * 100.0 == n as real;
    if x >= 0.0 {
      assert (x * 100.0 + 0.5).Floor == n;
    } else {
      assert (-x * 100.0 + 0.5).Floor == -n;
    }
  }

  /** The postcondition of `Round2` determines its result: no two different
      whole-cent amounts lie within the same half-open window of one cent. */
  lemma Round2Unique(x: real, c: real)
    requires RoundedFrom(c, x)
    ensures c == Round2(x)
  {
    var r := Round2(x);
    var n, m := (c * 100.0).Floor, (r * 100.0).Floor;
    assert c * 100.0 == n as real && r * 100.0 == m as real;
    assert -1 < n - m < 1;
  }

  /** `x` lies in the half-cent window around `cents / 100`, which is
      therefore its rounding. */
  lemma RoundsTo(x: real, cents: int)
    requires x >= 0.0
    requires cents as real / 100.0 - 0.005 <= x < cents as real / 100.0 + 0.005
    ensures Round2(x) == cents as real / 100.0
  {
    CentsOfInt(cents);
    Round2Unique(x, cents as real / 100.0);
  }
}
