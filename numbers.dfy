/**
 * Scores are modelled over `real`. Python's `round(x, 1)` and
 * `round(x, 4)` become round-half-up to one and four decimals; the lemmas
 * below state only what also holds for Python's rounding of floats.
 */
module Numbers {

  function Max(a: real, b: real): (r: real)
    ensures r >= a && r >= b && (r == a || r == b)
  {
    if a >= b then a else b
  }

  function Min(a: real, b: real): (r: real)
    ensures r <= a && r <= b && (r == a || r == b)
  {
    if a <= b then a else b
  }

  /** `round(x, 1)`: the nearest multiple of 0.1. */
  function Round1(x: real): (r: real)
    ensures x - 0.05 < r <= x + 0.05
    ensures 0.0 <= x <= 100.0 ==> 0.0 <= r <= 100.0
  {
    (x * 10.0 + 0.5).Floor as real / 10.0
  }

  /** `round(x, 4)`: the nearest multiple of 0.0001. */
  function Round4(x: real): (r: real)
    ensures x - 0.00005 < r <= x + 0.00005
    ensures 0.0 <= x <= 1.0 ==> 0.0 <= r <= 1.0
  {
    (x * 10000.0 + 0.5).Floor as real / 10000.0
  }

  /** Rounding never reverses the order of two scores. */
  lemma Round1Monotone(x: real, y: real)
    requires x <= y
    ensures Round1(x) <= Round1(y)
  {
    assert (x * 10.0 + 0.5).Floor <= (y * 10.0 + 0.5).Floor;
  }

  /** Whole numbers are left as they are. */
  lemma Round1Whole(n: int)
    ensures Round1(n as real) == n as real
  {
    assert (n as real * 10.0 + 0.5).Floor == n * 10;
  }

  lemma Round4Whole(n: int)
    ensures Round4(n as real) == n as real
  {
    assert (n as real * 10000.0 + 0.5).Floor == n * 10000;
  }

  /** Rounding an already rounded value changes nothing. */
  lemma Round1Idempotent(x: real)
    ensures Round1(Round1(x)) == Round1(x)
  {
    var n := (x * 10.0 + 0.5).Floor;
    assert Round1(x) == n as real / 10.0;
    assert (n as real / 10.0 * 10.0 + 0.5).Floor == n;
  }

  lemma DivSelf(x: real)
    requires x != 0.0
    ensures x / x == 1.0
  {
  }

  /** `v · (w / w)` is `v`. */
  lemma Cancel(v: real, w: real, s: real)
    requires w != 0.0 && s == v * (w / w)
    ensures s == v
  {
    DivSelf(w);
  }

  lemma MulMonotone(a: real, b: real, k: real)
    requires a <= b && k >= 0.0
    ensures a * k <= b * k
  {
    MulNonNegative(b - a, k);
  }

  lemma MulNonNegative(a: real, b: real)
    requires a >= 0.0 && b >= 0.0
    ensures a * b >= 0.0
  {
  }
}
