/**
 * The two ratios the statistics endpoints report: a mean and a percentage, each
 * 0 when there is nothing to divide by. Exact reals stand for the program's
 * floats; the `round(..., 1)` applied before returning them is not modelled.
 */
module Metrics {

  /** `total / n if n > 0 else 0`. */
  function Mean(total: int, n: nat): (r: real)
    ensures n == 0 ==> r == 0.0
    ensures n > 0 ==> r * n as real == total as real
  {
    if n > 0 then total as real / n as real else 0.0
  }

  /** `part / whole * 100 if whole > 0 else 0`. */
  function Percent(part: nat, whole: nat): (r: real)
    ensures whole == 0 ==> r == 0.0
    ensures whole > 0 ==> r * whole as real == 100.0 * part as real
  {
    if whole > 0 then part as real / whole as real * 100.0 else 0.0
  }

  /** A part of a whole is between 0 and 100 percent of it. */
  lemma PercentBounds(part: nat, whole: nat)
    requires part <= whole
    ensures 0.0 <= Percent(part, whole) <= 100.0
  {
    if whole > 0 {
      var r := Percent(part, whole);
      var w := whole as real;
      assert r * w == 100.0 * part as real;
      assert 100.0 * part as real <= 100.0 * w;
    }
  }

  /** The mean of values each between `lo` and `hi` is between `lo` and `hi`. */
  lemma MeanBounds(total: int, n: nat, lo: int, hi: int)
    requires n > 0 && lo * n <= total <= hi * n
    ensures lo as real <= Mean(total, n) <= hi as real
  {
    var r := Mean(total, n);
    var m := n as real;
    assert r * m == total as real;
    assert (lo * n) as real == lo as real * m && (hi * n) as real == hi as real * m;
  }
}
