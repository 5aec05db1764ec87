/** JavaScript's `Math.round` on exact (real) values, and the pages' zero-guarded percentages. */
module Numbers {

  /** The nearest integer; a value exactly halfway rounds up, as Math.round does. */
  function Round(x: real): (r: int)
    ensures r as real - 0.5 <= x < r as real + 0.5
  {
    (x + 0.5).Floor
  }

  lemma RoundMonotone(x: real, y: real)
    requires x <= y
    ensures Round(x) <= Round(y)
  {
  }

  lemma RoundOfInteger(n: int)
    ensures Round(n as real) == n
  {
  }

  /**
   * `whole > 0 ? Math.round((part / whole) * 100) : 0`: the whole number
   * of percent nearest to the share `part / whole`, and 0 when there is no
   * whole to share.
   */
  function Percent(part: real, whole: real): (r: int)
    ensures whole <= 0.0 ==> r == 0
    ensures whole > 0.0 ==> (r as real - 0.5) * whole <= part * 100.0 < (r as real + 0.5) * whole
  {
    if whole > 0.0 then
      var x := part / whole * 100.0;
      var r := Round(x);
      QuotientTimesDivisor(part, whole);
      ScaledBounds(r as real - 0.5, x, r as real + 0.5, whole, part * 100.0);
      r
    else 0
  }

  lemma QuotientTimesDivisor(part: real, whole: real)
    requires whole > 0.0
    ensures part / whole * 100.0 * whole == part * 100.0
  {
  }

  /** Bounds on a quotient carry over to the dividend once multiplied back by the divisor. */
  lemma ScaledBounds(lo: real, x: real, hi: real, c: real, target: real)
    requires c > 0.0 && lo <= x < hi && x * c == target
    ensures lo * c <= target < hi * c
  {
  }

  lemma ScaleKeepsOrder(a: real, b: real, c: real)
    requires c > 0.0
    ensures a <= b ==> a * c <= b * c
    ensures a < b ==> a * c < b * c
  {
  }

  /** A share of a whole, no larger than the whole, lies between 0 and 100 percent. */
  lemma PercentBounds(part: real, whole: real)
    requires 0.0 <= part <= whole
    ensures 0 <= Percent(part, whole) <= 100
  {
    if whole > 0.0 {
      var x := part / whole * 100.0;
      assert x <= 100.0;
      RoundMonotone(0.0, x);
      RoundMonotone(x, 100.0);
      RoundOfInteger(0);
      RoundOfInteger(100);
    }
  }

  /** All of a positive whole is 100 percent, none of it 0 percent. */
  lemma PercentOfAllAndNone(whole: real)
    requires whole > 0.0
    ensures Percent(whole, whole) == 100
    ensures Percent(0.0, whole) == 0
  {
  }

  /** A larger share never gives a smaller percentage of the same whole. */
  lemma PercentMonotone(part: real, more: real, whole: real)
    requires part <= more
    ensures Percent(part, whole) <= Percent(more, whole)
  {
    if whole > 0.0 {
      assert part / whole <= more / whole;
      RoundMonotone(part / whole * 100.0, more / whole * 100.0);
    }
  }

  /** The percentage for a count out of a total, as the pages compute it for `filter(...).length`. */
  function Share(count: int, total: int): (r: int)
    requires 0 <= count <= total
    ensures total == 0 ==> r == 0
    ensures 0 <= r <= 100
    ensures total > 0 ==> (r as real - 0.5) * total as real <= count as real * 100.0 < (r as real + 0.5) * total as real
  {
    PercentBounds(count as real, total as real);
    Percent(count as real, total as real)
  }

  /** All of a positive total is 100 percent, none of it 0 percent. */
  lemma ShareOfAllAndNone(total: int)
    requires total > 0
    ensures Share(total, total) == 100
    ensures Share(0, total) == 0
  {
    PercentOfAllAndNone(total as real);
  }
}
