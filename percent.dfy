/** The rounded percentage `Math.round((part / whole) * 100)` shown by the screens. */
module Percent {

  /**
   * `Math.round` rounds half up, so the displayed figure is the largest integer
   * not above `100 * part / whole + 1/2`, that is, not above
   * `(200 * part + whole) / (2 * whole)`; computed here without floating point.
   */
  function RoundedPercent(part: nat, whole: nat): (r: nat)
    requires whole > 0
    ensures 2 * whole * r <= 200 * part + whole < 2 * whole * r + 2 * whole
    ensures part <= whole ==> r <= 100
    ensures part == whole ==> r == 100
    ensures part == 0 ==> r == 0
  {
    var w := 2 * whole;
    var n := 200 * part + whole;
    var r := n / w;
    QuotientBounds(n, w);
    assert part <= whole ==> r <= 100 by {
      if part <= whole && r > 100 {
        MulMonotonic(w, 101, r);
      }
    }
    assert part == whole ==> r == 100 by {
      if part == whole && r < 100 {
        MulMonotonic(w, r + 1, 100);
      }
    }
    assert part == 0 ==> r == 0 by {
      if part == 0 && r > 0 {
        MulMonotonic(w, 1, r);
      }
    }
    r
  }

  /** The quotient of Euclidean division is bracketed by the divisor's multiples. */
  lemma QuotientBounds(n: nat, d: nat)
    requires d > 0
    ensures d * (n / d) <= n < d * (n / d) + d
  {
    assert n == d * (n / d) + n % d;
  }

  /** Multiplying by a natural number keeps the order. */
  lemma MulMonotonic(a: nat, b: nat, c: nat)
    requires b <= c
    ensures a * b <= a * c
  {
    assert a * c == a * b + a * (c - b);
  }

  /** More of the same whole never shows a smaller percentage. */
  lemma RoundedPercentMonotonic(a: nat, b: nat, whole: nat)
    requires whole > 0 && a <= b
    ensures RoundedPercent(a, whole) <= RoundedPercent(b, whole)
  {
    var w, ra, rb := 2 * whole, RoundedPercent(a, whole), RoundedPercent(b, whole);
    assert w * ra <= 200 * a + whole && 200 * b + whole < w * rb + w;
    if ra > rb {
      MulStep(w, rb, ra);
    }
  }

  /** A strictly larger factor adds at least one more multiple. */
  lemma MulStep(a: nat, b: nat, c: nat)
    requires b < c
    ensures a * b + a <= a * c
  {
    assert a * c == a * b + a * (c - b);
    MulMonotonic(a, 1, c - b);
  }
}
