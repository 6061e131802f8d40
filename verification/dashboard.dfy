/** The analytics dashboard (app/dashboard/page.tsx): the overall success
    rate and the badge beside each top product. */
module Dashboard {
  import MockData

  /** `Math.round((successful / total) * 100)` for `total > 0`, else 0, in exact
      rational arithmetic: `Math.round(x)` is `floor(x + 1/2)`, and
      `floor(100 s / t + 1/2) == floor((200 s + t) / (2 t))`. */
  function SuccessRate(successful: int, total: int): (r: int)
    ensures total <= 0 ==> r == 0
    ensures total > 0 ==> 2 * total * r - total <= 200 * successful < 2 * total * r + total
    ensures 0 <= successful <= total ==> 0 <= r <= 100
  {
    if total > 0 then
      RateWindow(successful, total);
      (200 * successful + total) / (2 * total)
    else 0
  }

  lemma RateWindow(successful: int, total: int)
    requires total > 0
    ensures var r := (200 * successful + total) / (2 * total);
            && 2 * total * r - total <= 200 * successful < 2 * total * r + total
            && (0 <= successful <= total ==> 0 <= r <= 100)
  {
    var n := 200 * successful + total;
    var d := 2 * total;
    var r := n / d;
    QuotientWindow(n, d);
    if 0 <= successful <= total {
      assert d * r < d * 101;
      CancelFactor(d, r, 101);
    }
  }

  /** Euclidean division by a positive divisor leaves the dividend within one
      divisor above the product. */
  lemma QuotientWindow(n: int, d: int)
    requires d > 0
    ensures d * (n / d) <= n < d * (n / d) + d
  {
  }

  /** A positive factor can be cancelled from a strict inequality. */
  lemma CancelFactor(d: int, a: int, b: int)
    requires d > 0 && d * a < d * b
    ensures a < b
  {
    if a >= b {
      MultiplyOut(d, b, a);
    }
  }

  lemma MultiplyOut(d: int, a: int, b: int)
    requires d > 0 && a <= b
    ensures d * a <= d * b
  {
    assert d * b - d * a == d * (b - a);
  }

  /** The rate is the nearest whole percentage, halves rounding up: no other
      integer lies within the same half-open window. */
  lemma SuccessRateIsNearest(successful: int, total: int, k: int)
    requires total > 0
    requires 2 * total * k - total <= 200 * successful < 2 * total * k + total
    ensures k == SuccessRate(successful, total)
  {
    var r := SuccessRate(successful, total);
    var d := 2 * total;
    assert d * k < d * r + d && d * r < d * k + d;
    assert d * r + d == d * (r + 1) && d * k + d == d * (k + 1);
    CancelFactor(d, k, r + 1);
    CancelFactor(d, r, k + 1);
  }

  /** The mock figures, 1189 successes out of 1247 try-ons, show 95%. */
  lemma MockSuccessRate()
    ensures SuccessRate(MockData.MockAnalytics(0).successfulTryOns, MockData.MockAnalytics(0).totalTryOns) == 95
  {
    SuccessRateIsNearest(1189, 1247, 95);
  }

  /** The badge variants of the top-products card. */
  datatype BadgeVariant = Default | Secondary | Outline

  /** Above 90 is `default`, above 80 `secondary`, anything else `outline`. */
  function BadgeFor(successRate: int): (r: BadgeVariant)
    ensures r == Default <==> successRate > 90
    ensures r == Secondary <==> 80 < successRate <= 90
    ensures r == Outline <==> successRate <= 80
  {
    if successRate > 90 then Default
    else if successRate > 80 then Secondary
    else Outline
  }

  /** The thresholds are strict: 90 is secondary and 80 is outline. */
  lemma BadgeBoundaries()
    ensures BadgeFor(91) == Default && BadgeFor(90) == Secondary
    ensures BadgeFor(81) == Secondary && BadgeFor(80) == Outline
  {
  }

  /** A higher rate never gets a lesser badge. */
  lemma BadgeMonotone(a: int, b: int)
    requires a <= b
    ensures BadgeFor(a) == Default ==> BadgeFor(b) == Default
    ensures BadgeFor(a) == Secondary ==> BadgeFor(b) != Outline
  {
  }
}
