/**
 * The projected revenue series: the current revenue, then five yearly points
 * compounding it by the growth rate `1 + total / revenue`.
 */
module Growth {
  import opened Numbers

  datatype GrowthPoint = GrowthPoint(year: string, revenue: Num)

  /** Number of projected years after the current one. */
  const Years: nat := 5

  function DigitChar(d: nat): char
    requires d < 10
  {
    "0123456789"[d]
  }

  /** The decimal numeral of n, as a template literal renders a whole number. */
  function Decimal(n: nat): string
    decreases n
  {
    if n < 10 then [DigitChar(n)] else Decimal(n / 10) + [DigitChar(n % 10)]
  }

  /** The label `Year i`; for a single-digit year it is "Year " followed by that digit. */
  function YearLabel(i: nat): (l: string)
    ensures |l| > 5 && l[..5] == "Year "
    ensures i < 10 ==> |l| == 6 && l[5] == "0123456789"[i]
  {
    "Year " + Decimal(i)
  }

  /** The five projected years carry five different labels. */
  lemma YearLabelsDistinct(i: nat, j: nat)
    requires 1 <= i < j <= Years
    ensures YearLabel(i) != YearLabel(j)
  {
    assert YearLabel(i)[5] != YearLabel(j)[5];
  }

  /** The growth rate: one plus the total savings as a fraction of revenue. */
  function GrowthRate(total: Num, revenue: real): (g: Num)
    ensures g.Finite? <==> total.Finite? && revenue != 0.0
    ensures g.Finite? ==> (g.value - 1.0) * revenue == total.value
  {
    Add(Finite(1.0), Div(total, revenue))
  }

  function CurrentPoint(revenue: real): GrowthPoint {
    GrowthPoint("Current", Finite(revenue))
  }

  /** The point for year i: revenue times the rate to the power i. */
  function YearPoint(revenue: real, rate: Num, i: nat): (p: GrowthPoint)
    requires i >= 1
    ensures p.year == YearLabel(i)
    ensures p.revenue.Finite? <==> rate.Finite?
    ensures i == 1 ==> p.revenue == Mul(Finite(revenue), rate)
  {
    GrowthPoint(YearLabel(i), Mul(Finite(revenue), NumPow(rate, i)))
  }

  /** The current point followed by the points for years 1 to `years`, built one year at a time. */
  function Projection(revenue: real, rate: Num, years: nat): (s: seq<GrowthPoint>)
    ensures |s| == years + 1
    ensures s[0] == CurrentPoint(revenue)
  {
    if years == 0 then [CurrentPoint(revenue)]
    else Projection(revenue, rate, years - 1) + [YearPoint(revenue, rate, years)]
  }

  lemma {:induction false} ProjectionAt(revenue: real, rate: Num, years: nat, i: nat)
    requires 1 <= i <= years
    ensures Projection(revenue, rate, years)[i] == YearPoint(revenue, rate, i)
  {
    if i < years {
      ProjectionAt(revenue, rate, years - 1, i);
    }
  }

  /** Builds the series with a loop pushing one year per iteration. */
  method ProjectGrowth(revenue: real, total: Num) returns (points: seq<GrowthPoint>)
    ensures points == Projection(revenue, GrowthRate(total, revenue), Years)
  {
    var growthRate := GrowthRate(total, revenue);
    points := [CurrentPoint(revenue)];
    for i := 1 to Years + 1
      invariant points == Projection(revenue, growthRate, i - 1)
    {
      points := points + [YearPoint(revenue, growthRate, i)];
    }
  }

  /** The series has six points labelled "Current", "Year 1", ..., "Year 5", and starts at the raw revenue. */
  lemma SeriesShape(revenue: real, rate: Num)
    ensures var s := Projection(revenue, rate, Years);
      |s| == 6 &&
      s[0] == GrowthPoint("Current", Finite(revenue)) &&
      s[1].year == "Year 1" && s[2].year == "Year 2" && s[3].year == "Year 3" &&
      s[4].year == "Year 4" && s[5].year == "Year 5"
  {
    forall i | 1 <= i <= Years {
      ProjectionAt(revenue, rate, Years, i);
    }
  }

  /** With a nonzero revenue and a finite total, the rate is `1 + total/revenue` and point i
      (0 for the current year) holds `revenue * rate^i`. */
  lemma SeriesClosedForm(revenue: real, total: Num, i: nat)
    requires revenue != 0.0 && total.Finite? && i <= Years
    ensures GrowthRate(total, revenue) == Finite(1.0 + total.value / revenue)
    ensures Projection(revenue, GrowthRate(total, revenue), Years)[i].revenue
        == Finite(revenue * Pow(1.0 + total.value / revenue, i))
  {
    PointRevenue(revenue, 1.0 + total.value / revenue, Years, i);
  }

  /** Each year's revenue is the previous point's revenue times the growth rate. */
  lemma SeriesCompounds(revenue: real, total: Num, i: nat)
    requires revenue != 0.0 && total.Finite? && 1 <= i <= Years
    ensures var s, g := Projection(revenue, GrowthRate(total, revenue), Years), 1.0 + total.value / revenue;
      s[i].revenue.Finite? && s[i - 1].revenue.Finite? &&
      s[i].revenue.value == s[i - 1].revenue.value * g
  {
    SeriesClosedForm(revenue, total, i);
    SeriesClosedForm(revenue, total, i - 1);
  }

  /** Point i of a series with a finite rate holds revenue times the rate to the power i. */
  lemma PointRevenue(revenue: real, g: real, years: nat, i: nat)
    requires i <= years
    ensures Projection(revenue, Finite(g), years)[i].revenue == Finite(revenue * Pow(g, i))
  {
    if i > 0 {
      ProjectionAt(revenue, Finite(g), years, i);
    }
  }

  /** A positive revenue compounded by a rate above 1 rises strictly, over any number of years. */
  lemma RisingProjection(revenue: real, g: real, years: nat)
    requires revenue > 0.0 && g > 1.0
    ensures var s := Projection(revenue, Finite(g), years);
      forall i, j :: 0 <= i < j <= years ==>
        s[i].revenue.Finite? && s[j].revenue.Finite? && s[i].revenue.value < s[j].revenue.value
  {
    var s := Projection(revenue, Finite(g), years);
    forall i: nat, j: nat | i < j <= years
      ensures s[i].revenue.Finite? && s[j].revenue.Finite? && s[i].revenue.value < s[j].revenue.value
    {
      PointRevenue(revenue, g, years, i);
      PointRevenue(revenue, g, years, j);
      PowStrictlyIncreasing(g, i, j);
      ScaleStrict(revenue, Pow(g, i), Pow(g, j));
    }
  }

  /** Positive savings on a positive revenue make the series strictly increasing. */
  lemma SeriesStrictlyIncreasing(revenue: real, total: Num)
    requires revenue > 0.0 && total.Finite? && total.value > 0.0
    ensures forall i, j :: 0 <= i < j <= Years ==>
      var s := Projection(revenue, GrowthRate(total, revenue), Years);
      s[i].revenue.Finite? && s[j].revenue.Finite? && s[i].revenue.value < s[j].revenue.value
  {
    var g := 1.0 + total.value / revenue;
    assert g > 1.0 by {
      assert total.value / revenue > 0.0;
    }
    assert GrowthRate(total, revenue) == Finite(g);
    RisingProjection(revenue, g, Years);
  }

  /** A zero revenue or a non-finite total makes every projected year non-finite; "Current" stays the raw revenue. */
  lemma SeriesDegenerate(revenue: real, total: Num)
    requires revenue == 0.0 || total.NonFinite?
    ensures var s := Projection(revenue, GrowthRate(total, revenue), Years);
      s[0].revenue == Finite(revenue) &&
      forall i :: 1 <= i <= Years ==> s[i].revenue == NonFinite
  {
    forall i | 1 <= i <= Years {
      ProjectionAt(revenue, GrowthRate(total, revenue), Years, i);
    }
  }
}
