/**
 * app/page.tsx: the main calculator. Its effect derives seven figures from
 * the four inputs held by the calculation provider, and two classifiers
 * colour the operating profit and label the break-even ratio.
 */
module Dashboard {
  import opened Common
  import opened CalculationState

  datatype Metrics = Metrics(
    marginalProfit: real,
    marginalProfitRate: real,
    breakEvenPoint: Extended,
    breakEvenPointRatio: real,
    operatingProfit: real,
    operatingProfitRate: real,
    roi: real)

  /** The chain of conditional expressions in the page's effect. */
  function ComputeMetrics(d: CalculationData): (m: Metrics)
    ensures m.marginalProfit == d.sales - d.variableCost
    ensures m.operatingProfit == m.marginalProfit - d.fixedCost
    ensures d.sales <= 0.0 ==> m.marginalProfitRate == 0.0 && m.operatingProfitRate == 0.0
    ensures d.sales > 0.0 ==> m.operatingProfitRate * d.sales == m.operatingProfit * 100.0
    ensures d.investment <= 0.0 ==> m.roi == 0.0
    ensures d.investment > 0.0 ==> m.roi * d.investment == m.operatingProfit * 100.0
  {
    var marginalProfit := d.sales - d.variableCost;
    var marginalProfitRate := if d.sales > 0.0 then (marginalProfit / d.sales) * 100.0 else 0.0;
    var breakEvenPoint :=
      if marginalProfitRate > 0.0 then Finite(d.fixedCost / (marginalProfitRate / 100.0)) else Infinity;
    var breakEvenPointRatio :=
      if breakEvenPoint == Infinity then 100.0
      else if d.sales > 0.0 then (breakEvenPoint.value / d.sales) * 100.0
      else 0.0;
    var operatingProfit := marginalProfit - d.fixedCost;
    var operatingProfitRate := if d.sales > 0.0 then (operatingProfit / d.sales) * 100.0 else 0.0;
    var roi := if d.investment > 0.0 then (operatingProfit / d.investment) * 100.0 else 0.0;
    Metrics(marginalProfit, marginalProfitRate, breakEvenPoint, breakEvenPointRatio,
            operatingProfit, operatingProfitRate, roi)
  }

  /** With positive sales, the rate times sales is a hundred times the marginal profit. */
  lemma MarginalRateScales(d: CalculationData)
    requires d.sales > 0.0
    ensures ComputeMetrics(d).marginalProfitRate * d.sales == (d.sales - d.variableCost) * 100.0
  {
    var mp := d.sales - d.variableCost;
    assert (mp / d.sales) * d.sales == mp;
  }

  /** The rate is positive exactly when sales are positive and exceed the variable cost. */
  lemma MarginalRatePositiveIff(d: CalculationData)
    ensures ComputeMetrics(d).marginalProfitRate > 0.0 <==> d.sales > 0.0 && d.variableCost < d.sales
  {
    if d.sales > 0.0 {
      MarginalRateScales(d);
    }
  }

  /** Break-even is infinite exactly when the rate is not positive, i.e. when no sale covers its own variable cost. */
  lemma BreakEvenInfiniteIff(d: CalculationData)
    ensures ComputeMetrics(d).breakEvenPoint == Infinity <==> ComputeMetrics(d).marginalProfitRate <= 0.0
    ensures ComputeMetrics(d).breakEvenPoint == Infinity <==> d.sales <= 0.0 || d.variableCost >= d.sales
  {
    MarginalRatePositiveIff(d);
  }

  /** An infinite break-even point always reads as a 100% ratio, and without sales the break-even point is infinite: the ratio's `: 0` branch is never taken. */
  lemma {:induction false} BreakEvenRatioDefault(d: CalculationData)
    ensures ComputeMetrics(d).breakEvenPoint == Infinity ==> ComputeMetrics(d).breakEvenPointRatio == 100.0
    ensures d.sales <= 0.0 ==> ComputeMetrics(d).breakEvenPoint == Infinity && ComputeMetrics(d).breakEvenPointRatio == 100.0
    ensures ComputeMetrics(d).breakEvenPointRatio == 100.0 || (d.sales > 0.0 && ComputeMetrics(d).breakEvenPoint.Finite?)
  {
    BreakEvenInfiniteIff(d);
  }

  /** A finite break-even point times the rate (as a fraction) covers the fixed cost exactly. */
  lemma BreakEvenCoversFixedCost(d: CalculationData)
    requires ComputeMetrics(d).breakEvenPoint.Finite?
    ensures var m := ComputeMetrics(d);
      m.breakEvenPoint.value * (m.marginalProfitRate / 100.0) == d.fixedCost
  {
  }

  /** With positive sales and rate, the break-even point is fixedCost * sales / marginalProfit. */
  lemma BreakEvenClosedForm(d: CalculationData)
    requires d.sales > 0.0 && ComputeMetrics(d).marginalProfitRate > 0.0
    ensures var m := ComputeMetrics(d);
      m.breakEvenPoint == Finite(d.fixedCost * d.sales / m.marginalProfit)
  {
    var m := ComputeMetrics(d);
    var s, mp := d.sales, m.marginalProfit;
    var k := m.marginalProfitRate / 100.0;
    MarginalRateScales(d);
    assert k * s == mp;
    MarginalRatePositiveIff(d);
    assert mp > 0.0;
    var bep := m.breakEvenPoint.value;
    BreakEvenCoversFixedCost(d);
    assert bep * k == d.fixedCost;
    assert bep * mp == d.fixedCost * s by {
      calc {
        bep * mp;
        bep * (k * s);
        (bep * k) * s;
        d.fixedCost * s;
      }
    }
    assert bep == d.fixedCost * s / mp;
  }

  /** With positive sales and rate, the break-even ratio is fixedCost / marginalProfit * 100. */
  lemma BreakEvenRatioFinite(d: CalculationData)
    requires d.sales > 0.0 && ComputeMetrics(d).marginalProfitRate > 0.0
    ensures var m := ComputeMetrics(d);
      m.breakEvenPointRatio == d.fixedCost / m.marginalProfit * 100.0
  {
    var m := ComputeMetrics(d);
    var s, mp := d.sales, m.marginalProfit;
    BreakEvenClosedForm(d);
    MarginalRatePositiveIff(d);
    var bep := m.breakEvenPoint.value;
    assert bep * mp == d.fixedCost * s;
    assert bep / s == d.fixedCost / mp by {
      assert (bep / s) * mp * s == bep * mp;
      assert (d.fixedCost / mp) * mp * s == d.fixedCost * s;
    }
  }

  /** The break-even point is the border line of profit: sales reach it exactly when operating profit is not negative. */
  lemma BreakEvenBorderLine(d: CalculationData)
    requires ComputeMetrics(d).marginalProfitRate > 0.0
    ensures var m := ComputeMetrics(d);
      m.breakEvenPoint.Finite? && (d.sales >= m.breakEvenPoint.value <==> m.operatingProfit >= 0.0)
  {
    var m := ComputeMetrics(d);
    MarginalRatePositiveIff(d);
    MarginalRateScales(d);
    BreakEvenCoversFixedCost(d);
    var k := m.marginalProfitRate / 100.0;
    var bep := m.breakEvenPoint.value;
    assert k > 0.0;
    assert d.sales * k == m.marginalProfit;
    assert bep * k == d.fixedCost;
    assert d.sales >= bep <==> d.sales * k >= bep * k;
  }

  /** Selling exactly the break-even amount, at the same cost structure, leaves an operating profit of zero. */
  lemma BreakEvenZeroesProfit(d: CalculationData)
    requires ComputeMetrics(d).marginalProfitRate > 0.0
    ensures var m := ComputeMetrics(d);
      var bep := m.breakEvenPoint.value;
      ComputeMetrics(d.(sales := bep, variableCost := bep * (d.variableCost / d.sales))).operatingProfit == 0.0
  {
    var m := ComputeMetrics(d);
    MarginalRatePositiveIff(d);
    MarginalRateScales(d);
    BreakEvenCoversFixedCost(d);
    var k := m.marginalProfitRate / 100.0;
    var bep := m.breakEvenPoint.value;
    var s, v := d.sales, d.variableCost;
    assert k * s == s - v;
    assert k == 1.0 - v / s by {
      assert (1.0 - v / s) * s == s - v;
      CancelFactor(k, 1.0 - v / s, s);
    }
    assert bep - bep * (v / s) == bep * k;
  }

  /** A non-zero factor can be cancelled from both sides of an equation. */
  lemma CancelFactor(a: real, b: real, s: real)
    requires s != 0.0 && a * s == b * s
    ensures a == b
  {
    assert a == (a * s) / s;
    assert b == (b * s) / s;
  }

  /** Neither operating rate nor ROI is defined from a zero denominator, whatever the profit's sign. */
  lemma DegenerateRates(d: CalculationData)
    ensures d.sales <= 0.0 ==> ComputeMetrics(d).operatingProfitRate == 0.0 && ComputeMetrics(d).marginalProfitRate == 0.0
    ensures d.investment <= 0.0 ==> ComputeMetrics(d).roi == 0.0
    ensures d.investment > 0.0 ==> (ComputeMetrics(d).roi > 0.0 <==> ComputeMetrics(d).operatingProfit > 0.0)
    ensures d.investment > 0.0 ==> (ComputeMetrics(d).roi < 0.0 <==> ComputeMetrics(d).operatingProfit < 0.0)
  {
    if d.investment > 0.0 {
      var op := ComputeMetrics(d).operatingProfit;
      assert (op / d.investment) * d.investment == op;
    }
  }

  /** The worked example: sales 1000, variable cost 400, fixed cost 300. */
  lemma WorkedExample()
    ensures var m := ComputeMetrics(CalculationData(1000.0, 400.0, 300.0, 0.0));
      m.marginalProfit == 600.0 && m.marginalProfitRate == 60.0 && m.breakEvenPoint == Finite(500.0)
      && m.breakEvenPointRatio == 50.0 && m.operatingProfit == 300.0 && m.roi == 0.0
      && Label(BreakEvenRatioStatus(m.breakEvenPointRatio).band) == "安泰"
  {
  }

  /** `getProfitColor`: the hue follows the sign of the value. */
  function ProfitColor(value: real): (h: Hue)
    ensures h == Green <==> value > 0.0
    ensures h == Red <==> value < 0.0
    ensures h == Gray <==> value == 0.0
  {
    if value > 0.0 then Green else if value < 0.0 then Red else Gray
  }

  /** The band of a break-even ratio, by the thresholds 60, 70, 80 and 90. */
  function RatioBand(ratio: real): (b: Band)
    ensures b == Safe <==> ratio < 60.0
    ensures b == Danger <==> ratio >= 90.0
  {
    if ratio < 60.0 then Safe
    else if ratio < 70.0 then Healthy
    else if ratio < 80.0 then Normal
    else if ratio < 90.0 then Caution
    else Danger
  }

  /** Every ratio falls in exactly one half-open band. */
  lemma RatioBandExact(ratio: real)
    ensures RatioBand(ratio) == Safe <==> ratio < 60.0
    ensures RatioBand(ratio) == Healthy <==> 60.0 <= ratio < 70.0
    ensures RatioBand(ratio) == Normal <==> 70.0 <= ratio < 80.0
    ensures RatioBand(ratio) == Caution <==> 80.0 <= ratio < 90.0
    ensures RatioBand(ratio) == Danger <==> 90.0 <= ratio
  {
  }

  /** A higher ratio never lands in a safer band. */
  lemma RatioBandMonotone(a: real, b: real)
    requires a <= b
    ensures Rank(RatioBand(a)) <= Rank(RatioBand(b))
  {
  }

  /** `getBreakEvenRatioStatus`: the band and the hue of its card. */
  datatype Status = Status(band: Band, hue: Hue)

  /** The hue the main page gives each band. */
  function BandHue(b: Band): Hue {
    match b
    case Safe => Green
    case Healthy => Blue
    case Normal => Yellow
    case Caution => Orange
    case Danger => Red
  }

  function BreakEvenRatioStatus(ratio: real): (s: Status)
    ensures s.band == RatioBand(ratio)
    ensures s.hue == Green <==> ratio < 60.0
    ensures s.hue == Blue <==> 60.0 <= ratio < 70.0
    ensures s.hue == Yellow <==> 70.0 <= ratio < 80.0
    ensures s.hue == Orange <==> 80.0 <= ratio < 90.0
    ensures s.hue == Red <==> 90.0 <= ratio
  {
    var band := RatioBand(ratio);
    Status(band, BandHue(band))
  }

  /** Without sales, or with a margin that never covers variable cost, the page shows 危険. */
  lemma NoMarginIsDanger(d: CalculationData)
    requires ComputeMetrics(d).marginalProfitRate <= 0.0
    ensures BreakEvenRatioStatus(ComputeMetrics(d).breakEvenPointRatio).band == Danger
    ensures Label(BreakEvenRatioStatus(ComputeMetrics(d).breakEvenPointRatio).band) == "危険"
  {
    BreakEvenInfiniteIff(d);
  }

  /** `handleInputChange`: the edited field becomes the parsed value, the others stay. */
  method HandleInputChange(provider: CalculationProvider, field: CalculationField, value: real)
    modifies provider
    ensures provider.calculationData == MergeCalculation(old(provider.calculationData), CalculationSingle(field, value))
    ensures CalculationFieldOf(provider.calculationData, field) == value
    ensures forall g :: g != field ==>
      CalculationFieldOf(provider.calculationData, g) == CalculationFieldOf(old(provider.calculationData), g)
    ensures provider.profitPlanData == old(provider.profitPlanData)
  {
    provider.UpdateCalculationData(CalculationSingle(field, value));
  }
}
