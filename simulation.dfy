/**
 * app/simulation/page.tsx: the simulator keeps its own list of rows, rebuilt
 * from the products whenever they change, edited one field at a time, and
 * folded into aggregate figures with the fixed cost of the main calculator.
 */
module Simulator {
  import opened Common
  import opened CalculationState
  import opened ProductsState
  import Utils
  import Dashboard
  import ProductsPage

  /** Which of a row's two amounts a total adds up. */
  datatype AmountKind = SalesAmount | VariableCostAmount

  function AmountOf(r: SimulationRow, kind: AmountKind): real {
    match kind
    case SalesAmount => r.salesAmount
    case VariableCostAmount => r.variableCostAmount
  }

  /** `rows.reduce((sum, sim) => sum + amount, 0)`, folding from the left. */
  function Total(rows: seq<SimulationRow>, kind: AmountKind): (t: real)
    ensures (forall j :: 0 <= j < |rows| ==> AmountOf(rows[j], kind) == 0.0) ==> t == 0.0
    ensures (forall j :: 0 <= j < |rows| ==> AmountOf(rows[j], kind) >= 0.0) ==> t >= 0.0
  {
    if rows == [] then 0.0 else Total(rows[..|rows| - 1], kind) + AmountOf(rows[|rows| - 1], kind)
  }

  /** The total sales: nothing when no row sells, never negative when no row's amount is. */
  function TotalSales(rows: seq<SimulationRow>): (t: real)
    ensures (forall j :: 0 <= j < |rows| ==> rows[j].salesAmount == 0.0) ==> t == 0.0
    ensures (forall j :: 0 <= j < |rows| ==> rows[j].salesAmount >= 0.0) ==> t >= 0.0
  {
    Total(rows, SalesAmount)
  }

  /** The total variable cost, with the same two bounds. */
  function TotalVariableCost(rows: seq<SimulationRow>): (t: real)
    ensures (forall j :: 0 <= j < |rows| ==> rows[j].variableCostAmount == 0.0) ==> t == 0.0
    ensures (forall j :: 0 <= j < |rows| ==> rows[j].variableCostAmount >= 0.0) ==> t >= 0.0
  {
    Total(rows, VariableCostAmount)
  }

  /** Rows laid end to end total the sum of their totals. */
  lemma {:induction false} TotalConcat(a: seq<SimulationRow>, b: seq<SimulationRow>, kind: AmountKind)
    ensures Total(a + b, kind) == Total(a, kind) + Total(b, kind)
    decreases |b|
  {
    if b != [] {
      assert (a + b)[..|a + b| - 1] == a + b[..|b| - 1];
      TotalConcat(a, b[..|b| - 1], kind);
    } else {
      assert a + b == a;
    }
  }

  /** Replacing one row changes the total by exactly the difference of that row's amounts. */
  lemma TotalAfterEdit(rows: seq<SimulationRow>, i: int, r: SimulationRow, kind: AmountKind)
    requires 0 <= i < |rows|
    ensures Total(rows[i := r], kind) == Total(rows, kind) - AmountOf(rows[i], kind) + AmountOf(r, kind)
  {
    var pre, post := rows[..i], rows[i + 1..];
    assert rows == pre + [rows[i]] + post;
    assert rows[i := r] == pre + [r] + post;
    TotalConcat(pre + [rows[i]], post, kind);
    TotalConcat(pre + [r], post, kind);
    TotalConcat(pre, [rows[i]], kind);
    TotalConcat(pre, [r], kind);
    assert [rows[i]][..0] == [];
    assert [r][..0] == [];
  }

  /**
   * When every row sells a non-negative quantity at no less than its variable
   * cost, the total variable cost never exceeds the total sales.
   */
  lemma {:induction false} NoLossRowsNoLoss(rows: seq<SimulationRow>)
    requires AllCurrent(rows)
    requires forall j :: 0 <= j < |rows| ==> rows[j].variableCost <= rows[j].price && rows[j].quantity >= 0.0
    ensures TotalVariableCost(rows) <= TotalSales(rows)
    decreases |rows|
  {
    if rows != [] {
      var init, last := rows[..|rows| - 1], rows[|rows| - 1];
      assert AllCurrent(init) by {
        forall j | 0 <= j < |init| ensures AmountsCurrent(init[j]) { assert init[j] == rows[j]; }
      }
      NoLossRowsNoLoss(init);
      assert AmountsCurrent(last) && last.variableCost <= last.price && last.quantity >= 0.0;
      assert last.variableCostAmount <= last.salesAmount by {
        assert (last.price - last.variableCost) * last.quantity >= 0.0;
      }
      assert TotalSales(rows) == TotalSales(init) + last.salesAmount;
      assert TotalVariableCost(rows) == TotalVariableCost(init) + last.variableCostAmount;
    }
  }

  /** The effect on `products`: one fresh row per product, its base values copied, nothing sold. */
  function ResetRows(products: seq<ProductData>): (rows: seq<SimulationRow>)
    ensures MirrorsAll(products, rows) && AllCurrent(rows)
    ensures forall j :: 0 <= j < |rows| ==>
      rows[j].quantity == 0.0 && rows[j].salesAmount == 0.0 && rows[j].variableCostAmount == 0.0
  {
    seq(|products|, j requires 0 <= j < |products| =>
      SimulationRow(products[j].price, products[j].variableCost, 0.0, 0.0, 0.0))
  }

  /** Right after a reset the simulator sells nothing. */
  lemma ResetTotalsZero(products: seq<ProductData>)
    ensures TotalSales(ResetRows(products)) == 0.0 && TotalVariableCost(ResetRows(products)) == 0.0
  {
  }

  /** The reset is the provider's `setProducts` sync against no previous rows. */
  lemma ResetIsSyncFromNothing(products: seq<ProductData>)
    ensures ResetRows(products) == Sync(products, [])
  {
    var a, b := ResetRows(products), Sync(products, []);
    forall j | 0 <= j < |products| ensures a[j] == b[j] {
      assert b[j].quantity == 0.0;
    }
  }

  datatype SimMetrics = SimMetrics(
    totalSales: real,
    totalVariableCost: real,
    marginalProfit: real,
    marginalProfitRate: real,
    operatingProfit: real,
    operatingProfitRate: real,
    breakEvenSales: real,
    breakEvenRatio: real)

  /** The simulator's figures from its two totals and the shared fixed cost. */
  function AggregateMetrics(totalSales: real, totalVariableCost: real, fixedCost: real): (m: SimMetrics)
    ensures m.totalSales == totalSales && m.totalVariableCost == totalVariableCost
    ensures m.marginalProfit == totalSales - totalVariableCost
    ensures m.operatingProfit == totalSales - totalVariableCost - fixedCost
    ensures totalSales > 0.0 ==> m.marginalProfitRate * totalSales == m.marginalProfit * 100.0
    ensures totalSales > 0.0 ==> m.operatingProfitRate * totalSales == m.operatingProfit * 100.0
    ensures totalSales <= 0.0 ==> m.marginalProfitRate == 0.0 && m.operatingProfitRate == 0.0 && m.breakEvenRatio == 0.0
    ensures m.marginalProfitRate <= 0.0 ==> m.breakEvenSales == 0.0 && m.breakEvenRatio == 0.0
  {
    var marginalProfit := totalSales - totalVariableCost;
    var marginalProfitRate := if totalSales > 0.0 then (marginalProfit / totalSales) * 100.0 else 0.0;
    var operatingProfit := marginalProfit - fixedCost;
    var operatingProfitRate := if totalSales > 0.0 then (operatingProfit / totalSales) * 100.0 else 0.0;
    var breakEvenSales := if marginalProfitRate > 0.0 then (fixedCost / marginalProfitRate) * 100.0 else 0.0;
    var breakEvenRatio := if totalSales > 0.0 then (breakEvenSales / totalSales) * 100.0 else 0.0;
    SimMetrics(totalSales, totalVariableCost, marginalProfit, marginalProfitRate,
               operatingProfit, operatingProfitRate, breakEvenSales, breakEvenRatio)
  }

  /** The figures the page derives from its rows and the shared fixed cost. */
  function SimulationMetrics(rows: seq<SimulationRow>, fixedCost: real): (m: SimMetrics)
    ensures m.operatingProfit == TotalSales(rows) - TotalVariableCost(rows) - fixedCost
    ensures (forall j :: 0 <= j < |rows| ==> rows[j].salesAmount == 0.0) ==>
      m.totalSales == 0.0 && m.breakEvenSales == 0.0 && m.breakEvenRatio == 0.0
  {
    AggregateMetrics(TotalSales(rows), TotalVariableCost(rows), fixedCost)
  }

  /**
   * Fed the same totals, the main page and the simulator agree on every figure
   * while the margin rate is positive; when it is not, the main page reports an
   * infinite break-even point and a 100% ratio, the simulator 0 and 0.
   */
  lemma MainPageAndSimulator(totalSales: real, totalVariableCost: real, fixedCost: real, investment: real)
    ensures var m := Dashboard.ComputeMetrics(CalculationData(totalSales, totalVariableCost, fixedCost, investment));
      var s := AggregateMetrics(totalSales, totalVariableCost, fixedCost);
      && s.marginalProfit == m.marginalProfit && s.marginalProfitRate == m.marginalProfitRate
      && s.operatingProfit == m.operatingProfit && s.operatingProfitRate == m.operatingProfitRate
      && (m.marginalProfitRate > 0.0 ==>
            m.breakEvenPoint == Finite(s.breakEvenSales) && m.breakEvenPointRatio == s.breakEvenRatio)
      && (m.marginalProfitRate <= 0.0 ==>
            m.breakEvenPoint == Infinity && m.breakEvenPointRatio == 100.0
            && s.breakEvenSales == 0.0 && s.breakEvenRatio == 0.0)
  {
    var d := CalculationData(totalSales, totalVariableCost, fixedCost, investment);
    var m := Dashboard.ComputeMetrics(d);
    var s := AggregateMetrics(totalSales, totalVariableCost, fixedCost);
    Dashboard.BreakEvenInfiniteIff(d);
    if m.marginalProfitRate > 0.0 {
      var r := m.marginalProfitRate;
      assert (fixedCost / r) * 100.0 == fixedCost / (r / 100.0) by {
        assert (fixedCost / r) * 100.0 * (r / 100.0) == fixedCost;
        Dashboard.CancelFactor((fixedCost / r) * 100.0, fixedCost / (r / 100.0), r / 100.0);
      }
      Dashboard.MarginalRatePositiveIff(d);
    }
  }

  /** The hue the simulator gives each band: the two safest swap theirs with respect to the main page. */
  function SimulatorBandHue(b: Band): Hue {
    match b
    case Safe => Blue
    case Healthy => Green
    case Normal => Yellow
    case Caution => Orange
    case Danger => Red
  }

  /** `getBreakEvenStatus`: the same bands as the main page, painted with the simulator's hues. */
  function BreakEvenStatus(ratio: real): (s: Dashboard.Status)
    ensures s.band == Dashboard.RatioBand(ratio)
    ensures s.hue == Blue <==> ratio < 60.0
    ensures s.hue == Green <==> 60.0 <= ratio < 70.0
    ensures s.hue == Yellow <==> 70.0 <= ratio < 80.0
    ensures s.hue == Orange <==> 80.0 <= ratio < 90.0
    ensures s.hue == Red <==> 90.0 <= ratio
  {
    var band := Dashboard.RatioBand(ratio);
    Dashboard.Status(band, SimulatorBandHue(band))
  }

  /** Both pages put a ratio in the same band; only the two safest bands swap their hues. */
  lemma StatusMatchesMainPage(ratio: real)
    ensures BreakEvenStatus(ratio).band == Dashboard.BreakEvenRatioStatus(ratio).band
    ensures BreakEvenStatus(ratio).hue == Dashboard.BreakEvenRatioStatus(ratio).hue <==> ratio >= 70.0
  {
  }

  /** The break-even-sales card: 計算不可 unless the margin rate is positive. */
  function BreakEvenSalesDisplay(m: SimMetrics): (d: Utils.Display)
    ensures d == Utils.NotComputable <==> m.marginalProfitRate <= 0.0
    ensures d.Currency? ==> d.amount == m.breakEvenSales
  {
    if m.marginalProfitRate > 0.0 then Utils.Currency(m.breakEvenSales) else Utils.NotComputable
  }

  /** The break-even-ratio card: ratio and band only with a positive rate and positive sales. */
  datatype RatioDisplay = RatioNotComputable | RatioShown(ratio: real, band: Band)

  function BreakEvenRatioDisplay(m: SimMetrics): (d: RatioDisplay)
    ensures d.RatioShown? <==> m.marginalProfitRate > 0.0 && m.totalSales > 0.0
    ensures d.RatioShown? ==> d.ratio == m.breakEvenRatio && d.band == Dashboard.RatioBand(m.breakEvenRatio)
  {
    if m.marginalProfitRate > 0.0 && m.totalSales > 0.0
    then RatioShown(m.breakEvenRatio, BreakEvenStatus(m.breakEvenRatio).band)
    else RatioNotComputable
  }

  /** On screen the simulator's break-even sales read as the main page's do, 0 and Infinity both showing 計算不可. */
  lemma BreakEvenSalesDisplayAgrees(totalSales: real, totalVariableCost: real, fixedCost: real, investment: real)
    ensures BreakEvenSalesDisplay(AggregateMetrics(totalSales, totalVariableCost, fixedCost))
      == Utils.FormatCurrency(Dashboard.ComputeMetrics(CalculationData(totalSales, totalVariableCost, fixedCost, investment)).breakEvenPoint)
  {
    MainPageAndSimulator(totalSales, totalVariableCost, fixedCost, investment);
  }

  /**
   * Right after the products change, the simulator sells nothing: the operating
   * profit is minus the fixed cost and both break-even cards read 計算不可.
   */
  lemma ResetShowsOnlyFixedCost(products: seq<ProductData>, fixedCost: real)
    ensures var m := SimulationMetrics(ResetRows(products), fixedCost);
      m.operatingProfit == -fixedCost && m.operatingProfitRate == 0.0
      && BreakEvenSalesDisplay(m) == Utils.NotComputable && BreakEvenRatioDisplay(m) == RatioNotComputable
  {
    ResetTotalsZero(products);
  }

  /** With no positive margin the ratio card shows 計算不可, yet keeps the hue of the safest band. */
  lemma UncomputableRatioCard(totalSales: real, totalVariableCost: real, fixedCost: real)
    requires AggregateMetrics(totalSales, totalVariableCost, fixedCost).marginalProfitRate <= 0.0
    ensures var m := AggregateMetrics(totalSales, totalVariableCost, fixedCost);
      BreakEvenRatioDisplay(m) == RatioNotComputable && BreakEvenStatus(m.breakEvenRatio).hue == Blue
  {
  }

  /** Percentage points between a row's simulated margin rate and its product's own. */
  function RateDifference(p: ProductData, sim: SimulationRow): (diff: real)
    ensures Mirrors(sim, p) ==> diff == 0.0
    ensures sim.price == p.price > 0.0 ==> diff * p.price == (p.variableCost - sim.variableCost) * 100.0
  {
    var a := ProductsPage.CalculateProduct(sim.price, sim.variableCost).marginalProfitRate;
    var b := ProductsPage.CalculateProduct(p.price, p.variableCost).marginalProfitRate;
    assert sim.price == p.price > 0.0 ==> (a - b) * p.price == (p.variableCost - sim.variableCost) * 100.0;
    a - b
  }

  /** An untouched row shows no difference; at the product's own price, a lower cost shows a gain and a higher one a loss. */
  lemma RateDifferenceSign(p: ProductData, sim: SimulationRow)
    ensures Mirrors(sim, p) ==> RateDifference(p, sim) == 0.0
    ensures sim.price == p.price > 0.0 ==>
      (RateDifference(p, sim) > 0.0 <==> sim.variableCost < p.variableCost)
      && (RateDifference(p, sim) < 0.0 <==> sim.variableCost > p.variableCost)
  {
    if sim.price == p.price > 0.0 {
      var x := p.price;
      var a := ProductsPage.CalculateProduct(x, sim.variableCost).marginalProfitRate;
      var b := ProductsPage.CalculateProduct(x, p.variableCost).marginalProfitRate;
      assert a * x == (x - sim.variableCost) * 100.0;
      assert b * x == (x - p.variableCost) * 100.0;
      assert (a - b) * x == (p.variableCost - sim.variableCost) * 100.0;
      if a - b > 0.0 { assert (a - b) * x > 0.0; }
      if a - b < 0.0 { assert (a - b) * x < 0.0; }
    }
  }

  /** The page's own list of rows (`useState<SimulationRow[]>([])`). */
  class SimulationPage {
    var simulations: seq<SimulationRow>

    constructor ()
      ensures simulations == []
    {
      simulations := [];
    }

    /** The effect run whenever the products change. */
    method OnProductsChanged(products: seq<ProductData>)
      modifies this
      ensures simulations == ResetRows(products)
      ensures MirrorsAll(products, simulations) && AllCurrent(simulations)
      ensures TotalSales(simulations) == 0.0 && TotalVariableCost(simulations) == 0.0
    {
      simulations := ResetRows(products);
      ResetTotalsZero(products);
    }

    /** Copies the rows, edits one field of row `index`, recomputes its amounts and stores the copy. */
    method UpdateSimulation(index: int, field: SimField, value: real)
      requires 0 <= index < |simulations|
      modifies this
      ensures simulations == old(simulations)[index := EditRow(old(simulations)[index], field, value)]
      ensures AmountsCurrent(simulations[index])
      ensures forall j :: 0 <= j < |simulations| && j != index ==> simulations[j] == old(simulations)[j]
      ensures TotalSales(simulations)
        == TotalSales(old(simulations)) - old(simulations)[index].salesAmount + simulations[index].salesAmount
      ensures TotalVariableCost(simulations)
        == TotalVariableCost(old(simulations)) - old(simulations)[index].variableCostAmount
           + simulations[index].variableCostAmount
    {
      var newSimulations := simulations;
      var sim := EditRow(newSimulations[index], field, value);
      TotalAfterEdit(newSimulations, index, sim, SalesAmount);
      TotalAfterEdit(newSimulations, index, sim, VariableCostAmount);
      newSimulations := newSimulations[index := sim];
      simulations := newSimulations;
    }
  }
}
