/**
 * app/products/page.tsx: the per-product margin, the edit of one field of a
 * product, and the colour of a margin rate.
 */
module ProductsPage {
  import opened Common
  import opened CalculationState
  import opened ProductsState
  import Dashboard

  datatype ProductMargin = ProductMargin(marginalProfit: real, marginalProfitRate: real)

  /** `calculateProduct`: the main page's margin formulas with price in the place of sales. */
  function CalculateProduct(price: real, variableCost: real): (m: ProductMargin)
    ensures m.marginalProfit == price - variableCost
    ensures price <= 0.0 ==> m.marginalProfitRate == 0.0
    ensures price > 0.0 ==> m.marginalProfitRate * price == m.marginalProfit * 100.0
  {
    var marginalProfit := price - variableCost;
    var marginalProfitRate := if price > 0.0 then (marginalProfit / price) * 100.0 else 0.0;
    ProductMargin(marginalProfit, marginalProfitRate)
  }

  /** With a positive price, the rate is not negative exactly when the cost does not exceed the price. */
  lemma RateSignFollowsCost(price: real, variableCost: real)
    requires price > 0.0
    ensures CalculateProduct(price, variableCost).marginalProfitRate >= 0.0 <==> variableCost <= price
    ensures CalculateProduct(price, variableCost).marginalProfitRate <= 100.0 <==> variableCost >= 0.0
  {
    var r := CalculateProduct(price, variableCost).marginalProfitRate;
    assert r * price == (price - variableCost) * 100.0;
    if r < 0.0 { assert r * price < 0.0; }
    if r > 100.0 { assert r * price > 100.0 * price; }
  }

  /** The product margin is the main page's margin computed on sales equal to the price. */
  lemma AgreesWithDashboard(price: real, variableCost: real, fixedCost: real, investment: real)
    ensures var m := Dashboard.ComputeMetrics(CalculationData(price, variableCost, fixedCost, investment));
      CalculateProduct(price, variableCost) == ProductMargin(m.marginalProfit, m.marginalProfitRate)
  {
  }

  /** The three inputs of a product card. */
  datatype ProductEdit = SetName(name: string) | SetPrice(price: real) | SetVariableCost(variableCost: real)

  /** `{ ...products[index], [field]: value }`. */
  function EditProduct(p: ProductData, e: ProductEdit): (r: ProductData)
    ensures r.name == (if e.SetName? then e.name else p.name)
    ensures r.price == (if e.SetPrice? then e.price else p.price)
    ensures r.variableCost == (if e.SetVariableCost? then e.variableCost else p.variableCost)
  {
    match e
    case SetName(n) => p.(name := n)
    case SetPrice(x) => p.(price := x)
    case SetVariableCost(x) => p.(variableCost := x)
  }

  /** Renaming a product never changes its row of the simulator. */
  lemma RenameKeepsRow(row: SimulationRow, p: ProductData, name: string)
    ensures Rebase(row, EditProduct(p, SetName(name))) == Rebase(row, p)
  {
  }

  /** `handleInputChange`: the edited product replaces position `index`, its row follows it. */
  method HandleInputChange(provider: ProductsProvider, index: int, e: ProductEdit)
    requires 0 <= index < |provider.products|
    modifies provider
    ensures provider.products == old(provider.products)[index := EditProduct(old(provider.products)[index], e)]
    ensures provider.simulations == if index < |old(provider.simulations)|
      then old(provider.simulations)[index := Rebase(old(provider.simulations)[index], EditProduct(old(provider.products)[index], e))]
      else old(provider.simulations)
    ensures provider.simulatorFixedCost == old(provider.simulatorFixedCost)
    ensures old(provider.Synced()) ==> provider.Synced()
    ensures old(provider.Synced()) ==>
      provider.simulations[index].quantity == old(provider.simulations)[index].quantity
    ensures old(provider.Synced()) ==> forall j :: 0 <= j < |provider.simulations| && j != index ==>
      provider.simulations[j] == old(provider.simulations)[j]
  {
    provider.UpdateProduct(index, EditProduct(provider.products[index], e));
  }

  /** `getRateColor`, by the thresholds 50, 30, 10 and 0. */
  function RateColor(rate: real): (h: Hue)
    ensures h != Gray
    ensures h == Red <==> rate < 0.0
    ensures h == Green <==> rate >= 50.0
  {
    if rate >= 50.0 then Green
    else if rate >= 30.0 then Blue
    else if rate >= 10.0 then Yellow
    else if rate >= 0.0 then Orange
    else Red
  }

  /** Every rate gets exactly one colour, by half-open bands. */
  lemma RateColorExact(rate: real)
    ensures RateColor(rate) == Green <==> rate >= 50.0
    ensures RateColor(rate) == Blue <==> 30.0 <= rate < 50.0
    ensures RateColor(rate) == Yellow <==> 10.0 <= rate < 30.0
    ensures RateColor(rate) == Orange <==> 0.0 <= rate < 10.0
    ensures RateColor(rate) == Red <==> rate < 0.0
    ensures RateColor(rate) != Gray
  {
  }

  /** A product priced below its variable cost is always shown in red. */
  lemma LossMakingProductIsRed(price: real, variableCost: real)
    requires price > 0.0 && variableCost > price
    ensures RateColor(CalculateProduct(price, variableCost).marginalProfitRate) == Red
  {
    RateSignFollowsCost(price, variableCost);
  }

  /** A product without a positive price has rate 0 and is shown in orange, whatever its cost. */
  lemma UnpricedProductIsOrange(price: real, variableCost: real)
    requires price <= 0.0
    ensures CalculateProduct(price, variableCost).marginalProfitRate == 0.0
    ensures RateColor(CalculateProduct(price, variableCost).marginalProfitRate) == Orange
  {
  }
}
