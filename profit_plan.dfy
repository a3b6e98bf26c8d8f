/**
 * app/profit-plan/page.tsx: how much must be sold in a month to earn the
 * desired operating profit, and how far the sales so far have come.
 */
module ProfitPlan {
  import opened CalculationState

  /** (desired profit + fixed cost) / rate, or 0 when the target rate is not positive. */
  function RequiredMonthlySales(plan: ProfitPlanData): (r: real)
    ensures plan.targetMarginalProfitRate <= 0.0 ==> r == 0.0
  {
    if plan.targetMarginalProfitRate > 0.0
    then (plan.desiredProfit + plan.fixedCostForecast) / (plan.targetMarginalProfitRate / 100.0)
    else 0.0
  }

  /** (current sales * rate) / (fixed cost + desired profit), or 0 when that sum is not positive. */
  function AchievementStatus(plan: ProfitPlanData): (a: real)
    ensures plan.fixedCostForecast + plan.desiredProfit <= 0.0 ==> a == 0.0
    ensures plan.fixedCostForecast + plan.desiredProfit > 0.0 ==>
      a * (plan.fixedCostForecast + plan.desiredProfit) == plan.currentSales * (plan.targetMarginalProfitRate / 100.0)
  {
    if plan.fixedCostForecast + plan.desiredProfit > 0.0
    then (plan.currentSales * (plan.targetMarginalProfitRate / 100.0)) / (plan.fixedCostForecast + plan.desiredProfit)
    else 0.0
  }

  /**
   * The achievement figure is painted as a success when it reaches 1, that is
   * exactly when there is something to cover and the margin earned on the
   * sales so far covers it.
   */
  predicate IsAchieved(plan: ProfitPlanData): (achieved: bool)
    ensures achieved <==> (plan.fixedCostForecast + plan.desiredProfit > 0.0
      && plan.currentSales * (plan.targetMarginalProfitRate / 100.0) >= plan.fixedCostForecast + plan.desiredProfit)
  {
    var need := plan.fixedCostForecast + plan.desiredProfit;
    var a := AchievementStatus(plan);
    assert need > 0.0 ==> (a >= 1.0 <==> a * need >= need);
    a >= 1.0
  }

  /** Selling the required amount at the target rate covers the fixed cost and leaves exactly the desired profit. */
  lemma RequiredSalesCoverTarget(plan: ProfitPlanData)
    requires plan.targetMarginalProfitRate > 0.0
    ensures RequiredMonthlySales(plan) * (plan.targetMarginalProfitRate / 100.0) - plan.fixedCostForecast
            == plan.desiredProfit
  {
    var k := plan.targetMarginalProfitRate / 100.0;
    var need := plan.desiredProfit + plan.fixedCostForecast;
    assert (need / k) * k == need;
  }

  /** Achievement reaches 1 exactly when the sales so far reach the required monthly sales. */
  lemma AchievedIffRequiredReached(plan: ProfitPlanData)
    requires plan.targetMarginalProfitRate > 0.0
    requires plan.fixedCostForecast + plan.desiredProfit > 0.0
    ensures IsAchieved(plan) <==> plan.currentSales >= RequiredMonthlySales(plan)
  {
    var k := plan.targetMarginalProfitRate / 100.0;
    var need := plan.fixedCostForecast + plan.desiredProfit;
    var req := RequiredMonthlySales(plan);
    var a := AchievementStatus(plan);
    assert a * need == plan.currentSales * k;
    assert req * k == need by { RequiredSalesCoverTarget(plan); }
    assert a >= 1.0 <==> a * need >= need;
    assert plan.currentSales >= req <==> plan.currentSales * k >= req * k;
  }

  /** With nothing to cover, the figure is 0 and the page shows no success. */
  lemma NothingToCoverIsNotAchieved(plan: ProfitPlanData)
    requires plan.fixedCostForecast + plan.desiredProfit <= 0.0
    ensures !IsAchieved(plan)
  {
  }

  /** `handleInputChange`: writes the parsed value into one field of the plan. */
  method HandleInputChange(provider: CalculationProvider, field: ProfitPlanField, value: real)
    modifies provider
    ensures provider.profitPlanData == MergeProfitPlan(old(provider.profitPlanData), ProfitPlanSingle(field, value))
    ensures ProfitPlanFieldOf(provider.profitPlanData, field) == value
    ensures forall g :: g != field ==>
      ProfitPlanFieldOf(provider.profitPlanData, g) == ProfitPlanFieldOf(old(provider.profitPlanData), g)
    ensures provider.calculationData == old(provider.calculationData)
  {
    provider.UpdateProfitPlanData(ProfitPlanSingle(field, value));
  }
}
