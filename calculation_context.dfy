/**
 * app/contexts/CalculationContext.tsx: the provider that holds the inputs of
 * the main calculator and of the profit plan, and replaces each of them by a
 * field-wise merge with a partial record (`{ ...prev, ...data }`).
 */
module CalculationState {
  import opened Common

  datatype CalculationData = CalculationData(sales: real, variableCost: real, fixedCost: real, investment: real)

  datatype ProfitPlanData = ProfitPlanData(
    desiredProfit: real, fixedCostForecast: real, targetMarginalProfitRate: real, currentSales: real)

  /** `Partial<CalculationData>`: a field is present (Some) or absent (None). */
  datatype CalculationPatch = CalculationPatch(
    sales: Option<real>, variableCost: Option<real>, fixedCost: Option<real>, investment: Option<real>)

  /** `Partial<ProfitPlanData>`. */
  datatype ProfitPlanPatch = ProfitPlanPatch(
    desiredProfit: Option<real>, fixedCostForecast: Option<real>,
    targetMarginalProfitRate: Option<real>, currentSales: Option<real>)

  datatype CalculationField = Sales | VariableCost | FixedCost | Investment

  datatype ProfitPlanField = DesiredProfit | FixedCostForecast | TargetMarginalProfitRate | CurrentSales

  const ZeroCalculation := CalculationData(0.0, 0.0, 0.0, 0.0)
  const ZeroProfitPlan := ProfitPlanData(0.0, 0.0, 0.0, 0.0)
  const EmptyCalculationPatch := CalculationPatch(None, None, None, None)
  const EmptyProfitPlanPatch := ProfitPlanPatch(None, None, None, None)

  /** One field of a spread: the patch's value when present, the previous one otherwise. */
  function Override(prev: real, patch: Option<real>): real {
    if patch.Some? then patch.value else prev
  }

  /** The later of two patches wins field by field (`{ ...a, ...b }` on partial records). */
  function Later(a: Option<real>, b: Option<real>): Option<real> {
    if b.Some? then b else a
  }

  function CalculationFieldOf(d: CalculationData, f: CalculationField): real {
    match f
    case Sales => d.sales
    case VariableCost => d.variableCost
    case FixedCost => d.fixedCost
    case Investment => d.investment
  }

  function CalculationPatchAt(p: CalculationPatch, f: CalculationField): Option<real> {
    match f
    case Sales => p.sales
    case VariableCost => p.variableCost
    case FixedCost => p.fixedCost
    case Investment => p.investment
  }

  function ProfitPlanFieldOf(d: ProfitPlanData, f: ProfitPlanField): real {
    match f
    case DesiredProfit => d.desiredProfit
    case FixedCostForecast => d.fixedCostForecast
    case TargetMarginalProfitRate => d.targetMarginalProfitRate
    case CurrentSales => d.currentSales
  }

  function ProfitPlanPatchAt(p: ProfitPlanPatch, f: ProfitPlanField): Option<real> {
    match f
    case DesiredProfit => p.desiredProfit
    case FixedCostForecast => p.fixedCostForecast
    case TargetMarginalProfitRate => p.targetMarginalProfitRate
    case CurrentSales => p.currentSales
  }

  /** `{ ...prev, ...data }`: the fields present in the patch overwrite, the others stay. */
  function MergeCalculation(prev: CalculationData, data: CalculationPatch): (r: CalculationData)
    ensures forall f :: CalculationPatchAt(data, f).Some? ==> CalculationFieldOf(r, f) == CalculationPatchAt(data, f).value
    ensures forall f :: CalculationPatchAt(data, f).None? ==> CalculationFieldOf(r, f) == CalculationFieldOf(prev, f)
  {
    CalculationData(
      Override(prev.sales, data.sales), Override(prev.variableCost, data.variableCost),
      Override(prev.fixedCost, data.fixedCost), Override(prev.investment, data.investment))
  }

  function MergeProfitPlan(prev: ProfitPlanData, data: ProfitPlanPatch): (r: ProfitPlanData)
    ensures forall f :: ProfitPlanPatchAt(data, f).Some? ==> ProfitPlanFieldOf(r, f) == ProfitPlanPatchAt(data, f).value
    ensures forall f :: ProfitPlanPatchAt(data, f).None? ==> ProfitPlanFieldOf(r, f) == ProfitPlanFieldOf(prev, f)
  {
    ProfitPlanData(
      Override(prev.desiredProfit, data.desiredProfit), Override(prev.fixedCostForecast, data.fixedCostForecast),
      Override(prev.targetMarginalProfitRate, data.targetMarginalProfitRate),
      Override(prev.currentSales, data.currentSales))
  }

  function ThenCalculation(a: CalculationPatch, b: CalculationPatch): CalculationPatch {
    CalculationPatch(Later(a.sales, b.sales), Later(a.variableCost, b.variableCost),
                     Later(a.fixedCost, b.fixedCost), Later(a.investment, b.investment))
  }

  function ThenProfitPlan(a: ProfitPlanPatch, b: ProfitPlanPatch): ProfitPlanPatch {
    ProfitPlanPatch(Later(a.desiredProfit, b.desiredProfit), Later(a.fixedCostForecast, b.fixedCostForecast),
                    Later(a.targetMarginalProfitRate, b.targetMarginalProfitRate),
                    Later(a.currentSales, b.currentSales))
  }

  /** `{ [field]: value }` as a partial calculation record. */
  function CalculationSingle(f: CalculationField, value: real): (p: CalculationPatch)
    ensures CalculationPatchAt(p, f) == Some(value)
    ensures forall g :: g != f ==> CalculationPatchAt(p, g) == None
  {
    match f
    case Sales => EmptyCalculationPatch.(sales := Some(value))
    case VariableCost => EmptyCalculationPatch.(variableCost := Some(value))
    case FixedCost => EmptyCalculationPatch.(fixedCost := Some(value))
    case Investment => EmptyCalculationPatch.(investment := Some(value))
  }

  /** `{ [field]: value }` as a partial profit-plan record. */
  function ProfitPlanSingle(f: ProfitPlanField, value: real): (p: ProfitPlanPatch)
    ensures ProfitPlanPatchAt(p, f) == Some(value)
    ensures forall g :: g != f ==> ProfitPlanPatchAt(p, g) == None
  {
    match f
    case DesiredProfit => EmptyProfitPlanPatch.(desiredProfit := Some(value))
    case FixedCostForecast => EmptyProfitPlanPatch.(fixedCostForecast := Some(value))
    case TargetMarginalProfitRate => EmptyProfitPlanPatch.(targetMarginalProfitRate := Some(value))
    case CurrentSales => EmptyProfitPlanPatch.(currentSales := Some(value))
  }

  /** Applying the same partial update twice is applying it once. */
  lemma MergeCalculationIdempotent(prev: CalculationData, data: CalculationPatch)
    ensures MergeCalculation(MergeCalculation(prev, data), data) == MergeCalculation(prev, data)
  {
  }

  lemma MergeProfitPlanIdempotent(prev: ProfitPlanData, data: ProfitPlanPatch)
    ensures MergeProfitPlan(MergeProfitPlan(prev, data), data) == MergeProfitPlan(prev, data)
  {
  }

  /** An empty partial record changes nothing. */
  lemma MergeEmptyIsIdentity(prev: CalculationData, plan: ProfitPlanData)
    ensures MergeCalculation(prev, EmptyCalculationPatch) == prev
    ensures MergeProfitPlan(plan, EmptyProfitPlanPatch) == plan
  {
  }

  /** Two successive updates are one update with the later fields winning. */
  lemma MergeCalculationSequential(prev: CalculationData, a: CalculationPatch, b: CalculationPatch)
    ensures MergeCalculation(MergeCalculation(prev, a), b) == MergeCalculation(prev, ThenCalculation(a, b))
  {
  }

  lemma MergeProfitPlanSequential(prev: ProfitPlanData, a: ProfitPlanPatch, b: ProfitPlanPatch)
    ensures MergeProfitPlan(MergeProfitPlan(prev, a), b) == MergeProfitPlan(prev, ThenProfitPlan(a, b))
  {
  }

  /** Writing one field leaves every other field as it was. */
  lemma CalculationSingleFieldEdit(prev: CalculationData, f: CalculationField, value: real)
    ensures CalculationFieldOf(MergeCalculation(prev, CalculationSingle(f, value)), f) == value
    ensures forall g :: g != f ==>
      CalculationFieldOf(MergeCalculation(prev, CalculationSingle(f, value)), g) == CalculationFieldOf(prev, g)
  {
  }

  lemma ProfitPlanSingleFieldEdit(prev: ProfitPlanData, f: ProfitPlanField, value: real)
    ensures ProfitPlanFieldOf(MergeProfitPlan(prev, ProfitPlanSingle(f, value)), f) == value
    ensures forall g :: g != f ==>
      ProfitPlanFieldOf(MergeProfitPlan(prev, ProfitPlanSingle(f, value)), g) == ProfitPlanFieldOf(prev, g)
  {
  }

  /** The provider's state: the two records, each replaced by a merge. */
  class CalculationProvider {
    var calculationData: CalculationData
    var profitPlanData: ProfitPlanData

    constructor ()
      ensures forall f :: CalculationFieldOf(calculationData, f) == 0.0
      ensures forall f :: ProfitPlanFieldOf(profitPlanData, f) == 0.0
    {
      calculationData := ZeroCalculation;
      profitPlanData := ZeroProfitPlan;
    }

    method UpdateCalculationData(data: CalculationPatch)
      modifies this
      ensures calculationData == MergeCalculation(old(calculationData), data)
      ensures profitPlanData == old(profitPlanData)
    {
      calculationData := MergeCalculation(calculationData, data);
    }

    method UpdateProfitPlanData(data: ProfitPlanPatch)
      modifies this
      ensures profitPlanData == MergeProfitPlan(old(profitPlanData), data)
      ensures calculationData == old(calculationData)
    {
      profitPlanData := MergeProfitPlan(profitPlanData, data);
    }
  }
}
