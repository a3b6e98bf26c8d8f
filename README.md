# Management-accounting calculator: a verified model of its arithmetic core

The calculator takes sales, variable cost, fixed cost and investment and derives
marginal profit, the marginal-profit rate, the break-even point and ratio,
operating profit and its rate, and ROI. A products page lists products with
their own price and variable cost. A simulator lets the user assign quantities
to each product and folds the rows into aggregate figures. A profit plan
computes the monthly sales needed for a desired profit.

This project models, in Dafny:

- the main page's metric chain and its two classifiers (`Dashboard`, `dashboard.dfy`);
- the products page's margin, single-field edit and rate colour (`ProductsPage`, `products_page.dfy`);
- the simulator's own row list, its reset and edit, its totals and aggregate figures,
  its status classifier and the per-row rate difference (`Simulator`, `simulation.dfy`);
- the profit plan's required sales and achievement figure (`ProfitPlan`, `profit_plan.dfy`);
- the products provider, which keeps `products` and `simulations` aligned by position
  (`ProductsState`, `products_context.dfy`, a class with `seq` fields);
- the calculation provider, whose two records are replaced by a field-wise merge with a
  partial record (`CalculationState`, `calculation_context.dfy`, a class with two fields);
- the full-width digit normaliser and the non-finite guard of the currency formatter
  (`Utils`, `utils.dfy`);
- shared vocabulary: `Option`, `Extended` (a finite `real` or `Infinity`), the five
  break-even bands and the hues of the Tailwind classes (`Common`, `common.dfy`).

Numbers are `real`. JavaScript's `Infinity` only ever arises as the main page's break-even
point, and is the `Infinity` variant of `Extended`. Each provider operation is one atomic
state transition.

The `: 0` branch at app/page.tsx:62 suggests a break-even ratio of 0 without sales, but
the `breakEvenPoint === Infinity` test comes first, and without sales the rate is 0 and the
break-even point infinite, so the ratio is 100 and that branch is never taken.
`Dashboard.BreakEvenRatioDefault` proves it.

## Model

| member | source | states |
|---|---|---|
| Dashboard.ComputeMetrics | app/page.tsx:44-82 | marginal profit is sales − variable cost and operating profit is marginal profit − fixed cost, with no edge case; with positive sales, operating-profit rate × sales = operating profit × 100, and without sales the rates are 0; with positive investment, ROI × investment = operating profit × 100, and without investment ROI is 0 |
| Dashboard.MarginalRateScales | app/page.tsx:48-51 | with positive sales, rate × sales = (sales − variable cost) × 100 |
| Dashboard.MarginalRatePositiveIff | app/page.tsx:48-51 | the rate is positive exactly when sales are positive and exceed the variable cost |
| Dashboard.BreakEvenInfiniteIff | app/page.tsx:51-56 | break-even is infinite exactly when the rate is ≤ 0, i.e. exactly when sales ≤ 0 or variable cost ≥ sales |
| Dashboard.BreakEvenRatioDefault | app/page.tsx:51-62 | an infinite break-even point gives a ratio of 100; with sales ≤ 0 the break-even point is infinite and the ratio 100, so the `: 0` branch is unreachable |
| Dashboard.BreakEvenCoversFixedCost | app/page.tsx:55-56 | a finite break-even point times the rate as a fraction equals the fixed cost |
| Dashboard.BreakEvenClosedForm | app/page.tsx:51-56 | with positive sales and rate, break-even = fixed cost × sales / marginal profit |
| Dashboard.BreakEvenRatioFinite | app/page.tsx:55-62 | with positive sales and rate, the ratio is fixed cost / marginal profit × 100 |
| Dashboard.BreakEvenBorderLine | app/page.tsx:55-65 | with a positive rate, sales ≥ break-even exactly when operating profit ≥ 0 (the card's "border line for profit") |
| Dashboard.BreakEvenZeroesProfit | app/page.tsx:48-65 | selling exactly the break-even amount at the same cost ratio gives an operating profit of 0 |
| Dashboard.DegenerateRates | app/page.tsx:65-71 | operating rate and margin rate are 0 without sales, ROI is 0 without investment whatever the profit's sign, and with investment ROI is positive exactly when the operating profit is, and negative exactly when it is |
| Dashboard.WorkedExample | app/page.tsx:44-109 | sales 1000, variable cost 400, fixed cost 300 give 600, 60, 500, 50 and 300, and the ratio is labelled 安泰 |
| Dashboard.ProfitColor | app/page.tsx:91-95 | green exactly for positive values, red exactly for negative, gray exactly for zero |
| Dashboard.RatioBand | app/page.tsx:97-109 | the safest band is exactly the ratios below 60, the dangerous band exactly those from 90 up |
| Dashboard.RatioBandExact | app/page.tsx:97-109 | each ratio lies in exactly one band: < 60 安泰, [60,70) 健全, [70,80) 普通, [80,90) 要注意, ≥ 90 危険 |
| Dashboard.RatioBandMonotone | app/page.tsx:97-109 | a higher ratio never falls in a safer band |
| Dashboard.BreakEvenRatioStatus | app/page.tsx:97-109 | the status carries the ratio's band; its hue is green exactly below 60, blue in [60,70), yellow in [70,80), orange in [80,90), red from 90 |
| Dashboard.NoMarginIsDanger | app/page.tsx:51-62 | when the rate is ≤ 0 the ratio falls in the most dangerous band, labelled 危険 |
| Dashboard.HandleInputChange | app/page.tsx:84-89 | the edited input takes the value, every other input and the plan record stay |
| ProductsPage.CalculateProduct | app/products/page.tsx:15-19 | marginal profit is price − variable cost; the rate is 0 when price ≤ 0 and rate × price = marginal profit × 100 otherwise |
| ProductsPage.RateSignFollowsCost | app/products/page.tsx:16-17 | with a positive price, rate ≥ 0 exactly when cost ≤ price, and rate ≤ 100 exactly when cost ≥ 0 |
| ProductsPage.AgreesWithDashboard | app/products/page.tsx:15-19 | the product margin is the main page's margin with price in the place of sales |
| ProductsPage.EditProduct | app/products/page.tsx:26-29 | the edited field takes the value and the other two fields are kept |
| ProductsPage.RenameKeepsRow | app/products/page.tsx:21-31 | renaming a product leaves its simulator row as it would be without the rename |
| ProductsPage.HandleInputChange | app/products/page.tsx:21-31 | position `index` becomes the edited product; if it has a row, that row is rebased on the edited product and no other row changes; the simulator's fixed cost is kept; a synced provider stays synced |
| ProductsPage.RateColor | app/products/page.tsx:33-39 | never gray; red exactly for a negative rate, green exactly from 50 up |
| ProductsPage.RateColorExact | app/products/page.tsx:33-39 | every rate gets exactly one colour: ≥ 50 green, [30,50) blue, [10,30) yellow, [0,10) orange, < 0 red |
| ProductsPage.LossMakingProductIsRed | app/products/page.tsx:15-39 | a product with a positive price below its variable cost is shown in red |
| ProductsPage.UnpricedProductIsOrange | app/products/page.tsx:17-37 | a product whose price is ≤ 0 has rate 0 and is shown in orange, whatever its variable cost |
| ProfitPlan.RequiredMonthlySales | app/profit-plan/page.tsx:22-25 | 0 when the target rate is ≤ 0 |
| ProfitPlan.AchievementStatus | app/profit-plan/page.tsx:27-30 | 0 when fixed cost + desired profit ≤ 0; otherwise the figure × (fixed cost + desired profit) = current sales × rate / 100 |
| ProfitPlan.IsAchieved | app/profit-plan/page.tsx:157-160 | painted as a success exactly when fixed cost + desired profit is positive and current sales × rate / 100 covers it |
| ProfitPlan.RequiredSalesCoverTarget | app/profit-plan/page.tsx:22-25 | with a positive rate, required sales × rate / 100 − fixed cost = desired profit |
| ProfitPlan.AchievedIffRequiredReached | app/profit-plan/page.tsx:22-30 | with a positive rate and a positive cost + profit, achievement ≥ 1 exactly when current sales ≥ required sales |
| ProfitPlan.NothingToCoverIsNotAchieved | app/profit-plan/page.tsx:157-160 | with cost + profit ≤ 0 the figure is never painted as a success |
| ProfitPlan.HandleInputChange | app/profit-plan/page.tsx:15-20 | the edited field takes the value, every other plan field and the calculation record stay |
| CalculationState.MergeCalculation | app/contexts/CalculationContext.tsx:45-47 | fields present in the partial record are overwritten, absent ones keep their prior value |
| CalculationState.MergeProfitPlan | app/contexts/CalculationContext.tsx:49-51 | the same merge on the plan record |
| CalculationState.CalculationSingle | app/page.tsx:88 | `{ [field]: value }` holds exactly one field |
| CalculationState.ProfitPlanSingle | app/profit-plan/page.tsx:19 | `{ [field]: value }` holds exactly one field |
| CalculationState.MergeCalculationIdempotent | app/contexts/CalculationContext.tsx:45-47 | applying the same partial update twice is applying it once |
| CalculationState.MergeProfitPlanIdempotent | app/contexts/CalculationContext.tsx:49-51 | the same for the plan record |
| CalculationState.MergeEmptyIsIdentity | app/contexts/CalculationContext.tsx:45-51 | an empty partial record changes neither record |
| CalculationState.MergeCalculationSequential | app/contexts/CalculationContext.tsx:45-47 | two successive updates equal one update whose later fields win |
| CalculationState.MergeProfitPlanSequential | app/contexts/CalculationContext.tsx:49-51 | the same for the plan record |
| CalculationState.CalculationSingleFieldEdit | app/contexts/CalculationContext.tsx:45-47 | merging a one-field record changes that field only |
| CalculationState.ProfitPlanSingleFieldEdit | app/contexts/CalculationContext.tsx:49-51 | merging a one-field record changes that plan field only |
| CalculationState.CalculationProvider.constructor | app/contexts/CalculationContext.tsx:31-43 | every field of both records starts at 0 |
| CalculationState.CalculationProvider.UpdateCalculationData | app/contexts/CalculationContext.tsx:45-47 | the calculation record becomes the merge; the plan record is unchanged |
| CalculationState.CalculationProvider.UpdateProfitPlanData | app/contexts/CalculationContext.tsx:49-51 | the plan record becomes the merge; the calculation record is unchanged |
| ProductsState.RowFor | app/contexts/ProductsContext.tsx:56-66 | the row mirrors the product, has the given quantity and current amounts |
| ProductsState.EditRow | app/contexts/ProductsContext.tsx:129-133 | only the edited field changes; sales and variable-cost amounts are recomputed as unit figure × quantity |
| ProductsState.EditRowUndo | app/contexts/ProductsContext.tsx:124-135 | writing the old value back restores a row whose amounts were current |
| ProductsState.Sync | app/contexts/ProductsContext.tsx:53-68 | one row per new product mirroring it, quantity kept by position or 0, amounts current |
| ProductsState.SyncStable | app/contexts/ProductsContext.tsx:53-68 | syncing rows that already mirror the products changes nothing |
| ProductsState.RemoveAt | app/contexts/ProductsContext.tsx:106-107 | an in-range index loses exactly that element, the order of the rest is kept; an out-of-range index changes nothing |
| ProductsState.RemoveAtMultiset | app/contexts/ProductsContext.tsx:106-107 | the removal deletes exactly one occurrence of the removed element |
| ProductsState.OrDefault | app/contexts/ProductsContext.tsx:108-119 | the result is never empty; an empty list becomes the single default entry |
| ProductsState.RemovePreservesMirror | app/contexts/ProductsContext.tsx:105-122 | removing the same position from aligned lists keeps them aligned and mirrored |
| ProductsState.RemovePreservesCurrent | app/contexts/ProductsContext.tsx:105-122 | removal keeps every remaining row's amounts current |
| ProductsState.Rebase | app/contexts/ProductsContext.tsx:78-84 | the rebased row mirrors the new product, keeps its quantity and recomputes its amounts |
| ProductsState.ProductsProvider.constructor | app/contexts/ProductsContext.tsx:36-50 | one empty product, one all-zero row, fixed cost 0 |
| ProductsState.ProductsProvider.SetProducts | app/contexts/ProductsContext.tsx:53-68 | products are replaced; rows mirror them with quantities kept by position, so the lists stay aligned |
| ProductsState.ProductsProvider.UpdateProduct | app/contexts/ProductsContext.tsx:70-87 | an in-range write replaces the product and rebases its row, keeping alignment; index = length appends a product with no row; a negative index changes nothing |
| ProductsState.ProductsProvider.AddProduct | app/contexts/ProductsContext.tsx:89-103 | both lists grow by one default entry, earlier entries unchanged |
| ProductsState.ProductsProvider.RemoveProduct | app/contexts/ProductsContext.tsx:105-122 | position `index` leaves both lists, neither list is ever empty, on non-empty lists an out-of-range index changes nothing, alignment is kept |
| ProductsState.ProductsProvider.UpdateSimulation | app/contexts/ProductsContext.tsx:124-135 | only row `index` changes, its amounts are recomputed, products are untouched |
| ProductsState.ProductsProvider.SetSimulatorFixedCost | app/contexts/ProductsContext.tsx:50 | only the fixed cost changes |
| Simulator.Total | app/simulation/page.tsx:53-57 | a fold of rows whose amounts are all 0 is 0; of rows whose amounts are all ≥ 0, it is ≥ 0 |
| Simulator.TotalSales | app/simulation/page.tsx:53 | 0 when no row has sales, never negative when no row's sales are |
| Simulator.TotalVariableCost | app/simulation/page.tsx:54-57 | 0 when no row has a variable cost, never negative when no row's is |
| Simulator.TotalConcat | app/simulation/page.tsx:53-57 | the fold over two lists laid end to end is the sum of the two folds |
| Simulator.TotalAfterEdit | app/simulation/page.tsx:43-57 | replacing one row changes a total by exactly that row's change of amount |
| Simulator.NoLossRowsNoLoss | app/simulation/page.tsx:43-58 | if every row sells a non-negative quantity at a price no lower than its variable cost, total variable cost ≤ total sales, so the marginal profit is not negative |
| Simulator.ResetRows | app/simulation/page.tsx:26-36 | one row per product, mirroring its price and cost, with quantity and both amounts 0 |
| Simulator.ResetTotalsZero | app/simulation/page.tsx:26-57 | right after a reset both totals are 0 |
| Simulator.ResetIsSyncFromNothing | app/simulation/page.tsx:26-36 | the reset equals the provider's sync against no previous rows |
| Simulator.AggregateMetrics | app/simulation/page.tsx:58-66 | marginal and operating profit from the totals; with positive sales, each rate × total sales = its profit × 100; rates and ratio 0 without sales; break-even sales and ratio 0 (not infinite) when the rate is ≤ 0 |
| Simulator.SimulationMetrics | app/simulation/page.tsx:53-66 | operating profit is total sales − total variable cost − fixed cost; with no sales in any row, total sales, break-even sales and ratio are 0 |
| Simulator.MainPageAndSimulator | app/simulation/page.tsx:58-66 | on the same totals the two pages agree when the rate is positive; when it is not, the main page gives Infinity and 100, the simulator 0 and 0 |
| Simulator.BreakEvenStatus | app/simulation/page.tsx:68-74 | the status carries the main page's band for the ratio; its hue is blue exactly below 60, green in [60,70), yellow in [70,80), orange in [80,90), red from 90 |
| Simulator.StatusMatchesMainPage | app/simulation/page.tsx:68-74 | the simulator's bands equal the main page's; the hues differ only below 70 |
| Simulator.BreakEvenSalesDisplay | app/simulation/page.tsx:190-197 | the card reads 計算不可 exactly when the rate is ≤ 0, and otherwise shows the break-even sales |
| Simulator.BreakEvenRatioDisplay | app/simulation/page.tsx:201-215 | ratio and label are shown exactly when the rate and the total sales are positive, and then the label is the main page's band for that ratio |
| Simulator.BreakEvenSalesDisplayAgrees | app/simulation/page.tsx:190-197 | the simulator's break-even card shows what the main page's shows, 計算不可 exactly when the rate is ≤ 0 |
| Simulator.ResetShowsOnlyFixedCost | app/simulation/page.tsx:26-66 | right after the products change, operating profit is −fixed cost, its rate 0, and both break-even cards read 計算不可 |
| Simulator.UncomputableRatioCard | app/simulation/page.tsx:201-215 | with no positive rate the ratio card reads 計算不可 but is painted with the safest band's hue |
| Simulator.RateDifference | app/simulation/page.tsx:245-253 | 0 for a row that mirrors its product; at the product's own positive price, difference × price = (product's cost − row's cost) × 100 |
| Simulator.RateDifferenceSign | app/simulation/page.tsx:245-253 | an unedited row shows no difference; at the product's own price a lower cost shows a gain and a higher cost a loss |
| Simulator.SimulationPage.constructor | app/simulation/page.tsx:23 | the simulator starts with no rows |
| Simulator.SimulationPage.OnProductsChanged | app/simulation/page.tsx:26-36 | the rows become the reset rows; both totals are 0 |
| Simulator.SimulationPage.UpdateSimulation | app/simulation/page.tsx:38-51 | only row `index` changes, its amounts are recomputed, and each total moves by that row's change |
| Utils.HalfWidthChar | lib/utils.ts:24-25 | a full-width digit becomes the ASCII digit 0xFEE0 below it; any other character is kept |
| Utils.ConvertToHalfWidth | lib/utils.ts:23-27 | the output has the input's length and maps every character by itself |
| Utils.NoFullWidthDigitRemains | lib/utils.ts:23-27 | the output holds no full-width digit |
| Utils.ConvertIdempotent | lib/utils.ts:23-27 | converting twice equals converting once |
| Utils.ConvertKeepsOtherStrings | lib/utils.ts:24 | a string without full-width digits is returned unchanged |
| Utils.DigitValuePreserved | lib/utils.ts:25 | a full-width digit becomes the ASCII digit of the same value |
| Utils.FormatCurrency | lib/utils.ts:8-11 | a non-finite value is shown as 計算不可, a finite value as an amount |

## Left out

- Rendering: JSX, Tailwind class strings (only their hue is kept), icons, `cn` and `twMerge`,
  navigation, the layout and the providers' wiring.
- The saved-scenario API and its database schema: they are I/O through an ORM, and ids and
  timestamps come from the database. The server launcher and the header configuration too.
- IEEE-754 doubles: no NaN, no −Infinity, no rounding. In doubles the simulator's
  `(fixedCost / rate) * 100` and the main page's `fixedCost / (rate / 100)` can differ in the
  last bit; over `real` they are equal.
- Input parsing (`parseFloat(...) || 0`, `Number(...) || 0`) and output formatting
  (`toFixed`, `Intl.NumberFormat`): values arrive as `real`, and a formatted amount is kept
  as the amount itself.
- `existingSim?.quantity || 0` is modelled as the quantity itself, which is what it is for
  every non-NaN number.
- JavaScript strings are UTF-16 code units; the model's `string` is a sequence of Unicode
  scalar values. The digit mapping touches only characters of the Basic Multilingual Plane.
- React's asynchronous batching and the closures that read state from an earlier render
  (such as `setProducts` reading `simulations`): each provider operation is one transition.
- ProductsState.ProductsProvider.UpdateProduct: an index beyond the end of the list would
  leave holes in a JavaScript array, which a sequence cannot hold, so it is excluded; no page
  passes one.
- ProductsState.ProductsProvider.UpdateSimulation: an out-of-range index builds a partial row
  with NaN amounts and is excluded; the rows edited are always existing ones.
- Simulator.SimulationPage.UpdateSimulation: the same out-of-range exclusion; the page edits
  only rows it has just rendered.
- ProductsPage.HandleInputChange: an out-of-range index would spread `undefined`; the page only
  edits products it lists.
- A partial record that carries a key explicitly set to `undefined` is not modelled; every
  caller passes a number.
