# AI savings calculator — a Dafny model

The calculator compares what a user pays for AI subscriptions with what the same use would
cost on pay-as-you-go pricing. The user picks usage areas (writing, programming, …), each with
an average number of input and output tokens per prompt. They then add AI models, each with a
daily prompt count and an optional subscription. From these the page computes:

- the monthly token volume (a fixed 30-day month);
- the pay-as-you-go cost, from prices per 1000 input and per 1000 output tokens;
- the total subscription cost;
- the monthly savings and the savings percentage.

This project models that core:

- `calculation.dfy` (module `Calculation`) is the calculation engine. The token total is an
  imperative loop proved against the specification function `MonthlyTokensOf`. Cost, savings
  and percentage are functions. Money and tokens are exact `real`s.
- `index_page.dfy` (module `IndexPage`) is the page. It holds the list operations behind the
  add, remove and update handlers and the subscription total. The page state is a class `Index`.
  Each handler is a method, and each effect is an explicit method run after a state change:
  `SyncSubscriptionTotal`, the gated `RecomputeResults`, and `Settle`, which runs both.
- `usage_area_selector.dfy` (module `UsageAreaSelector`) toggles a usage area by id.
- `model_usage_input.dfy` (module `ModelUsageInput`) is the model-usage form. It covers the
  `ModelUsage` record, the models still on offer, the guard on typed prompt counts, and the
  class `ModelUsageForm` with its add-and-reset step.
- `prompts_per_day_input.dfy` (module `PromptsPerDayInput`) is the prompts widget: the 0..100
  clamp of typed values, the slider, and the displayed monthly count.
- `catalog.dfy` (module `Catalog`) holds the reference data types and the few catalog entries
  the worked examples use.
- `sums.dfy` (module `Sums`) is a left-to-right sum over a list, with lemmas for append,
  permutation and sign. `wrappers.dfy` (module `Wrappers`) defines `Option`.

Where the code and its documentation disagree, the model follows the code:

- **Sum, not mean.** `calculateMonthlyTokens` adds each selected area's per-prompt tokens
  times the month's prompts (src/utils/calculationUtils.ts:17-20). The comment at line 13 and
  the explanation page (src/pages/ScopriCalcolo.tsx:50, 161, 176) describe the mean over areas.
  `MonthlyTokensOf` is the sum as written. `DocumentedMonthlyTokens` is the documented mean.
  The contract of `DocumentedMonthlyTokens` shows the code's total is the number of areas times
  the documented one. `SumNotMeanExample` shows the page's own example: areas of 400 and 600
  input tokens at 20 prompts a day give 600,000 input tokens, not the documented 300,000.
- **Per-type buckets.** The page's state expects token results per capability type
  (src/pages/Index.tsx:26-31). No code groups usages by type, averages over type-compatible
  areas or fills those fields, so none of that is modelled.
- **The page's call to the engine.** src/pages/Index.tsx:83-89 passes the usage list where a
  number is expected. It then reads a `totalCost` and per-type fields that the function never
  returns. The model therefore takes the pay-as-you-go total as a parameter of the recompute
  step (`Index.RecomputeResults`, `Index.Settle`). `IndexPage.ReconstructedPayAsYouGo` is a
  labelled reconstruction of the intended total: per usage, the engine's tokens at that usage's
  daily prompt rate, priced at that usage's model, then summed (src/pages/ScopriCalcolo.tsx:93).
- **`subscription` on a usage.** The declared `ModelUsage` type
  (src/components/ModelUsageInput.tsx:16-20) has no `subscription` field. The page reads and
  writes one (src/pages/Index.tsx:59-77), so the model's `ModelUsage` has an optional one.

## Model

| member | source | states |
|---|---|---|
| Calculation.MonthlyTokensOf | src/utils/calculationUtils.ts:5-23 | Monthly totals are the sum over areas of per-prompt tokens times prompts-per-day × 30; an empty area list gives {0, 0} |
| Calculation.CalculateMonthlyTokens | src/utils/calculationUtils.ts:5-23 | The `forEach` accumulation loop returns exactly `MonthlyTokensOf(areas, promptsPerDay)`, for both totals |
| Calculation.MonthlyTokensLinear | src/utils/calculationUtils.ts:11-20 | Scaling prompts-per-day by k scales both totals by k (doubling doubles them) |
| Calculation.MonthlyTokensOrderIndependent | src/utils/calculationUtils.ts:17-20 | Any permutation of the selected areas gives the same totals |
| Calculation.MonthlyTokensAppend | src/utils/calculationUtils.ts:17-20 | Selecting one more area adds exactly that area's tokens times the month's prompts |
| Calculation.MonthlyTokensNonNegative | src/utils/calculationUtils.ts:5-23 | Nonnegative averages and rate give nonnegative totals |
| Calculation.DocumentedMonthlyTokens | src/pages/ScopriCalcolo.tsx:46-55 | The documented mean-based totals, times the number of areas, equal the code's summed totals |
| Calculation.SumNotMeanExample | src/utils/calculationUtils.ts:13-20 | Areas 400/1200 and 600/2500 at 20 prompts/day: code gives 600,000/2,220,000, the documentation 300,000/1,110,000 |
| Calculation.PayAsYouGoCost | src/utils/calculationUtils.ts:26-35 | Per-1000-token pricing; nonnegative for nonnegative tokens and prices; zero tokens cost zero |
| Calculation.PayAsYouGoAdditive | src/utils/calculationUtils.ts:31-34 | Cost is additive in the token volumes |
| Calculation.PayAsYouGoMonotone | src/utils/calculationUtils.ts:31-34 | With nonnegative prices, cost is monotone in each token count |
| Calculation.PayAsYouGoWorkedExample | src/pages/ScopriCalcolo.tsx:184-186 | 300,000 in / 1,110,000 out at GPT-4o's 0.005/0.015 costs 18.15 |
| Calculation.MonthlySavings | src/utils/calculationUtils.ts:38-43 | Savings plus the pay-as-you-go cost equal the subscription cost; positive iff pay-as-you-go is cheaper |
| Calculation.SavingsPercentage | src/utils/calculationUtils.ts:46-52 | 0 for a zero subscription cost; otherwise percentage × subscription = savings × 100 |
| Calculation.SavingsPercentageAtMostHundred | src/utils/calculationUtils.ts:50-51 | For a paid plan and a nonnegative bill the percentage is at most 100, and nonnegative iff the bill does not exceed the plan |
| Calculation.NoSavingsAtEqualCost | src/utils/calculationUtils.ts:38-52 | Equal costs give 0 savings and 0% |
| Calculation.FreePlanSavings | src/utils/calculationUtils.ts:42-50 | A zero subscription gives savings −p and 0% |
| Calculation.SavingsWorkedExample | src/pages/ScopriCalcolo.tsx:193-194 | (20, 18.15) saves 1.85, i.e. 9.25% |
| Calculation.SingleAreaScenario | src/utils/calculationUtils.ts:5-52 | One writing area at 10 prompts/day on GPT-4o: 120,000/360,000 tokens, 6.00; against ChatGPT Plus (20) 14.00 saved, 70% |
| UsageAreaSelector.WithoutId | src/components/UsageAreaSelector.tsx:23 | Unchanged when no area has the id; strictly shorter when one does |
| UsageAreaSelector.WithoutIdMembers | src/components/UsageAreaSelector.tsx:23 | The filter keeps exactly the areas whose id differs |
| UsageAreaSelector.ToggleArea | src/components/UsageAreaSelector.tsx:20-28 | A selected id is removed entirely: the result is exactly `WithoutId` of the selection, so its order is kept (list shrinks); an unselected area is appended and becomes selected; areas of other ids are never added or dropped |
| UsageAreaSelector.WithoutIdAppend | src/components/UsageAreaSelector.tsx:23 | Filtering distributes over concatenation, so the other areas keep their relative order |
| UsageAreaSelector.ToggleTwiceRestores | src/components/UsageAreaSelector.tsx:20-28 | Toggling an unselected area twice restores the original list |
| UsageAreaSelector.SelectionById | src/components/UsageAreaSelector.tsx:22-42 | Selection and removal depend only on the id, not on the area value |
| UsageAreaSelector.WithoutIdKeepsDistinct | src/components/UsageAreaSelector.tsx:23 | Filtering keeps ids distinct |
| UsageAreaSelector.ToggleKeepsDistinct | src/components/UsageAreaSelector.tsx:20-28 | A duplicate-free selection stays duplicate-free under toggling |
| PromptsPerDayInput.HandleInputChange | src/components/PromptsPerDayInput.tsx:15-20 | NaN and negative values pass nothing on; others are passed on as min(v, 100), so within [0, 100] and unchanged when ≤ 100 |
| PromptsPerDayInput.ZeroIsAccepted | src/components/PromptsPerDayInput.tsx:17-40 | 0 is passed on although both widgets declare minimum 1 |
| PromptsPerDayInput.InputChangeIdempotent | src/components/PromptsPerDayInput.tsx:18 | Re-entering a passed-on value passes it on unchanged |
| PromptsPerDayInput.HandleSliderChange | src/components/PromptsPerDayInput.tsx:22-35 | The single-thumb slider's value list is non-empty, and its first value is passed on as it is |
| PromptsPerDayInput.SliderAgreesWithInput | src/components/PromptsPerDayInput.tsx:15-34 | Within the slider's range 1..100 slider and typed field pass on the same value |
| PromptsPerDayInput.DisplayedMonthlyPrompts | src/components/PromptsPerDayInput.tsx:49 | The displayed monthly count equals the engine's monthly prompt volume (value × 30) |
| ModelUsageInput.FindModel | src/components/ModelUsageInput.tsx:43 | None iff no catalog model has the id; otherwise the first model with that id |
| ModelUsageInput.NewModelUsage | src/components/ModelUsageInput.tsx:40-52 | Nothing when the selection is empty or matches no model; otherwise a catalog model with the selected id, the current prompt count, no subscription, id "selected-stamp" |
| ModelUsageInput.HandlePromptsChange | src/components/ModelUsageInput.tsx:59-64 | Only parsed values > 0 are passed on, unchanged |
| ModelUsageInput.AvailableModels | src/components/ModelUsageInput.tsx:66-68 | Exactly the catalog models whose id no usage uses; the whole catalog when nothing is in use |
| ModelUsageInput.AvailableModelsAppend | src/components/ModelUsageInput.tsx:66-68 | The offer distributes over catalog concatenation, so it keeps catalog order |
| ModelUsageInput.AvailableModelsEmpty | src/components/ModelUsageInput.tsx:66-68 | The offer is empty iff every catalog model is in use |
| ModelUsageInput.AddOfferedKeepsUnique | src/components/ModelUsageInput.tsx:40-68 | Adding a model taken from the offer succeeds and keeps at most one usage per model id |
| ModelUsageInput.ModelUsageForm.constructor | src/components/ModelUsageInput.tsx:37-38 | The form starts with no model selected and 10 prompts/day |
| ModelUsageInput.ModelUsageForm.SelectModel | src/components/ModelUsageInput.tsx:122 | The picker sets the selected model id |
| ModelUsageInput.ModelUsageForm.HandleNewPromptsChange | src/components/ModelUsageInput.tsx:156-159 | The new-usage count takes only parsed values > 0, otherwise stays; the count stays positive |
| ModelUsageInput.ModelUsageForm.HandleAddModel | src/components/ModelUsageInput.tsx:40-57 | Emits `NewModelUsage` of the pre-state; after emitting, resets to no selection and 10; after an early return changes nothing |
| IndexPage.AppendUsage | src/pages/Index.tsx:42-44 | The old list, unchanged and in order, followed by the new usage |
| IndexPage.RemoveUsage | src/pages/Index.tsx:47-49 | Never longer than the input; an absent id leaves the list unchanged |
| IndexPage.RemoveUsageMembers | src/pages/Index.tsx:48 | Removal keeps exactly the usages whose id differs |
| IndexPage.RemoveUsageAppend | src/pages/Index.tsx:48 | Removal distributes over concatenation, so survivors keep their order |
| IndexPage.RemovedAt | src/pages/Index.tsx:48 | Removing a unique id cuts exactly that entry out of the list |
| IndexPage.RemoveUndoesAppend | src/pages/Index.tsx:42-49 | Removing a freshly added usage by its new id restores the list |
| IndexPage.UpdatePromptsPerDay | src/pages/Index.tsx:52-56 | Same length and order; only promptsPerDay changes, and only on matching ids |
| IndexPage.UpdateSubscription | src/pages/Index.tsx:59-68 | Same length and order; only the subscription changes, and only on matching ids |
| IndexPage.TotalSubscriptionNonNegative | src/pages/Index.tsx:71-77 | The total of subscription costs, a missing one counting 0, is nonnegative when all costs are |
| IndexPage.NoSubscriptionsZeroTotal | src/pages/Index.tsx:71-104 | Usages without subscriptions give a total of 0, savings of minus the pay-as-you-go total, and 0% |
| IndexPage.NoSubscriptionsPreserved | src/components/ModelUsageInput.tsx:40-57 | A usage the form builds has no subscription; adding it, removing a usage or changing a prompt count keeps every usage without one |
| IndexPage.TotalAfterAppend | src/pages/Index.tsx:42-77 | Adding a usage adds its subscription cost to the total |
| IndexPage.TotalAfterRemove | src/pages/Index.tsx:47-77 | Removing a unique id subtracts that usage's subscription cost |
| IndexPage.TotalAfterPromptsUpdate | src/pages/Index.tsx:52-77 | Changing prompts leaves the subscription total unchanged |
| IndexPage.TotalAfterSubscriptionUpdate | src/pages/Index.tsx:59-77 | Replacing a unique usage's subscription swaps its cost in the total |
| IndexPage.RemoveKeepsUnique | src/pages/Index.tsx:47-49 | Removal keeps at most one usage per model |
| IndexPage.UpdatesKeepUnique | src/pages/Index.tsx:52-68 | Updates keep at most one usage per model |
| IndexPage.ReconstructedPayAsYouGo | src/pages/ScopriCalcolo.tsx:93 | Reconstruction: per-usage engine cost summed over usages; 0 for no usages |
| IndexPage.UsageCostLinear | src/utils/calculationUtils.ts:11-34 | Reconstruction: scaling a usage's prompts by k scales its cost by k |
| IndexPage.NoAreasNoCost | src/utils/calculationUtils.ts:14-22 | Reconstruction: with no area selected the total cost is 0 |
| IndexPage.ReconstructedNonNegative | src/utils/calculationUtils.ts:26-35 | Reconstruction: nonnegative data give a nonnegative total |
| IndexPage.Index.constructor | src/pages/Index.tsx:18-34 | Empty selections, zero results, results hidden |
| IndexPage.Index.ToggleSelectedArea | src/pages/Index.tsx:128-132 | The selector's toggled list becomes the page's area selection |
| IndexPage.Index.HandleAddModelUsage | src/pages/Index.tsx:42-44 | The usage list becomes `AppendUsage` of the old list |
| IndexPage.Index.HandleRemoveModelUsage | src/pages/Index.tsx:47-49 | The usage list becomes `RemoveUsage` of the old list |
| IndexPage.Index.HandleUpdatePromptsPerDay | src/pages/Index.tsx:52-56 | The usage list becomes `UpdatePromptsPerDay` of the old list |
| IndexPage.Index.HandleUpdateSubscription | src/pages/Index.tsx:59-68 | The usage list becomes `UpdateSubscription` of the old list |
| IndexPage.Index.SyncSubscriptionTotal | src/pages/Index.tsx:71-77 | The stored total equals the sum over the current usages |
| IndexPage.Index.RecomputeResults | src/pages/Index.tsx:80-105 | When the form is complete (areas and usages non-empty), the results are recomputed from the given pay-as-you-go total; otherwise the previous results persist |
| IndexPage.Index.Settle | src/pages/Index.tsx:71-105 | After both effects: total matches the usages and, when complete, savings + pay-as-you-go = subscription total and the percentage matches |
| IndexPage.Index.HandleCalculate | src/pages/Index.tsx:108-110 | The calculate button makes the results visible |

## Left out

- Per-capability-type token buckets, averaging over type-compatible areas, and overwriting per
  type: the page's `tokenResults` state expects them (src/pages/Index.tsx:26-31), but no code
  computes them. The `tokenResults` state itself is not modelled.
- The page's call `calculateMonthlyTokens(selectedAreas, selectedModelUsages)`: it is ill-typed.
  As written, `payAsYouGoCost` becomes `undefined` (src/pages/Index.tsx:89) and
  `monthlySavings` becomes NaN (src/pages/Index.tsx:92-96). `savingsPercentage` is NaN only
  for a nonzero subscription total; with a total of 0 the guard at
  src/utils/calculationUtils.ts:50 gives 0. The pay-as-you-go total is a parameter of
  `Index.RecomputeResults`; `ReconstructedPayAsYouGo` is a reconstruction.
- IndexPage.UpdateSubscription and IndexPage.Index.HandleUpdateSubscription model a handler
  that no component calls. The form declares no `subscriptions` or `onUpdateSubscription`
  prop (src/components/ModelUsageInput.tsx:22-36) and ignores the ones the page passes
  (src/pages/Index.tsx:136, 141). Neither the page nor the form imports the subscription selector. Every
  reachable usage therefore has no subscription (`NoSubscriptionsPreserved`), so every
  reachable subscription total and savings percentage is 0 (`NoSubscriptionsZeroTotal`).
- `formatCurrency` and `formatTokens`: locale formatting through `Intl.NumberFormat`, a foreign call.
- `parseInt`: handlers take the parsed integer as `Option<int>`, with None for NaN.
- `Date.now()` in the new usage's id: a clock, taken as the `stamp` string parameter.
- IEEE floating-point rounding: all arithmetic is exact over `real`.
- React scheduling. In one commit the recompute effect still reads the previous subscription
  total and then runs again. The model has the effects as explicit methods, and `Settle` gives
  the state once both have run.
- JSX markup, styling, icons (including the dynamic icon import), dialogs, routing, and the
  explanation page, which serves only as a source of worked-example numbers.
- The results display, the subscription selector and the model selector: presentation and
  form wiring outside this model.
- The catalog data beyond the entries used by the examples (writing, programming, GPT-4o,
  GPT-4o-mini, ChatGPT Plus).
- Index.HandleAddModelUsage: like the page, it accepts any usage. "At most one usage per model"
  holds only for usages taken from the form's offer (`AddOfferedKeepsUnique`), not for every
  call.
- ModelUsageInput.ModelUsage: `promptsPerDay` is an `int`, because every path that sets it
  goes through `parseInt` or the 10 default. The engine takes a `real` rate.
