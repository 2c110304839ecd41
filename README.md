# House configurator core in Dafny

This project models the core of a house configurator web application (free_son) and proves properties of that model. The core has six parts:

- **Pricing engine** (`pricing.dfy`, `pricing_facts.dfy`). From a configuration it computes four things:
  - a base price: area × wall-material rate × floor coefficient × finish multiplier, rounded;
  - cost items, in a fixed catalogue order: one foundation item, then one item per selected engineering option, then one per selected extra;
  - a total: the base price, plus a percent surcharge, plus every item's amount, times a promo multiplier;
  - five construction stages, each with a bounded number of weeks.
  
  The percent surcharge for panoramic windows enters the total twice. The model reproduces this as written, and `PercentSurchargeCountedTwice` states it.
- **Progress** (`progress.dfy`). The four-step completion record of a stored project and its rounded percentage.
- **Rate limiter** (`rate_limit.dfy`). How a client's address is read from the request headers, and the fixed-window counter store: one window per route and address.
- **Selection context** (`selection_context.dfy`). The wizard's shared selection, the merge of partial updates into it, and its reset.
- **Wizard** (`wizard.dfy`). The home page's step machine: forward moves are guarded by the selection, and the page also has back and reset.
- **Calculator form** (`calculator_form.dfy`). The checkbox toggle of the engineering-options and extras lists.

Shared value types are in `types.dfy`.

Imperative code is modelled as methods, and each method is proved equal to a specification function. Pure code is modelled as functions and lemmas.

- `Pricing.ComputePrice` pushes items, runs the percent pass as a loop and sums. It is proved to return exactly `Pricing.Price(input)`.
- `Pricing.EngineeringCosts` and `Pricing.ExtrasCosts` push items one option at a time.
- The rate limiter's store is a field of the class `RateLimiter`, and `RateLimit` updates it.
- The selection provider, the home page and the form state are classes whose methods update their fields.

Numbers are modelled as follows:

- Prices are mathematical reals.
- `Math.round` is `floor(x + 0.5)`.
- `Math.ceil` is `-floor(-x)`.
- Counts and milliseconds are unbounded integers.
- The current time (`Date.now()`) is a parameter.

## Model

| member | source | states |
|---|---|---|
| Pricing.Clamp | src/lib/pricing.ts:16-18 | the result is never below `min`, and at most `max` when `min <= max`; a value in range is returned unchanged, a value below `min` becomes `min`, a value above `max` (with `min <= max`) becomes `max` |
| Pricing.RoundNearest | src/lib/pricing.ts:205 | `Math.round` gives the integer within half a unit of its argument, and ties go upwards |
| Pricing.BaseRatePerM2 | src/lib/pricing.ts:10-14 | the rate lies in [75 000, 95 000]; it is the minimum exactly for wood and the maximum exactly for brick |
| Pricing.FloorCoefficient | src/lib/pricing.ts:20-24 | the coefficient lies in [1.0, 1.15] and is 1.0 exactly for one floor |
| Pricing.FinishMultiplier | src/lib/pricing.ts:26-35 | the multiplier lies in [0.85, 1.2] and is 1.0 exactly for the basic finish |
| Pricing.FoundationCost | src/lib/pricing.ts:37-49 | the foundation item is per m² over the whole area, with amount = rate × area; it has category "foundation" and rate 18 000, 14 000 or 12 000 for slab, strip or pile |
| Pricing.EngineeringItem | src/lib/pricing.ts:51-125 | each option's item has its own id and category "engineering", is never percent-typed and its amount agrees with its type; heating 2 800 and electricity 900 per m² of the whole area, warm floor 1 900 per m² over 60 % of the area, ventilation 250 000, water 180 000 and septic 220 000 fixed |
| Pricing.TerraceQuantity | src/lib/pricing.ts:133 | the terrace area is a fifth of the house area when that lies in [12, 40] m², 12 m² when the fifth is at most 12 and 40 m² when it is at least 40 |
| Pricing.ExtraItem | src/lib/pricing.ts:127-178 | each extra's item has its own id and category "extras"; the terrace is 14 000 per m² of the terrace area, the fireplace 180 000 and the garage 700 000 fixed; only the panoramic windows are percent-typed, with fraction 0.06 and amount 0 until the percent pass; the other amounts are non-negative and agree with their types |
| Pricing.Settle | src/lib/pricing.ts:222-226 | the percent pass changes no field but the amount; a percent item's amount becomes its rounded share of the base price; other items pass through unchanged |
| Pricing.EstimateStages | src/lib/pricing.ts:180-196 | five stages in the order design, foundation, frame, engineering, finishing, with weeks in [1,4], [1,6], [2,12], [1,6] and [1,8] |
| Pricing.SelectedMembers | src/lib/pricing.ts:55-124 | the `includes` tests select an option exactly when it is both in the catalogue and in the input list |
| Pricing.SelectedKeepsOrder | src/lib/pricing.ts:55-124 | the selected options come out in catalogue order, so none appears twice |
| Pricing.EngineeringCosts | src/lib/pricing.ts:51-125 | the conditional pushes build the specification list of engineering items |
| Pricing.ExtrasCosts | src/lib/pricing.ts:127-178 | the conditional pushes build the specification list of extras items, and an absent extras list counts as empty |
| Pricing.ComputePrice | src/lib/pricing.ts:198-243 | the imperative computation (pushes, percent sum, percent loop, reductions, stages) returns exactly the specified result |
| PricingFacts.ItemsInCatalogueOrder | src/lib/pricing.ts:207-213 | the items are strictly increasing in catalogue rank (foundation, six engineering options, four extras), so no item id occurs twice, however often an option is repeated in the input |
| PricingFacts.FoundationItemFirst | src/lib/pricing.ts:207-213 | `items[0]` is the foundation item (its id, per-m² type, quantity = area, amount), and no other item is in the foundation category |
| PricingFacts.EngineeringItemPresence | src/lib/pricing.ts:51-125 | an engineering item is present exactly when its option occurs in the input list |
| PricingFacts.ExtraItemPresence | src/lib/pricing.ts:127-178 | an extra's item is present exactly when the extras list is given and contains it |
| PricingFacts.ItemAmountsConsistent | src/lib/pricing.ts:216-226 | every item's amount agrees with its type, unit price and quantity; the percent items are exactly the panoramic one, with amount round(0.06 × basePrice); valid inputs give non-negative amounts |
| PricingFacts.BasePriceBounds | src/lib/pricing.ts:205 | for inputs in the schema's ranges the base price lies in [637 500, 131 100 000] |
| PricingFacts.BasePriceMonotoneInArea | src/lib/pricing.ts:205 | with everything else equal, a larger area never gives a smaller base price |
| PricingFacts.PercentSurchargeCountedTwice | src/lib/pricing.ts:216-229 | total = round((basePrice + 2 × percent-item amounts + other amounts) × promo), and the percent-item amounts are round(0.06 × basePrice) with panoramic windows and 0 without: the surcharge is counted twice |
| PricingFacts.TotalAtLeastBase | src/lib/pricing.ts:229 | for a valid input with promo ≥ 1 the total is never below the base price |
| PricingFacts.DurationWithinBounds | src/lib/pricing.ts:231-242 | there are five stages, `durationWeeks` is their sum and lies in [6, 36], and `pricingVersion` is "2025-10-01" |
| PricingFacts.PlainHouseTotal | src/lib/pricing.ts:198-243 | 100 m², wood, one floor, slab, basic finish: base price 7 500 000, only the foundation item, total 9 300 000 |
| PricingFacts.PanoramicHouseTotal | src/lib/pricing.ts:216-229 | the same house with panoramic windows totals 10 200 000 = 7 500 000 + 2 × 450 000 + 1 800 000 |
| Progress.CompletedCount | src/lib/progress.ts:21 | the number of completed steps never exceeds the number of steps |
| Progress.ComputeProgress | src/lib/progress.ts:3-25 | the four steps come in the order selection, parameters, summary, contacts, and each is completed exactly under its condition on the project's fields; `percent` is 25 × the completed count and lies in {0, 25, 50, 75, 100} |
| Progress.CompleteOneStep | src/lib/progress.ts:21 | completing one open step raises the count by exactly one |
| Progress.CountExtremes | src/lib/progress.ts:21 | the count equals the length exactly when all steps are complete, and is zero exactly when none is |
| Progress.OneMoreStepAddsQuarter | src/lib/progress.ts:21-22 | one more completed step adds exactly 25 to the percentage |
| Progress.AddingEmailAddsQuarter | src/lib/progress.ts:12-22 | giving an e-mail address to a project without contact details adds 25 |
| Progress.FullAndEmptyProgress | src/lib/progress.ts:4-22 | the percentage is 100 exactly when all four conditions hold, and 0 exactly when none holds |
| Progress.PricedProjectHasSummary | src/lib/progress.ts:11 | a project holding the engine's result for a valid, undiscounted input has its summary step completed |
| RateLimit.TrimStart | src/lib/rateLimit.ts:13 | exactly the longest all-whitespace prefix is removed |
| RateLimit.TrimEnd | src/lib/rateLimit.ts:13 | exactly the longest all-whitespace suffix is removed |
| RateLimit.Trim | src/lib/rateLimit.ts:13 | the result is a contiguous piece of the input with whitespace only around it, and it neither starts nor ends with whitespace |
| RateLimit.TrimKeepsAbsent | src/lib/rateLimit.ts:13 | trimming introduces no character that was not in the input |
| RateLimit.TrimIdempotent | src/lib/rateLimit.ts:13 | trimming twice is trimming once |
| RateLimit.FirstField | src/lib/rateLimit.ts:13 | `split(',')[0]` is the longest comma-free prefix |
| RateLimit.FirstFieldOfList | src/lib/rateLimit.ts:13 | the first field of `hop,rest` is `hop` |
| RateLimit.GetClientIp | src/lib/rateLimit.ts:11-17 | the address never has surrounding whitespace; it holds no comma when taken from `x-forwarded-for`; it is 127.0.0.1 when neither header is a non-empty string |
| RateLimit.FirstFieldOfSingle | src/lib/rateLimit.ts:13 | a comma-free list is its own first field |
| RateLimit.ForwardedDecides | src/lib/rateLimit.ts:12-13 | a non-empty `x-forwarded-for` header gives the address: its first comma-separated field, trimmed, whatever `x-real-ip` says |
| RateLimit.ForwardedSingleAddress | src/lib/rateLimit.ts:12-13 | a single forwarded address such as `203.0.113.7` is used as it is, trimmed |
| RateLimit.ForwardedFirstHop | src/lib/rateLimit.ts:12-13 | with `x-forwarded-for: hop,rest` the address is the trimmed first hop |
| RateLimit.RealIpFallback | src/lib/rateLimit.ts:14-15 | with no usable forwarded header, a non-empty `x-real-ip` is used, trimmed |
| RateLimit.Ceil | src/lib/rateLimit.ts:35 | `Math.ceil` gives the least integer not below its argument |
| RateLimit.RetryAfterSec | src/lib/rateLimit.ts:35 | the retry delay is the whole number of seconds to the window's end, rounded up: never negative, covers the remaining time, and less than one second more |
| RateLimit.Admit | src/lib/rateLimit.ts:19-49 | a request is allowed exactly when its window is missing, expired or below the limit; a missing or expired window becomes {1, now + windowMs}; a live one counts +1 and keeps its end; a refusal leaves the store unchanged, reports the limit, remaining 0, a retry delay of at least 1 s and the window's end in whole seconds rounded up; no other key changes |
| RateLimit.AdmitKeepsCountsInRange | src/lib/rateLimit.ts:25-33 | with limit ≥ 1, every stored count stays within [1, limit] |
| RateLimit.Admitted | src/lib/rateLimit.ts:19-49 | a run of requests never admits more than it has requests |
| RateLimit.LiveWindowAdmits | src/lib/rateLimit.ts:30-33 | a live window that has counted c requests admits exactly min(n, max(0, limit − c)) of the next n requests before its end |
| RateLimit.AtMostLimitPerWindow | src/lib/rateLimit.ts:25-33 | requests that fall in one window admit min(n, max(1, limit)), so at most `limit` when the limit is positive (the window's first request is always admitted) |
| RateLimit.OtherKeysIndependent | src/lib/rateLimit.ts:20-26 | a request for another route or address never touches this key's counter |
| RateLimit.RateLimiter.constructor | src/lib/rateLimit.ts:4 | the store starts empty |
| RateLimit.RateLimiter.RateLimit | src/lib/rateLimit.ts:19-49 | the store update and the outcome are those of the admission rule for key `routeKey:ip` |
| SelectionContext.Merge | src/context/SelectionContext.tsx:182-184 | every field the update mentions takes the update's value, and every other field keeps its previous value |
| SelectionContext.MergeNothing | src/context/SelectionContext.tsx:182-184 | an update that mentions no field changes nothing |
| SelectionContext.MergeIdempotent | src/context/SelectionContext.tsx:182-184 | applying the same update twice equals applying it once |
| SelectionContext.MergeThen | src/context/SelectionContext.tsx:182-184 | two successive updates equal one combined update in which the later one wins |
| SelectionContext.MergeFullUpdate | src/context/SelectionContext.tsx:182-184 | an update naming every field gives the same result whatever the previous selection |
| SelectionContext.SelectionProvider.constructor | src/context/SelectionContext.tsx:29-34 | the selection starts with every field null |
| SelectionContext.SelectionProvider.UpdateSelection | src/context/SelectionContext.tsx:182-184 | the new selection is the merge of the update into the old one |
| SelectionContext.SelectionProvider.ResetSelection | src/context/SelectionContext.tsx:186-193 | the selection becomes the all-null initial value, whatever it was |
| Wizard.Index | src/app/page.tsx:11 | the steps are numbered 0 to 5, with landing first and dashboard last |
| Wizard.CanProceed | src/app/page.tsx:62-73 | plot, construction and house need a non-empty plot id, a construction format and a non-empty house id respectively; every other step may proceed |
| Wizard.Next | src/app/page.tsx:17-35 | "next" either stays or moves exactly one step forward, and it moves exactly when the step is not the dashboard and `canProceed` holds |
| Wizard.Back | src/app/page.tsx:37-55 | "back" moves exactly one step backward, and landing stays |
| Wizard.BackAfterNext | src/app/page.tsx:17-55 | going back after a forward move returns to the earlier step |
| Wizard.NextAfterBack | src/app/page.tsx:17-55 | moving forward after going back returns to the later step, when the earlier step may proceed |
| Wizard.WalkAdvancesAtMost | src/app/page.tsx:17-35 | n presses of "next" advance between 0 and n steps |
| Wizard.NoPlotNoProgress | src/app/page.tsx:22-24 | without a plot the wizard never passes the plot step |
| Wizard.CompleteSelectionReachesDashboard | src/app/page.tsx:17-35 | with a plot, a format and a house chosen, five presses lead from landing to the dashboard |
| Wizard.Home.constructor | src/app/page.tsx:14 | the page starts at the landing step |
| Wizard.Home.HandleNext | src/app/page.tsx:17-35 | the step becomes the next step for the current selection |
| Wizard.Home.HandleBack | src/app/page.tsx:37-55 | the step becomes the previous step |
| Wizard.Home.HandleReset | src/app/page.tsx:57-60 | the selection is reset to its initial value and the step returns to landing |
| Wizard.Home.CanProceedNow | src/app/page.tsx:62-73 | the button state is `CanProceed` of the current step and selection, and an enabled button on a step other than the dashboard moves the wizard |
| CalculatorForm.RemoveAll | src/components/CalculatorForm.tsx:90 | the value no longer occurs, and every other value keeps its multiplicity |
| CalculatorForm.RemoveAllAppend | src/components/CalculatorForm.tsx:90 | removal distributes over concatenation, so the order of the remaining values is kept |
| CalculatorForm.RemoveAbsent | src/components/CalculatorForm.tsx:90 | removing an absent value changes nothing |
| CalculatorForm.Toggle | src/components/CalculatorForm.tsx:86-92 | an absent list counts as empty; ticking appends the value at the end after the unchanged old list, adding one more copy even if it is already there; unticking gives `RemoveAll` of the list: every copy removed, the rest in their order (`RemoveAllAppend`) and with their multiplicities |
| CalculatorForm.TickUntick | src/components/CalculatorForm.tsx:88-90 | ticking and then unticking a value that was not listed restores the list |
| CalculatorForm.UntickTwice | src/components/CalculatorForm.tsx:90 | unticking twice is unticking once |
| CalculatorForm.FormData.constructor | src/components/CalculatorForm.tsx:33-41 | the form starts from the initial data's lists when initial data is given, and otherwise with both lists empty |
| CalculatorForm.FormData.ApplyInitialData | src/components/CalculatorForm.tsx:71-75 | new initial data, when given, replaces both lists; without it nothing changes |
| CalculatorForm.FormData.HandleCheckboxChange | src/components/CalculatorForm.tsx:86-92 | the named list becomes its toggled version, and the other list is unchanged |

## Left out

- HTTP routes, project storage, the spreadsheet export and the request-schema library are not part of this model. Only the schema's numeric ranges are kept, as `Types.ValidInput`.
- Presentation components and JSX are not part of this model. Neither is the calculator form's debounced validation and fetch, nor its fields other than the two option lists.
- The mock plots and the house-project fetch of the selection context are not part of this model.
- Floating point: prices are exact reals. IEEE-754 rounding artefacts (for example in `1900 × area × 0.6` or in `× promo`) are not modelled, and neither are NaN or infinities.
- The clock (`Date.now()`) is the `now` parameter.
- The 429 response object is the `Denied` record with the values of its four rate-limit headers. Its JSON body and the string formatting of the headers are left out.
- Concurrent requests sharing the process-wide store are not modelled; each call is atomic.
- Header lookup is case-insensitive in the original. The model keys headers by their lower-case names.
- An explicit `undefined` value inside a partial selection update is not modelled. A field is either not mentioned, or set to a value or to `null`.
- `Progress.ComputeProgress`: the stored calculation input is typed, so its enumerated fields are always non-empty strings. Untyped stored data with missing or empty enumerated fields is not modelled.
- `Types.CalculationInput.projectName` is carried but unused, as in the original.
- RateLimit.GetClientIp: its contract states only the shape of the address and the loopback fallback. The exact address is stated by `RateLimit.ForwardedDecides` for any non-empty `x-forwarded-for` header and by `RateLimit.RealIpFallback` otherwise.
