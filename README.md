# ServicePro ROI calculator — a Dafny model

The calculator estimates what a small service business loses today (scheduling
labour, missed calls, no-shows, under-conversion) and what an automation bundle
would win back. The user picks products from a catalog of three exclusive
packages (SOLO, CREW, FLEET) and four à-la-carte tools. Each product unlocks some
of five gain categories and has a one-time and a monthly price. Every change of
inputs, assumptions or selection recomputes an 18-figure report.

This project models the core of that program:

- `types.dfy` (module `Types`): the records of `types.ts`. These are the gain
  categories, products, categories with their `'single'`/`'multiple'` selection
  type, the inputs, the assumptions, the report and the slider configurations.
- `constants.dfy` (module `Constants`): the catalog, the default inputs and
  assumptions and the slider bounds of `constants.ts`, with the facts the rest
  of the program relies on.
- `product_selector.dfy` (module `ProductSelector`): the selection update rule
  `handleSelection` and `isSelected` of `components/ProductSelector.tsx`.
- `resolver.dfy` (module `Resolver`): the first part of the memoised computation
  in `App.tsx`. It filters the selected catalog products, collects their gains in
  a set and adds up their prices. These are loops in the source and methods with
  loop invariants here, proved against the specification function `Resolve`.
- `roi_engine.dfy` (module `RoiEngine`): the cost, gain and ROI formulas of
  `App.tsx`, one function per figure, assembled by `Calculate`.
- `app.dfy` (module `App`): the state updates of `App.tsx` and the whole
  memoised computation as the method `ComputeResults`. It also holds the
  regression figures for the defaults with CREW selected.

All money, counts and rates are Dafny `real`, so the arithmetic is exact.
Percentages are whole numbers divided by 100 where they are used. Dafny checks
that every division in the model has a non-zero divisor. The source guards each
division by a variable with a fallback of 0, so that check holds.

With the default inputs and CREW selected, the formula at App.tsx:86 gives a
calls-captured gain of 10 × 4 × 200 × 0.5 × (0.95 − 0.5) × 0.65 = 1170, and
`App.DefaultCrewGains` proves it.

## Model

| member | source | states |
|---|---|---|
| Constants.AllProducts | App.tsx:42 | a product is in the flattened list exactly when some category of the catalog holds it |
| Constants.CatalogProducts | constants.ts:25-47 | the catalog flattens to SOLO, CREW, FLEET, then the chatbot, booking, CRM and analytics tools |
| Constants.CatalogIdsUnique | constants.ts:25-47 | the product ids are solo, crew, fleet, chatbot, booking, crm, analytics, and no two are equal |
| Constants.OnlyPackagesAreSingle | constants.ts:25-47 | exactly one category is `'single'`, and it is the first (the packages) |
| Constants.PackagesUnlockEveryGain | constants.ts:31-33 | every package lists all five gain categories |
| Constants.ALaCarteIsRecurringOnly | constants.ts:41-44 | every à-la-carte tool has one-time price 0, and the analytics tool unlocks no gain |
| Constants.PricesNonNegative | constants.ts:25-47 | no catalog price, one-time or monthly, is negative |
| Constants.SlidersWellFormed | constants.ts:49-69 | every slider has min ≤ max and a positive step |
| Constants.DefaultsWithinBounds | constants.ts:3-23 | every default input and assumption lies within its slider's [min, max] |
| Constants.InputSlidersCoverEachFieldOnce | constants.ts:49-57 | each of the 7 input fields has exactly one slider |
| Constants.AssumptionSlidersCoverEachFieldOnce | constants.ts:59-69 | each of the 9 assumption fields has exactly one slider |
| ProductSelector.FindFirstSingle | components/ProductSelector.tsx:21 | the found category is `'single'` and none before it is; nothing is found only when no category is `'single'` |
| ProductSelector.RemoveIds | components/ProductSelector.tsx:22 | the filtered list holds exactly the elements of the list that are not dropped, and is no longer |
| ProductSelector.RemoveIdsCounts | components/ProductSelector.tsx:22 | the filtered list holds every copy of each kept id and no copy of a dropped one, so nothing is de-duplicated or invented |
| ProductSelector.RemoveIdsIsSubsequence | components/ProductSelector.tsx:22 | filtering keeps the remaining elements in their original order |
| ProductSelector.HandleSelection | components/ProductSelector.tsx:12-26 | a `'single'` pick yields exactly `[id]`; after a `'multiple'` pick no package id is left, and `id` is selected iff it was not selected before and is not a package id; every branch leaves at most one package id |
| ProductSelector.DeselectShape | components/ProductSelector.tsx:16-22 | picking a selected id in a `'multiple'` category removes every occurrence of it and every package id, and keeps the rest |
| ProductSelector.SelectShape | components/ProductSelector.tsx:18-22 | picking an unselected id in a `'multiple'` category keeps the other non-package ids and adds `id` unless it is a package id |
| ProductSelector.MultipleSelectionShape | components/ProductSelector.tsx:16-22 | a `'multiple'` pick keeps all other non-package ids in their original relative order, then `id` exactly when it is newly selected and not a package |
| ProductSelector.SelectAppends | components/ProductSelector.tsx:18-22 | picking an unselected non-package id appends it at the end, after the package-free rest of the selection |
| ProductSelector.ToggleTwiceRestores | components/ProductSelector.tsx:16-22 | from a package-free selection lacking a non-package id, picking that id twice gives back the selection |
| ProductSelector.NoSingleCategoryPlainToggle | components/ProductSelector.tsx:21-22 | without a `'single'` category the package ids are `[]`, and a `'multiple'` pick is a plain toggle |
| ProductSelector.CatalogPackageIds | components/ProductSelector.tsx:21 | in the shipped catalog the package ids are solo, crew, fleet |
| Resolver.SelectedProducts | App.tsx:43 | a product is selected exactly when it is in the catalog and its id is in the selection |
| Resolver.SelectedProductsCounts | App.tsx:43 | the filter holds each selected product exactly as often as the flattened catalog does and no other product, so no price is counted twice |
| Resolver.TotalMonthly | App.tsx:50-59 | the recurring total of products with non-negative monthly prices is non-negative |
| Resolver.TotalOneTime | App.tsx:50-59 | the one-time total of products with non-negative one-time prices is non-negative |
| Resolver.CollectActiveGains | App.tsx:45-48 | the loop builds exactly the union of the selected products' gain lists |
| Resolver.SumPrices | App.tsx:50-59 | the loop's totals are the sums of the monthly and of the one-time prices of the selected products, both starting at 0 |
| Resolver.ResolveSelection | App.tsx:42-59 | the resolver's gains and totals are those of the specification `Resolve` |
| Resolver.ActiveGainsAreUnion | App.tsx:42-48 | a gain is active exactly when some catalog product with a selected id lists it |
| Resolver.SelectionDependsOnlyOnKnownIds | App.tsx:43 | two selections that agree on every catalog id select the same products |
| Resolver.ResolveDependsOnlyOnKnownIds | App.tsx:42-59 | two selections that agree on every catalog id resolve to the same gains and totals |
| Resolver.UnknownIdIgnored | App.tsx:42-43 | adding an id no catalog product has changes nothing |
| Resolver.RepeatedIdIgnored | App.tsx:43 | selecting an id a second time changes nothing |
| Resolver.NoMatchSelectsNothing | App.tsx:43 | when no product's id is selected, no product is |
| Resolver.EmptySelection | App.tsx:45-59 | an empty selection unlocks no gain and costs 0 monthly and 0 one-time |
| Resolver.CatalogCostsNonNegative | App.tsx:50-59 | with the shipped catalog both totals are non-negative for any selection |
| Resolver.CrewSelection | App.tsx:42-43 | selecting `["crew"]` picks the CREW package alone |
| Resolver.CostsAsWritten | App.tsx:50-59 | as written, the monthly total stays 0 and the one-time total becomes NaN as soon as one product is selected |
| Resolver.CrewCostsAsWritten | App.tsx:53-59 | for `["crew"]` the code as written gives 0 and NaN where the prices total 59 monthly and 2499 one-time |
| RoiEngine.Max | App.tsx:80 | `Math.max`: the result is at least both arguments and is one of them |
| RoiEngine.Calculate | App.tsx:62-117 | a gain whose category is not active is 0; the total current cost is the sum of its four parts; the total gain is the sum of the five gains; the reported costs are the resolved ones |
| RoiEngine.RoiPercentageMeaning | App.tsx:94 | with a positive monthly cost, that cost grown by the ROI percentage equals the monthly gain; otherwise the ROI is 0 |
| RoiEngine.PaybackMeaning | App.tsx:95 | with positive one-time cost and gain, the payback is positive and that many days of gain (a month being 30 days) repay the one-time cost; otherwise it is 0 |
| RoiEngine.BreakEvenMeaning | App.tsx:96 | with a positive job value, break-even bookings at that value pay the monthly plus one-time cost; otherwise it is 0 |
| RoiEngine.NetProfitMeaning | App.tsx:93 | twelve months of net profit plus the one-time cost equal twelve months of gain less recurring cost |
| RoiEngine.OpportunityCostNonNegative | App.tsx:80 | with non-negative leads and job value the opportunity cost is never negative, whatever the rates |
| RoiEngine.NoShowGainNonNegative | App.tsx:87 | with non-negative bookings and job value the no-show gain is never negative, whatever the rates |
| RoiEngine.CallsCapturedSign | App.tsx:86 | when active with positive calls, job value and call-to-booking rate, the calls-captured gain is negative exactly when the capture rate is below the callback rate |
| RoiEngine.ConversionLiftClosedForm | App.tsx:88 | when active, the conversion-lift gain is leads × conversion × lift × job value × 0.65 |
| RoiEngine.SummaryFigures | App.tsx:93-96 | for any gain and costs, the four summary figures together satisfy the ROI, payback, break-even and net-profit meanings |
| RoiEngine.ReportSummaryMeaning | App.tsx:93-96 | on the report itself: monthly cost grown by the ROI equals the total gain (else ROI 0); payback days repay the one-time cost (else 0); break-even bookings pay both costs (else 0); twelve months of net profit plus the one-time cost equal twelve months of gain less recurring cost |
| RoiEngine.ReportFloors | App.tsx:80-87 | on the report itself, with a non-negative job value: the opportunity cost is non-negative for non-negative leads, and the no-show gain for non-negative bookings |
| App.SetInput | App.tsx:17-19 | the edited input field takes the new value and every other field keeps its value |
| App.SetAssumption | App.tsx:21-23 | the edited assumption takes the new value and every other assumption keeps its value |
| App.MergeProfile | App.tsx:30 | a field carried by the generated profile takes the profile's value; every other field keeps its value |
| App.InputsEqualByFields | App.tsx:30 | two input records that agree on every field are equal |
| App.MergeProfileLastWriteWins | App.tsx:30 | merging two profiles in turn is merging their union, the later one winning |
| App.SetInputIsOneFieldMerge | App.tsx:17-30 | a slider edit is the merge of a one-field profile, and merging an empty profile changes nothing |
| App.ComputeResults | App.tsx:38-118 | the memoised computation returns the report `Calculate` gives for the resolved selection |
| App.NothingSelectedGainsNothing | App.tsx:45-90 | with nothing selected every gain, the total gain and both costs are 0 |
| App.AnalyticsAloneGainsNothing | App.tsx:42-90 | with only the analytics tool selected every gain and the total gain are 0 |
| App.CrewResolution | App.tsx:42-59 | the initial selection `["crew"]` unlocks all five gains at 59 monthly and 2499 one-time |
| App.DefaultCurrentCosts | App.tsx:76-81 | with the default inputs and assumptions: revenue 10000, labour 800, lost bookings 2000, no-shows 1500, opportunity 4000, total 8300 |
| App.DefaultCrewGains | App.tsx:84-90 | defaults with CREW: gains 390, 1170, 650, 2112.5, 1300, total 5622.5 |
| App.DefaultCrewSummary | App.tsx:93-96 | defaults with CREW: net profit 5355.25, ROI 556350/59 %, payback 29988/2249 days, break-even 12.79 bookings |

## Findings

| source | as written | input that shows it | evidently intended | confidence | as-written member | corrected member |
|---|---|---|---|---|---|---|
| App.tsx:53-59 | the cost loop branches on `p.costType` and adds `p.price`; `Product` (types.ts:20-27) and the catalog have neither field, so every product takes the one-time branch and adds undefined | selection `["crew"]`: monthly total 0 and one-time total NaN, where CREW costs 59 a month and 2499 up front | monthly total = sum of `priceMonthly`, one-time total = sum of `priceOneTime` over the selected products | high; not executed | Resolver.CostsAsWritten | Resolver.SumPrices |

`Resolver.CrewCostsAsWritten` puts both halves side by side for `["crew"]`. The
rest of the model uses the corrected totals. A type checker rejects the two
field reads; a build that only strips types runs them as described.

## Left out

- Display texts (product, category and slider names, labels and descriptions) are not modelled. They take no part in any computation, and the model keeps ids, prices, gains, selection types and slider kinds and bounds.
- IEEE-754 behaviour (rounding, NaN and Infinity propagation) is not modelled; numbers are exact reals. The one place NaN matters, the cost loop as written, is modelled by `Resolver.CostsAsWritten`.
- The React machinery is not modelled: `useState`, `useMemo` memoisation, and the JSX of `App.tsx`, `InputPanel.tsx`, `ResultsPanel.tsx` and the render part of `ProductSelector.tsx`. The state updates are pure record functions.
- The asynchronous profile generation (`handleGenerateProfile`, App.tsx:25-36) is not modelled, and neither is services/geminiService.ts, a network call to an external text-generation service. Its result enters the model only as an arbitrary partial input record, the `profile` map of `App.MergeProfile`.
- Slider parsing and locale formatting (`parseFloat`, `toLocaleString`, `toFixed`) are UI concerns and are not modelled.
- `ProductSelector.IsSelected` (`isSelected`) is membership of the id in the selection; it has no contract beyond that.
