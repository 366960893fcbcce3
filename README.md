# HPC Resource Planner: catalog and cost/limit engine

This project models the core of a single-page planner for research computing
resources. The planner has a fixed catalog of ten computing centers: eight
metered HPCI centers (batch-scheduled, billed per node-hour, GPU-hour and
terabyte) and two flat-fee mdx centers (VM-based). Each center has CPU, GPU
and storage options, and each option has a capacity `limit` and a unit
`price`. A user keeps one request per center, mapping option ids to
quantities. From all of this the planner derives:

- a cost breakdown per center;
- the HPCI class total, and the mdx charge: the whole shared budget once any
  mdx center is active;
- over-limit flags per center, per option and per class;
- a capability search that highlights the centers whose single options can
  serve a minimum number of CPU and GPU hours.

Modules, following the program's files:

- `Types` (types.ts): the data model.
- `Catalog` (constants.ts): the seed catalog, the three budget constants and
  well-formedness facts about the seed.
- `CostEngine` (App.tsx, `rawCosts` to `costs`): the cost aggregation. The
  per-category accumulator loop is a method proved against a recursive
  specification function.
- `Search` (App.tsx, `highlightedCenterIds`): the capability search.
- `Handlers` (App.tsx event handlers): the copy-with-one-change updates, and
  what each one does to the costs.
- `AppSession`: the planner's state as a class `Session`. Its fields are
  `centers`, `requests` and `consultantCenter`. Each handler is a method that
  replaces one field with an updated value.
- `CenterCard` (components/CenterCard.tsx): the card's derived values.

Modelling choices:

- Quantities, limits and prices are exact `real`s.
- `x || 0` on a selection is `Quantity`, where an absent key is 0.
- A parsed text field is `NumericInput`: empty, not a number, or a number.
- The optional `isSelected` is an `Option<bool>`; only `Some(true)` counts
  as selected.
- The value built by spreading a raw cost keeps the center's type, so
  `CostBreakdown` has an `infra` field.

Where one might expect otherwise, the model follows the code:

- A search threshold of 0 is a number. So the search is on and the 0
  constrains nothing: "0"/"0" highlights every center, not none.
- Limit edits store the new value as given. Negative limits are not
  rejected.
- The mdx per-center flag is `mdxTotal > MDX_TOTAL_LIMIT`, which can never
  hold.

## Model

| member | source | states |
|---|---|---|
| Types.NumberOrZero | components/CenterCard.tsx:147-150 | a parsed number passes through; empty or unparsable input becomes 0 |
| Types.Quantity | types.ts:44-47 | the quantity of a present key is its value; an absent key is quantity 0 |
| Types.WithOptions | App.tsx:159-161 | replaces one category's option list; the other lists, the id, the type and the descriptive fields are kept |
| Types.WithSelections | App.tsx:132-133 | replaces one category's selections; the other maps, the center id and `isSelected` are kept |
| Types.IsSelected | App.tsx:105 | a request counts as selected only when `isSelected` is present and true |
| Catalog.Centers | constants.ts:6-169 | the ten seed centers with their options, limits and prices, in catalog order |
| Catalog.SeedCenterIdsUnique | constants.ts:6-169 | no two seed centers share an id |
| Catalog.SeedOptionIdsUnique | constants.ts:6-169 | no option id occurs twice in the seed, across centers and categories |
| Catalog.SeedCenterWellFormed | constants.ts:6-169 | each seed center's option ids carry an injective code, and all of its options have a positive limit and price |
| Catalog.SeedOptionsPositive | constants.ts:14-166 | every seed option has limit > 0 and price > 0 |
| Catalog.SeedLayout | constants.ts:8-168 | ten centers: the first eight HPCI, the last two mdx |
| Catalog.SeedEmptyCategories | constants.ts:33-130 | a seed category is empty exactly for the GPU lists of Tohoku, Kyoto and Kyushu and the CPU list of Science Tokyo |
| Catalog.SeedHasNoMdxSpecs | constants.ts:139-168 | no seed center carries hardware figures |
| Catalog.BudgetConstants | constants.ts:171-173 | the limits are 3,000,000, 3,600,000 and 1,000,000, and the single-center limit is below the HPCI class limit |
| CostEngine.LineCost | App.tsx:71 | one option's line: its quantity (absent key is 0) times its price |
| CostEngine.CategoryCost | App.tsx:69-82 | the sum of the line costs of a category's options, in list order |
| CostEngine.SumCategory | App.tsx:69-82 | the accumulator loop returns the sum of quantity x price over the category's options, in list order |
| CostEngine.CategoryCostDependsOnOwnKeys | App.tsx:69-82 | a category cost depends on its own options' quantities only |
| CostEngine.CategoryCostIgnoresForeignKey | App.tsx:69-82 | a selection under an id that no option of the category has leaves the cost unchanged |
| CostEngine.CategoryCostOfEmptySelections | App.tsx:69-82 | empty selections cost 0 |
| CostEngine.CategoryCostNonNegative | App.tsx:69-82 | with non-negative prices and quantities, the cost is non-negative |
| CostEngine.CategoryCostAfterSet | App.tsx:69-82 | setting the quantity of an option whose id is unique in its list replaces that option's line cost and nothing else |
| CostEngine.LineCostAfterSet | App.tsx:71 | that line cost moves by (new - old quantity) x price |
| CostEngine.FindCenter | App.tsx:66 | None iff no center has the id; otherwise the first center with it |
| CostEngine.FindCenterAt | App.tsx:66 | with unique ids, looking up the id at position i finds the center at i |
| CostEngine.RawCostOf | App.tsx:65-93 | total = cpu + gpu + storage; the request's center id is kept; a missing center gives all-zero costs typed HPCI; a found center gives its type and its three category costs |
| CostEngine.RawCosts | App.tsx:64-95 | one raw cost per request, in request order |
| CostEngine.ComputeRawCost | App.tsx:65-93 | the imperative computation of one request equals `RawCostOf` |
| CostEngine.ComputeRawCosts | App.tsx:64-95 | the loop over all requests equals `RawCosts` |
| CostEngine.HpciTotal | App.tsx:98-100 | the sum of `total` over the HPCI entries only |
| CostEngine.HpciTotalOnlyHpci | App.tsx:98-100 | the HPCI total reads only the HPCI entries and their totals |
| CostEngine.HpciTotalAppend | App.tsx:98-100 | the HPCI total of a concatenation is the sum of the two HPCI totals |
| CostEngine.HpciTotalOfZeros | App.tsx:98-100 | all-zero totals give an HPCI total of 0 |
| CostEngine.AnyMdxSelected | App.tsx:103-106 | some selected request finds a center and that center is mdx |
| CostEngine.MdxTotal | App.tsx:102-108 | the mdx total is MDX_TOTAL_LIMIT iff some request is selected and its center is mdx, else 0; it never exceeds the limit |
| CostEngine.IsOverLimit | App.tsx:115-120 | an HPCI entry is over iff its total exceeds 3,000,000; an mdx entry takes the mdx class flag |
| CostEngine.CostsOf | App.tsx:113-126 | each breakdown copies its raw cost; HPCI entries are over iff total > 3,000,000; mdx entries carry the mdx class flag |
| CostEngine.SummaryOf | App.tsx:97-126 | from given raw costs: the breakdowns, the HPCI total, the mdx total and both class flags |
| CostEngine.Summarize | App.tsx:64-126 | the derived view of a catalog and its requests: `SummaryOf` their raw costs |
| CostEngine.SummaryProperties | App.tsx:84-126 | one breakdown per request with its center id; total is the sum of the parts; HPCI flag at 3,000,000; mdx flags and the mdx class flag are never raised; class flag iff HPCI total > 3,600,000 |
| CostEngine.MissingCenterCostsNothing | App.tsx:67 | a request for an unknown center costs 0, is typed HPCI and is not flagged |
| CostEngine.SingleCenterExample | App.tsx:64-126 | price 10: 350 units cost 3,500 and are not over; 350,000 units cost 3,500,000 and are over |
| CostEngine.ClassLimitExample | App.tsx:98-126 | two one-option HPCI centers whose requests cost 2,000,000 each: `Summarize` flags neither center, but their 4,000,000 raises the class flag |
| Search.MeetsThreshold | App.tsx:46-55 | a positive number requires some option of the category whose limit reaches it; anything else requires nothing |
| Search.Matches | App.tsx:56 | a center matches when it meets both the CPU and the GPU threshold |
| Search.SearchOff | App.tsx:41 | the search is off when both fields are blank or neither parses as a number |
| Search.HighlightedCenterIds | App.tsx:37-60 | empty when both fields are blank or neither is a number; otherwise exactly the ids of centers meeting every positive threshold |
| Search.SearchOffIffNoNumber | App.tsx:41 | the search is off exactly when neither field holds a number |
| Search.NonPositiveThresholdIsNoConstraint | App.tsx:47-50 | a CPU threshold that is not a positive number imposes nothing |
| Search.NonPositiveGpuThresholdIsNoConstraint | App.tsx:52-55 | a GPU threshold that is not a positive number imposes nothing |
| Search.PositiveCpuThreshold | App.tsx:45-57 | with a positive CPU number and a GPU field that is blank, unparsable or not positive, a center is found iff one of its CPU options has limit >= the number |
| Search.PositiveGpuThreshold | App.tsx:45-57 | with a positive GPU number and a CPU field that is blank, unparsable or not positive, a center is found iff one of its GPU options has limit >= the number |
| Search.NoGpuNeverMatchesPositiveGpu | App.tsx:52-55 | a center without GPU options never meets a positive GPU threshold |
| Search.ZeroThresholdsMatchAll | App.tsx:41-57 | "0"/"0" highlights every center |
| Search.ConjunctionExample | App.tsx:57 | both positive thresholds must be met: a CPU-only center is found for (50, blank) but not for (50, 1) |
| Handlers.EmptyRequests | App.tsx:18-26 | one request per center, in catalog order, with the center's id, `isSelected` false and no selections |
| Handlers.SetRequestQuantity | App.tsx:131-133 | the target key is added or overwritten with the value; every other key, map, the center id and `isSelected` are unchanged |
| Handlers.SetQuantity | App.tsx:129-135 | requests for other centers are unchanged; requests for the center get the new quantity |
| Handlers.ToggleSelection | App.tsx:137-141 | only the target's `isSelected` changes, to the negation of its truth value (absent counts as false) |
| Handlers.SetOptionLimit | App.tsx:160 | only the limit of the options with the id changes, to the given value; ids, names and prices are kept |
| Handlers.EditCenter | App.tsx:157-162 | another center is untouched; the target gets one category's list with the limit edited |
| Handlers.SetCenterLimit | App.tsx:156-163 | every center is the edited copy of itself; ids and types are kept |
| Handlers.SetFirst | App.tsx:171-175 | writes the hours under the first option's id when there is a first option with a non-empty id, and leaves the map unchanged otherwise |
| Handlers.ApplyEstimate | App.tsx:165-183 | only the consultant center's requests change, and only in their CPU and GPU maps |
| Handlers.ApplyEstimateIsTwoUpdates | App.tsx:165-183 | when both first options exist, the estimate equals setting the node-hours on the first CPU option and then the GPU-hours on the first GPU option |
| Handlers.ResetClearsEverything | App.tsx:143-154 | after a reset every breakdown is 0 and unflagged, both class totals are 0 and neither class flag is raised |
| Handlers.SecondMdxSelectionIsFree | App.tsx:102-108 | while one mdx center is active, toggling another center leaves the mdx total at the flat charge |
| Handlers.BothMdxCostTheSameAsOne | App.tsx:102-108 | activating both seed mdx centers costs the same as activating one |
| Handlers.SetQuantityKeepsOtherCenters | App.tsx:129-135 | a quantity update leaves other centers' costs unchanged |
| Handlers.SetQuantityKeepsOtherCategories | App.tsx:129-135 | a quantity update leaves the type and the other two category costs unchanged |
| Handlers.SetQuantityCostDelta | App.tsx:129-135 | for an option id unique in its category, the category cost changes by exactly that option's line-cost change |
| Handlers.SetQuantityForeignIdIsFree | App.tsx:129-135 | a quantity under an id the category does not list leaves the whole breakdown unchanged |
| Handlers.LimitEditKeepsCosts | App.tsx:156-163 | a limit edit never changes any raw cost |
| Handlers.LimitEditKeepsCategoryCost | App.tsx:160 | a category cost does not read the limits |
| Handlers.FindCenterAfterLimitEdit | App.tsx:156-163 | after a limit edit, a lookup finds the edited copy of the center it found before |
| Handlers.LimitEditKeepsOptionIdsUnique | App.tsx:156-163 | a limit edit keeps every option id in place, so ids unique across the catalog stay unique |
| Handlers.UniqueAcrossIsUniqueAt | App.tsx:69-82 | with option ids unique across the catalog, each option is the only one with its id in its list, as `SetQuantityCostDelta` requires |
| AppSession.AlignedFindsOwnCenter | App.tsx:66 | when requests line up with centers and ids are unique, each request finds its own center |
| AppSession.Session.Valid | App.tsx:15-31 | one request per center in catalog order, unique center ids and option ids unique across the catalog |
| AppSession.Session.constructor | App.tsx:15-31 | seed catalog, empty inactive requests, no consultant; the alignment invariant holds |
| AppSession.Session.UpdateRequest | App.tsx:129-135 | the requests become `SetQuantity` of the old ones; the catalog and the consultant are unchanged; the invariant is kept |
| AppSession.Session.Toggle | App.tsx:137-141 | the requests become `ToggleSelection` of the old ones; nothing else changes |
| AppSession.Session.Reset | App.tsx:143-154 | once confirmed, the requests become empty requests for the current catalog; otherwise nothing changes |
| AppSession.Session.UpdateCenter | App.tsx:156-163 | the catalog becomes `SetCenterLimit` of the old one; the requests are unchanged; ids stay unique |
| AppSession.Session.OpenConsultant | App.tsx:296 | the consultant holds the given center value |
| AppSession.Session.CloseConsultant | App.tsx:329 | the consultant is cleared |
| AppSession.Session.ApplyAiEstimate | App.tsx:165-183 | without a consultant nothing changes; otherwise the requests become `ApplyEstimate` for the consultant's center |
| AppSession.Session.Recompute | App.tsx:64-126 | the derived view equals `Summarize` of the current state |
| CenterCard.OptionOverLimit | components/CenterCard.tsx:92 | a row is red iff the card is HPCI and the quantity exceeds the option's limit |
| CenterCard.PercentUsed | components/CenterCard.tsx:118 | within [0, 100] for non-negative quantities; 0 for mdx or a non-positive limit; 100 iff the quantity reaches the limit; otherwise quantity / limit x 100 |
| CenterCard.OverLimitShowsFullBar | components/CenterCard.tsx:118 | a red row with a positive limit shows a full bar |
| CenterCard.NonPositiveLimitShowsEmptyBar | components/CenterCard.tsx:92-118 | with a limit of 0 or below, any positive quantity is red while the bar shows 0% |
| CenterCard.Unit | components/CenterCard.tsx:511-543 | "Pack" for mdx CPU and GPU groups, "hr" for HPCI ones, "TB" for storage |
| CenterCard.IsCalcEnabled | components/CenterCard.tsx:345 | the calculator is offered when the card is HPCI and the unit is "hr" |
| CenterCard.CalcEnabledIff | components/CenterCard.tsx:345 | the calculator appears exactly on HPCI CPU and GPU rows |
| CenterCard.BatchTotal | components/CenterCard.tsx:120 | time x count, with any unparsable field giving 0 |
| CenterCard.DailyTotal | components/CenterCard.tsx:121 | time x count x days, with any unparsable field giving 0 |
| CenterCard.ApplyEnabled | components/CenterCard.tsx:255 | Apply is enabled iff the total is positive |
| CenterCard.ApplyNeedsEveryField | components/CenterCard.tsx:255 | Apply is enabled only when every calculator field holds a non-zero number; non-negative fields give a non-negative batch total |
| CenterCard.MinVms | components/CenterCard.tsx:36 | the least m with m x packsPerNode >= packs |
| CenterCard.ShowsStatsPanel | components/CenterCard.tsx:199 | the hardware panel shows on mdx CPU and GPU rows of a center with hardware figures once the quantity is positive |
| CenterCard.SeedShowsNoStatsPanel | components/CenterCard.tsx:199 | no seed card shows the mdx hardware panel |
| CenterCard.InputGroup | components/CenterCard.tsx:340-368 | an empty category renders nothing; otherwise one row per option in order, showing the selection or 0, red iff HPCI and over the limit |
| CenterCard.IsCostOverLimit | components/CenterCard.tsx:376 | the total is red iff the card is HPCI and its cost exceeds 3,000,000 |
| CenterCard.HasLimitError | components/CenterCard.tsx:380-383 | the card warns iff it is HPCI and some CPU, GPU or storage option has a quantity above its limit |
| CenterCard.LimitErrorIffSomeRowRed | components/CenterCard.tsx:380-383 | the card's limit warning is on iff one of its rendered rows is red |
| CenterCard.MdxCardNeverWarns | components/CenterCard.tsx:376-383 | an mdx card never shows a limit warning or a red total |
| CenterCard.CardCost | App.tsx:292 | the total of the first breakdown for the center, or 0 when there is none |
| CenterCard.CardAgreesWithBreakdown | components/CenterCard.tsx:376 | in an aligned state the card shows its own center's total, and its red total agrees with that breakdown's HPCI flag |

## Left out

- Rendering: JSX, styles, icons and highlight and border classes. The other
  components (settings form, info modal, charts, comparison table, consultant
  modal) hold no engine logic.
- The AI estimate service (a network call and JSON parsing). Only its result,
  the (nodeHours, gpuHours) pair, is an input of `ApplyAiEstimate`.
- The confirmation dialog of reset. It is the `confirmed` parameter of
  `Session.Reset`.
- React state mechanics: hooks, memoisation, recomputation on every
  keystroke, and the local calculator fields of a row.
- Floating-point behaviour. The model uses exact reals, so there is no
  rounding, no NaN, no Infinity and no `toFixed`/`toLocaleString`
  formatting.
- `parseFloat` itself. A field is given already parsed as `NumericInput`.
- The panel's display figures (`nodeEquivalent`, total cores, memory and
  GPUs) and the runtime calculator's `durationDays`. These are
  display-only divisions.
- MinVms: a packs-per-node of 0 (division by zero) or below (a negative
  count) is excluded by the precondition.
- Which requests a card is given (`requests.find(...)!`). Alignment makes it
  the request at the same position.
