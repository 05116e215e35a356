# Estimate figures and form edits, modelled in Dafny

This project models the core of an estimate web application. A freelancer describes a
project as steps, each with sub-steps carrying hours and a complexity. The application
derives figures from them:

- hour and cost ranges per step;
- totals for the public page and for the estimates list;
- a budget pie;
- a month-by-month cost projection;
- a greedy plan of which steps each month works on.

An assistant and the editor change the estimate held by the form. The assistant's tool
calls add and edit steps and sub-steps and set top-level fields. The step sheet adds and
deletes sub-steps, and the sub-step dialog edits one of them.

Modules, one per file:

- `Common` (common.dfy): `Option`, `Math.round` on exact reals, left folds and `filter`.
- `Arithmetic` (arithmetic.dfy): product and rounding facts used by the proofs.
- `StepSchema`, `ScheduleSchema`, `EstimateSchema`: the zod schemas as predicates, with their defaults.
- `Utils` (utils.dfy): the live helpers of `src/lib/utils.ts`.
  - step hours and complexity;
  - labels;
  - rebuilding the step tree from stored rows.
- `LegacyUtils` (legacy_utils.dfy): the older helpers of `src/utils.ts`.
- `Showcase`, `Card`, `StepListItem`, `Costs`: the figures of the public page, the estimate card, the editor's step row and the budget pie.
- `Timeline` (timeline.dfy), the timeline section:
  - `MonthlyCostData` computes the cost chart with running totals.
  - `FillMonth` is the inner `while` of the allocation, and `AllocateMonths` is its `for` loop. Both are imperative methods.
  - Each method is proved equal to a pure function: `FillFrom` and `Planned`. All allocation properties are proved about those functions.
- `Form` (form.dfy): the react-hook-form `form` as the class `EstimateForm`. Its field `values` is changed by `setValue` and `append`.
- `Chat` (chat.dfy): the assistant's `add_step`, `edit_step`, `add_sub_step`, `edit_sub_step` and `edit_estimate` tool handlers, as methods on the form.
- `StepSheetForm` (step_sheet_form.dfy): the class `StepSheet` with its handlers, and the `substep-<idx>` task ids.
- `SubStepDialog` (sub_step_dialog.dfy): the class `Dialog`, its initial fields, the hours input and `handleSave`.

Modelling choices:

- JavaScript numbers are exact `real`s.
- `Math.round(x)` is `Floor(x + 1/2)`.
- `a || b` and `a ?? b` are written out for the values that are falsy.
- `uuidv4()` results are parameters.
- One `Step` datatype serves for steps and sub-steps.
- A missing `subSteps` list behaves as an empty one everywhere, and is modelled as one.

Two behaviours a reader may not expect:

- The live `getStepHoursMin` (`src/lib/utils.ts:27-32`) gives a step without sub-steps 0 hours, not its own `hours`. `Utils.LeafHoursDiffer` exhibits the difference.
- The totals of the public page and of the card add up every step, additional ones included (`Showcase.AppendedStepCounts`).

## Model

| member | source | states |
|---|---|---|
| Common.Round | src/components/estimate/showcase.tsx:79-81 | `Math.round` gives the integer within half a unit of its argument, halves going up |
| Common.Filter | src/lib/utils.ts:75-77 | `filter` keeps exactly the elements satisfying the predicate, taken from the input |
| StepSchema.ValidStep | src/schemas/step.ts:33-42 | the step schema: order and hours at least 0, complexity one of the enum values, and every sub-step valid in turn; `StepSchema.DefaultStep` and `StepSheetForm.SheetKeepsValid` are stated in its terms |
| StepSchema.DefaultStep | src/schemas/step.ts:33-42 | the schema's defaults give a valid step: no hours, order 0, LOW complexity, rate not disabled, black colour, no sub-steps |
| ScheduleSchema.ValidSchedule | src/schemas/schedule.ts:12-25 | the schedule schema: duration at least 1, every month at least 1 and every percent in [0, 100]; properties in `ScheduleSchema.DefaultSchedule`, `ScheduleSchema.PercentTotalBounds` and `ScheduleSchema.ValidScheduleNeedNotBeBalanced` |
| ScheduleSchema.DefaultSchedule | src/schemas/schedule.ts:12-25 | a repartition of valid months with the default duration 1 is a valid schedule |
| ScheduleSchema.PercentTotalBounds | src/schemas/schedule.ts:18-23 | the percents of a valid schedule add up to between 0 and 100 per month |
| ScheduleSchema.ValidScheduleNeedNotBeBalanced | src/schemas/schedule.ts:12-25 | the schema accepts a schedule whose percents do not add up to 100 and whose repartition is shorter than its duration |
| EstimateSchema.ValidEstimate | src/schemas/estimate.ts:20-34 | the estimate schema: a non-empty name, rate at least 0, multiplier at least 1, and valid steps and schedules; properties in `EstimateSchema.DefaultEstimate` and `Utils.SupabaseEstimateToEstimateValid` |
| EstimateSchema.DefaultEstimate | src/schemas/estimate.ts:20-34 | a non-empty name with the schema's defaults is valid: rate 135, multiplier 1.2, black and white colours, empty lists |
| Utils.StepHoursMinOnTwoLevelSteps | src/lib/utils.ts:27-32 | on a step whose sub-steps are leaves, `getStepHoursMin` equals the recursive sum of leaf hours |
| Utils.StepHoursMin | src/lib/utils.ts:27-32 | `getStepHoursMin`: the hours of the direct sub-steps added up, 0 for a step without sub-steps; properties in `Utils.StepHoursMinIsShallow`, `Utils.LeafHoursDiffer`, `Utils.StepHoursMinOnTwoLevelSteps` and `Utils.StepHoursMinNonNegative` |
| Utils.StepHoursMinIsShallow | src/lib/utils.ts:27-32 | the step's own hours and hours nested below its direct sub-steps do not change `getStepHoursMin` |
| Utils.LeafHoursDiffer | src/lib/utils.ts:27-32 | a step without sub-steps counts 0 hours whatever its own hours, unlike the recursive reading |
| Utils.StepHoursMinNonNegative | src/lib/utils.ts:27-32 | a valid step has non-negative hours |
| Utils.StepComplexity | src/lib/utils.ts:34-40 | `getStepComplexity`: the exact mean of the direct sub-steps' complexities, LOW for a step without sub-steps; properties in `Utils.StepComplexityBounds` and `Utils.StepComplexityUnrounded` |
| Utils.StepComplexityBounds | src/lib/utils.ts:34-40 | with sub-step complexities from {1, 3, 5} the mean complexity lies in [LOW, HIGH] |
| Utils.StepComplexityUnrounded | src/lib/utils.ts:34-40 | the mean is not rounded to an enum value: LOW, LOW, MEDIUM give 5/3 |
| Utils.TruncateLabel | src/lib/utils.ts:42-46 | labels up to the limit are kept; longer ones become their first `maxLength` characters plus "..." |
| Utils.TruncateLabelDefault | src/lib/utils.ts:42 | called without a limit, a label of at most 15 characters is kept, and a longer one becomes its first 15 characters followed by three more |
| Utils.TruncateLabelIdempotent | src/lib/utils.ts:42-46 | truncating a truncated label changes nothing |
| Utils.GetComplexityInfo | src/lib/utils.ts:48-52 | a level of at most 2 is "Faible", one above 2 and at most 4 is "Moyenne", one above 4 is "Élevée", each with its colour (green, amber, red) |
| Utils.GetComplexityInfoMonotone | src/lib/utils.ts:48-52 | a higher level never gets a lower label |
| Utils.ConvertComplexityToLabel | src/lib/utils.ts:54-65 | LOW, MEDIUM and HIGH are exactly the values named "Faible", "Moyenne" and "Élevée", which are the labels `getComplexityInfo` gives them; every other value is "Inconnue" |
| Utils.NonEmptyOrNone | src/lib/utils.ts:107 | the or-fallback to `undefined` keeps a non-empty string and drops an empty or missing one |
| Utils.MultiplierOrOne | src/lib/utils.ts:108 | the or-fallback to 1 keeps a non-zero multiplier and replaces a missing or zero one by 1 |
| Utils.TreeShape | src/lib/utils.ts:67-127 | one top-level step per parentless row, in row order, with its id, name and flags; under it one sub-step per child row, in row order, with `order` its position and hours defaulting to 0 |
| Utils.RowsAreKept | src/lib/utils.ts:75-93 | every parentless row becomes a step, and every row whose parent is a top-level row becomes a sub-step of it |
| Utils.SupabaseEstimateToEstimate | src/lib/utils.ts:67-127 | `supabaseEstimateToEstimate`: the stored rows rebuilt into an estimate, parentless rows as steps and their children as sub-steps; properties in `Utils.TreeShape`, `Utils.RowsAreKept` and `Utils.SupabaseEstimateToEstimateValid` |
| Utils.SupabaseEstimateToEstimateValid | src/lib/utils.ts:67-127 | rows satisfying the stored constraints give an estimate the schema accepts |
| LegacyUtils.ComplexityScore | src/config.ts:29-33 | `COMPLEXITY_SCORE`: Faible 1, Moyenne 3, Élevée 7; the scores `LegacyUtils.StepComplexityBounds` bounds the mean of |
| LegacyUtils.StepHoursMin | src/utils.ts:18-23 | the legacy `getStepHoursMin`: the sub-steps' hours added up, else the step's own hours or 0; property in `LegacyUtils.StepHoursMinNonNegative` |
| LegacyUtils.StepComplexity | src/utils.ts:25-34 | the legacy `getStepComplexity`: the mean score of the sub-steps, else the step's own complexity or 0; property in `LegacyUtils.StepComplexityBounds` |
| LegacyUtils.StepComplexityBounds | src/utils.ts:25-34 | with sub-steps the legacy mean score lies in [1, 7] |
| LegacyUtils.StepHoursMinNonNegative | src/utils.ts:18-23 | non-negative sub-step hours, or own hours, give non-negative step hours |
| Showcase.ComputeStep | src/components/estimate/showcase.tsx:77-92 | a step's figures: minimum hours from `getStepHoursMin` priced at the rate; the maximum is the minimum when the step disables the multiplier, otherwise the rounded scaled hours (stated by `Showcase.HoursMaxRounded`) priced at the rate |
| Showcase.ComputedSteps | src/components/estimate/showcase.tsx:75-92 | one computed entry per step, in order |
| Showcase.ComputedOptions | src/components/estimate/showcase.tsx:94-110 | the k-th option is the k-th additional step priced by `ComputeOption`, with the multiplier always applied; the options come from the estimate |
| Showcase.ComputeOption | src/components/estimate/showcase.tsx:94-110 | one option's figures: minimum hours priced at the rate, and the rounded scaled hours priced at the rate, whatever `disableRate` says; properties in `Showcase.OptionIgnoresDisableRate` and `Showcase.ComputedOptions` |
| Showcase.OptionIgnoresDisableRate | src/components/estimate/showcase.tsx:94-110 | an option is priced as the step with `disableRate` off |
| Showcase.RangeOrdered | src/components/estimate/showcase.tsx:77-92 | with whole sub-step hours, a non-negative rate and a multiplier of at least 1, minimum hours and cost never exceed the maximum |
| Showcase.FractionalHoursBreakRange | src/components/estimate/showcase.tsx:79-81 | with fractional hours the rounding can put the maximum below the minimum (0.4 hours give [0.4, 0]) |
| Showcase.CostMinMonotone | src/components/estimate/showcase.tsx:82 | a higher rate never lowers the minimum cost |
| Showcase.HoursMaxMonotone | src/components/estimate/showcase.tsx:79-81 | a higher multiplier never lowers the maximum hours |
| Showcase.CostMaxMonotone | src/components/estimate/showcase.tsx:83 | a higher rate never lowers the maximum cost |
| Showcase.AllDisabledTotalsPinned | src/components/estimate/showcase.tsx:112-115 | when every step disables the multiplier, the minimum and maximum totals coincide |
| Showcase.ShowcaseTotals | src/components/estimate/showcase.tsx:112-115 | the four totals: minimum and maximum cost and hours added up over every computed step; properties in `Showcase.AppendedStepCounts`, `Showcase.NoStepsZeroTotals`, `Showcase.AllDisabledTotalsPinned` and `Showcase.TwoStepExample` |
| Showcase.AppendedStepCounts | src/components/estimate/showcase.tsx:112-115 | every step, additional or not, adds exactly its figures to the four totals |
| Showcase.NoStepsZeroTotals | src/components/estimate/showcase.tsx:112-115 | no steps give zero totals |
| Showcase.OptionsKeepOrder | src/components/estimate/showcase.tsx:94-110 | the options of concatenated step lists are the options of each, in order |
| Showcase.TwoStepExample | src/components/estimate/showcase.tsx:77-115 | 10 and 20 hours at 100 per hour with multiplier 1.2 give a cost range of 3000 to 3600 |
| Card.CardFigures | src/components/estimate/card.tsx:17-38 | the card's per-step figures follow the same rule as the public page |
| Card.FiguresAgree | src/components/estimate/card.tsx:17-38 | one step's figures on the card equal the public page's |
| Card.CardTotals | src/components/estimate/card.tsx:40-55 | the card's four totals, added up over the card's per-step figures; equal to the public page's by `Card.CardMatchesShowcase`, pinned by `Card.AllDisabledCardPinned` |
| Card.CardMatchesShowcase | src/components/estimate/card.tsx:17-55 | the card shows the same four totals as the public page |
| Card.AllDisabledCardPinned | src/components/estimate/card.tsx:40-55 | when every step disables the multiplier, the card's ranges collapse |
| StepListItem.StepHours | src/components/estimate/form/step-list-item.tsx:18-20 | the row's hours are `getStepHoursMin` of the step |
| StepListItem.StepCost | src/components/estimate/form/step-list-item.tsx:22-28 | the low cost is the hours priced at the rate, and it is also the high cost when the multiplier is disabled |
| StepListItem.DisplayedHours | src/components/estimate/form/step-list-item.tsx:56-63 | the row shows the hours, with an upper end exactly when the multiplier is not disabled |
| StepListItem.CostBoundsOrdered | src/components/estimate/form/step-list-item.tsx:22-28 | with a non-negative rate and a multiplier of at least 1 the row's cost range is ordered |
| StepListItem.EditorHigh | src/components/estimate/form/step-list-item.tsx:26-27 | the row's high cost is the hours scaled by the multiplier, unrounded, then priced |
| StepListItem.PageHigh | src/components/estimate/showcase.tsx:79-83 | the public page's high cost is the rounded scaled hours, priced |
| StepListItem.DisplayedHigh | src/components/estimate/form/step-list-item.tsx:61 | the row's upper hours are the hours times the multiplier, unrounded |
| StepListItem.UpperHoursWithinHalfHour | src/components/estimate/form/step-list-item.tsx:61 | the row's upper hours and the public page's maximum hours differ by at most half an hour |
| Showcase.HoursMaxRounded | src/components/estimate/showcase.tsx:79-81 | unless the step disables it, `hoursMax` is `Math.round(hoursMin * multiplier)` |
| StepListItem.AgreesWithShowcaseWhenWhole | src/components/estimate/form/step-list-item.tsx:22-28 | when the scaled hours are whole, the row and the public page show the same maximum hours and cost |
| Costs.PieValue | src/components/estimate/sections/costs.tsx:32 | a slice's value: the midpoint of the step's cost range, rounded; bounded by `Costs.PieValueWithinRange` |
| Costs.PieTotal | src/components/estimate/sections/costs.tsx:35 | `pieTotal`: the slice values added up; the tooltip shares over it are bounded by `Costs.SliceShareInRange` |
| Costs.PieData | src/components/estimate/sections/costs.tsx:30-34 | one slice per step, in order, with its name, colour and rounded midpoint cost |
| Costs.TooltipPercent | src/components/estimate/sections/costs.tsx:69-71 | a total that is not positive gives 0 %, so there is no division by zero; for a positive total the percentage is the nearest integer to value / total × 100 |
| Costs.TooltipPercentRange | src/components/estimate/sections/costs.tsx:69-71 | a value between 0 and the total gets a percentage between 0 and 100 |
| Costs.PieValueWithinRange | src/components/estimate/sections/costs.tsx:32 | a slice's value lies between its rounded minimum and maximum cost |
| Costs.SliceShareInRange | src/components/estimate/sections/costs.tsx:30-35 | with non-negative costs every slice's tooltip shows between 0 and 100 % |
| Timeline.RunningTotals | src/components/estimate/sections/timeline.tsx:51-67 | the running totals start at the first month's amounts, each adds the month's amounts to the previous one, and the last is the sum over the schedule |
| Timeline.MonthAmount | src/components/estimate/sections/timeline.tsx:55-58 | a month's amount: the total times the month's percent over 100, rounded; properties in `Timeline.MonthAmountNonNegative`, `Timeline.MonthAmountMonotone` and `Timeline.ZeroCapacity` |
| Timeline.CostAt | src/components/estimate/sections/timeline.tsx:51-67 | bar `i`: the month, its two rounded amounts and the running totals up to it; `Timeline.MonthlyCostData` is proved equal to it and `Timeline.RunningTotals` states the running sums |
| Timeline.MonthlyCostData | src/components/estimate/sections/timeline.tsx:51-67 | one bar per repartition entry, in order; each bar holds the month's rounded amounts and the running totals up to it |
| Timeline.MonthAmountNonNegative | src/components/estimate/sections/timeline.tsx:55-56 | a non-negative total and percent give a non-negative amount |
| Timeline.MonthAmountMonotone | src/components/estimate/sections/timeline.tsx:55-56 | a larger total never gives a month a smaller amount |
| Timeline.RunningAmountNondecreasing | src/components/estimate/sections/timeline.tsx:57-58 | with non-negative percents the running total never decreases |
| Timeline.RunningMinAtMostMax | src/components/estimate/sections/timeline.tsx:55-64 | with a minimum total at most the maximum, the running minimum stays at or below the running maximum |
| Timeline.Capacity | src/components/estimate/sections/timeline.tsx:81-86 | a month's hour budget is the rounded share when that is positive and 0 otherwise |
| Timeline.ZeroCapacity | src/components/estimate/sections/timeline.tsx:81-86 | no hours to plan, or a 0 % month, give a budget of 0 |
| Timeline.IdsOfNoDuplicates | src/components/estimate/sections/timeline.tsx:93-95 | the `includes` check keeps a month's ids free of duplicates |
| Timeline.IdsOfPush | src/components/estimate/sections/timeline.tsx:93-95 | one more visited step pushes its id unless it is already listed |
| Timeline.IdsOfMembers | src/components/estimate/sections/timeline.tsx:93-95 | a month lists exactly the ids of the steps it visited |
| Timeline.LeftoverBound | src/components/estimate/sections/timeline.tsx:96-98 | hours taken from a well-formed queue never exceed the positive hours, and fall short while a positive step has hours left |
| Timeline.FillFrom | src/components/estimate/sections/timeline.tsx:87-102 | the inner `while` turn by turn: take the smaller of the capacity left and the step's remaining hours, list the step's id, push the step's id unless the month lists it already, and move on when the step is used up; properties in `Timeline.FillKeepsQueue`, `Timeline.FillMovesForward`, `Timeline.FillUsesCapacity`, `Timeline.FillUsesAllUnlessDone`, `Timeline.FillTakesInOrder`, `Timeline.FillKeepsTaken`, `Timeline.FillListsTakenIds` and `Timeline.FillLowersTaken` |
| Timeline.FillMonth | src/components/estimate/sections/timeline.tsx:87-102 | the inner `while` computes the ids, queue and pointer of `FillFrom` |
| Timeline.TurnKeepsQueue | src/components/estimate/sections/timeline.tsx:96-101 | one consuming turn keeps the queue well formed |
| Timeline.FillKeepsQueue | src/components/estimate/sections/timeline.tsx:87-102 | one month keeps the queue well formed: no step gives more than its hours, the steps before the pointer are used up, those after it untouched |
| Timeline.FillMovesForward | src/components/estimate/sections/timeline.tsx:87-102 | one month only moves the pointer forward and only appends to what it took |
| Timeline.FillUsesCapacity | src/components/estimate/sections/timeline.tsx:96-98 | one month moves between 0 hours and its capacity out of the queue |
| Timeline.FillUsesAllUnlessDone | src/components/estimate/sections/timeline.tsx:87 | a month that uses less than its capacity has run through the whole queue |
| Timeline.FillTakesInOrder | src/components/estimate/sections/timeline.tsx:88-101 | each step a month takes hours from lies between the pointer it starts and ends at, and had hours left |
| Timeline.FillKeepsTaken | src/components/estimate/sections/timeline.tsx:87-102 | a month only appends to the steps it has listed so far |
| Timeline.FillListsTakenIds | src/components/estimate/sections/timeline.tsx:93-95 | the ids a month pushes are the ids of the steps it took hours from |
| Timeline.FillLowersTaken | src/components/estimate/sections/timeline.tsx:93-98 | a month only lowers a step's remaining hours, and lists the step iff it lowered them |
| Timeline.Capacities | src/components/estimate/sections/timeline.tsx:80-86 | one budget per month, in schedule order |
| Timeline.Planned | src/components/estimate/sections/timeline.tsx:69-103 | the allocation: each month filled from the queue the months before left; properties in `Timeline.QueueStaysValid`, `Timeline.StepsInOrder`, `Timeline.MonthWithinCapacity`, `Timeline.EnoughCapacityPlansEverything` and `Timeline.EveryStepListed` |
| Timeline.AllocateMonths | src/components/estimate/sections/timeline.tsx:69-103 | the `for` loop over the months computes the allocation `Planned` describes, each month filled from the queue the earlier months left |
| Timeline.NextQueue | src/components/estimate/sections/timeline.tsx:80-103 | the queue after a month is the one that month leaves |
| Timeline.QueueStaysValid | src/components/estimate/sections/timeline.tsx:70-103 | the queue stays well formed across all months |
| Timeline.PointerNeverMovesBack | src/components/estimate/sections/timeline.tsx:79-103 | `stepIdx` never decreases from one month to a later one |
| Timeline.MonthTakesFromItsRange | src/components/estimate/sections/timeline.tsx:87-101 | a month takes hours only from steps with positive hours, between its start and end pointers |
| Timeline.StepsInOrder | src/components/estimate/sections/timeline.tsx:79-103 | steps are worked on in declared order: an earlier month never takes from a later step than a later month does |
| Timeline.MonthListsTakenIds | src/components/estimate/sections/timeline.tsx:93-95 | a month lists the ids of the steps it took hours from, each once |
| Timeline.MonthWithinCapacity | src/components/estimate/sections/timeline.tsx:81-102 | a month takes between 0 hours and its budget, and all of the budget while steps remain |
| Timeline.NoCapacityNoSteps | src/components/estimate/sections/timeline.tsx:87 | a month with no budget lists nothing |
| Timeline.NoHoursNoSteps | src/components/estimate/sections/timeline.tsx:81-87 | with no hours to plan, or in a 0 % month, the month lists no step |
| Timeline.HoursTakenSoFar | src/components/estimate/sections/timeline.tsx:80-103 | the first months take at most their total budget, and exactly that while steps remain |
| Timeline.EnoughCapacityPlansEverything | src/components/estimate/sections/timeline.tsx:80-103 | when the budgets cover every positive hour, every positive step is fully planned |
| Timeline.NothingLeft | src/components/estimate/sections/timeline.tsx:87-102 | a well-formed queue that gave a budget covering every positive hour has nothing left on positive steps |
| Timeline.ListedBefore | src/components/estimate/sections/timeline.tsx:93-95 | true iff one of the first months took hours from the step |
| Timeline.GaveHoursIffListed | src/components/estimate/sections/timeline.tsx:93-98 | a step has given hours iff some month took hours from it |
| Timeline.EveryStepListed | src/components/estimate/sections/timeline.tsx:80-103 | when the budgets cover every positive hour, each positive step's id is listed by some month |
| Timeline.StepById | src/components/estimate/sections/timeline.tsx:104 | the map finds a step exactly when one has the id, and never a step without an id; which one it finds is stated by `Timeline.StepByIdIsLast` |
| Timeline.StepByIdIsLast | src/components/estimate/sections/timeline.tsx:104 | the step found is the last one with the id, as a `Map` built from pairs keeps the last value for each key |
| Timeline.ResolveIds | src/components/estimate/sections/timeline.tsx:107-110 | a month resolves iff each of its ids has a step, and then shows each id with that step's name and colour |
| Timeline.Resolve | src/components/estimate/sections/timeline.tsx:105-111 | the months resolve iff each month does, one entry per month |
| Timeline.MonthStepsOf | src/components/estimate/sections/timeline.tsx:69-112 | `monthSteps` is the planned allocation with its ids resolved |
| Timeline.EveryIdResolves | src/components/estimate/sections/timeline.tsx:104-111 | when every step has an id, every listed id resolves |
| Timeline.MonthIdsResolve | src/components/estimate/sections/timeline.tsx:104-110 | when every step has an id, each month's ids resolve |
| Timeline.MissingIdFailsResolution | src/components/estimate/sections/timeline.tsx:93-94 | a month listing a step without an id (`""`) makes the memo fail, unless some step's id is `""` |
| Form.Set | src/components/estimate/form/chat/chat.tsx:90-93 | `setValue` makes the key read back the new value; other keys and the id keep theirs |
| Form.SameKeysSameEstimate | src/components/estimate/form/chat/chat.tsx:89-94 | two estimates agreeing on every key and the id are equal |
| Form.WithStep | src/components/estimate/form/chat/chat.tsx:166-170 | replacing step `i` changes that step only |
| Form.WithSubSteps | src/components/estimate/form/chat/chat.tsx:203 | replacing the sub-steps of step `i` changes those sub-steps only |
| Form.EstimateForm.constructor | src/context/estimate-form-context.tsx:71-72 | the form starts from the given values |
| Form.EstimateForm.SetValue | src/components/estimate/form/chat/chat.tsx:90-93 | `setValue` on a top-level key |
| Form.EstimateForm.SetStep | src/components/estimate/form/chat/chat.tsx:166-170 | `setValue` on one step |
| Form.EstimateForm.SetSubSteps | src/components/estimate/form/chat/chat.tsx:203 | `setValue` on the sub-steps of one step |
| Form.EstimateForm.AppendStep | src/components/estimate/form/chat/chat.tsx:57 | `append` adds the step at the end of the list |
| Chat.Overlay | src/components/estimate/form/chat/chat.tsx:163 | spreading a request over a step: each of the nine keys takes the request's value when the request holds it and keeps the step's otherwise; the id and sub-steps are kept |
| Chat.OverlayNothing | src/components/estimate/form/chat/chat.tsx:163 | a request that holds no key leaves the step as it is |
| Chat.OverlayIdempotent | src/components/estimate/form/chat/chat.tsx:163 | spreading the same request twice is spreading it once |
| Chat.FindStep | src/components/estimate/form/chat/chat.tsx:151-159 | `find` and `findIndex` by id give the first step with the id, or none when no step has it |
| Chat.FindStepAgrees | src/components/estimate/form/chat/chat.tsx:151-159 | lists that agree up to the first match find it at the same place |
| Chat.FirstEdit | src/components/estimate/form/chat/chat.tsx:162 | the entry found is the first that carries the sub-step's id; none is found when no entry does |
| Chat.MergeSubSteps | src/components/estimate/form/chat/chat.tsx:161-164 | same count, order, ids and children; each sub-step is merged with its entry or left alone |
| Chat.UnknownSubStepEditsIgnored | src/components/estimate/form/chat/chat.tsx:161-164 | entries matching no sub-step change nothing |
| Chat.EditedStep | src/components/estimate/form/chat/chat.tsx:166-170 | the edited step is the request spread over the step, except that it gets the merged sub-steps; it keeps its id |
| Chat.EditStepOnlyTarget | src/components/estimate/form/chat/chat.tsx:148-170 | only the first step with the request's id changes, to the edited step; an unknown id changes nothing |
| Chat.EditStepIdempotent | src/components/estimate/form/chat/chat.tsx:148-170 | sending the same `edit_step` twice gives the list one request gives |
| Chat.EditedSteps | src/components/estimate/form/chat/chat.tsx:148-170 | the steps after `edit_step`: the first step with the id replaced by the edited step; properties in `Chat.EditStepOnlyTarget` and `Chat.EditStepIdempotent` |
| Chat.EditStep | src/components/estimate/form/chat/chat.tsx:148-170 | the form's steps become the edited list, and nothing else changes |
| Chat.WithFreshIds | src/components/estimate/form/chat/chat.tsx:132-139 | the new step and each sub-step get the fresh ids and keep every other field |
| Chat.AddStep | src/components/estimate/form/chat/chat.tsx:127-139 | `add_step` appends the step with fresh ids to the form's steps |
| Chat.AddStepAppends | src/components/estimate/form/chat/chat.tsx:127-139 | the list grows by one at the end, keeps every step, and the new step carries the fresh ids and the request's fields |
| Chat.AddSubStepOnlyParent | src/components/estimate/form/chat/chat.tsx:179-203 | only the parent changes: its sub-steps keep their prefix and gain the request's sub-step with the fresh id; an unknown parent changes nothing |
| Chat.WithNewSubStep | src/components/estimate/form/chat/chat.tsx:179-210 | the steps after `add_sub_step`: the parent gains the sub-step with its fresh id; property in `Chat.AddSubStepOnlyParent` |
| Chat.AddSubStep | src/components/estimate/form/chat/chat.tsx:179-210 | the form takes the new list; there is an output iff the parent exists, and it is the parent's new sub-steps |
| Chat.EditMatching | src/components/estimate/form/chat/chat.tsx:229-235 | every sub-step with the request's id gets its fields; the others and all ids stay |
| Chat.EditSubStepOnlyMatching | src/components/estimate/form/chat/chat.tsx:212-237 | only the parent's matching sub-steps change, keeping count, order and ids; an unknown parent changes nothing |
| Chat.LastMatch | src/components/estimate/form/chat/chat.tsx:228-235 | the last sub-step with the id, or none when none has it |
| Chat.LastEdited | src/components/estimate/form/chat/chat.tsx:228-235 | `updatedSubStep` is undefined iff no sub-step matched, and otherwise the last merged sub-step |
| Chat.WithEditedSubSteps | src/components/estimate/form/chat/chat.tsx:212-243 | the steps after `edit_sub_step`: the parent's matching sub-steps overlaid with the request; property in `Chat.EditSubStepOnlyMatching` |
| Chat.EditSubStep | src/components/estimate/form/chat/chat.tsx:212-243 | the form takes the edited list; the handler goes on iff the parent exists, and its output is the last merged sub-step |
| Chat.SetAll | src/components/estimate/form/chat/chat.tsx:83-94 | `setValue` applied key by key, from the first key to the last; properties in `Chat.EditEstimateKeepsOtherKeys`, `Chat.EditEstimateSetsKeys`, `Chat.EditEstimateWithCurrentValues` and `Chat.SetAllKeepsId` |
| Chat.EditEstimate | src/components/estimate/form/chat/chat.tsx:83-94 | the loop over the request's keys leaves the values of `setValue` applied key by key |
| Chat.EditEstimateKeepsOtherKeys | src/components/estimate/form/chat/chat.tsx:89-94 | keys the request does not hold keep their values |
| Chat.EditEstimateSetsKeys | src/components/estimate/form/chat/chat.tsx:89-94 | each key the request holds ends with the request's value, the last one when a key comes twice |
| Chat.EditEstimateWithCurrentValues | src/components/estimate/form/chat/chat.tsx:89-94 | a request holding every key with its current value changes nothing |
| Chat.SetAllKeepsId | src/components/estimate/form/chat/chat.tsx:89-94 | `edit_estimate` never changes the estimate's id |
| StepSheetForm.NatToString | src/components/estimate/form/step-sheet-form.tsx:268 | a number is written with at least one digit, and with exactly one iff it is below 10 |
| StepSheetForm.NatToStringInjective | src/components/estimate/form/step-sheet-form.tsx:268 | different numbers are written differently |
| StepSheetForm.TaskIdInjective | src/components/estimate/form/step-sheet-form.tsx:266-269 | different positions get different task ids |
| StepSheetForm.TaskIndexFrom | src/components/estimate/form/step-sheet-form.tsx:271-273 | `findIndex` gives the first position whose task id is the one given, or -1 when none has it |
| StepSheetForm.TaskIdRoundTrip | src/components/estimate/form/step-sheet-form.tsx:266-279 | the id of position `i` is found back at `i` |
| StepSheetForm.UnknownTaskId | src/components/estimate/form/step-sheet-form.tsx:271-279 | an id that is no position's task id gives -1 |
| StepSheetForm.NewSubStep | src/components/estimate/form/step-sheet-form.tsx:62-73 | the new sub-step is valid and is named "Sub-step n+1"; it has no id, no children, no hours, MEDIUM complexity, `order` the old count, both flags off, colour #000000, and empty description and notes |
| StepSheetForm.RemoveAt | src/components/estimate/form/step-sheet-form.tsx:82 | `filter` on the index removes exactly the entry at a valid index and keeps the list otherwise |
| StepSheetForm.RemoveAtShifts | src/components/estimate/form/step-sheet-form.tsx:82 | after a delete the list is one shorter and later entries move down by one |
| StepSheetForm.DeleteByTaskId | src/components/estimate/form/step-sheet-form.tsx:276-281 | deleting the task with position `i`'s id removes the sub-step at `i` |
| StepSheetForm.SheetKeepsValid | src/components/estimate/form/step-sheet-form.tsx:60-84 | adding and deleting keep every sub-step valid |
| StepSheetForm.StepSheet.constructor | src/components/estimate/form/step-sheet-form.tsx:55-56 | the dialog starts closed, at index 0 |
| StepSheetForm.StepSheet.HandleAddSubStep | src/components/estimate/form/step-sheet-form.tsx:60-78 | the new sub-step is appended at position `n`, the old count, and the dialog opens on it |
| StepSheetForm.StepSheet.HandleSubStepDelete | src/components/estimate/form/step-sheet-form.tsx:80-84 | the sub-steps lose the entry at the index, if there is one |
| StepSheetForm.StepSheet.HandleEditSubStep | src/components/estimate/form/step-sheet-form.tsx:86-89 | the dialog opens on the index |
| StepSheetForm.StepSheet.OnDeleteTask | src/components/estimate/form/step-sheet-form.tsx:276-281 | the task id is turned back into its position, which is deleted |
| StepSheetForm.StepSheet.OnEditTask | src/components/estimate/form/step-sheet-form.tsx:270-275 | the dialog opens on the task's position, or on -1 for an unknown id |
| SubStepDialog.OrString | src/components/estimate/form/sub-step-dialog.tsx:44-47 | the or-fallback keeps a non-empty string and takes the fallback for an empty or missing one |
| SubStepDialog.OrReal | src/components/estimate/form/sub-step-dialog.tsx:48-51 | the or-fallback keeps a non-zero number and takes the fallback for 0 or a missing one |
| SubStepDialog.InitialFields | src/components/estimate/form/sub-step-dialog.tsx:41-51 | without a sub-step the fields start empty with MEDIUM complexity; with one they start from its name, description, hours and non-zero complexity |
| SubStepDialog.InitialMatchesSynced | src/components/estimate/form/sub-step-dialog.tsx:44-60 | the effect copies in what the dialog started with iff the sub-step's complexity is not 0 |
| SubStepDialog.HoursInput | src/components/estimate/form/sub-step-dialog.tsx:112 | the or-fallback on `Number(value)` gives the number typed, or 0 for input that is not a number |
| SubStepDialog.Saved | src/components/estimate/form/sub-step-dialog.tsx:62-72 | saving changes only the entry at the index, and there only the four fields; a negative index changes nothing |
| SubStepDialog.SavedReadsBack | src/components/estimate/form/sub-step-dialog.tsx:53-72 | reopening the dialog on the saved entry shows the saved fields |
| SubStepDialog.SaveIdempotent | src/components/estimate/form/sub-step-dialog.tsx:62-72 | saving twice with the same fields is saving once |
| SubStepDialog.Dialog.constructor | src/components/estimate/form/sub-step-dialog.tsx:41-51 | the dialog starts from the sub-step at its index, if any |
| SubStepDialog.Dialog.SetHours | src/components/estimate/form/sub-step-dialog.tsx:112 | the hours input changes only the hours field |
| SubStepDialog.Dialog.HandleSave | src/components/estimate/form/sub-step-dialog.tsx:62-73 | the step's sub-steps become the saved list |

## Left out

- Utils.TruncateLabel: lengths and cuts are counted in Unicode characters, not in the UTF-16 code units of JavaScript's `length` and `substring`. A label with characters outside the Basic Multilingual Plane is cut at a different place, or not at all.
- Rendering, styling, animation, tabs, drag handles, charts and their configuration are not modelled. This includes `hasRange`, the chart configs and `TIMELINE_DATA`.
- The timeline's schedule variant selection (`schedules[variant]`) is left out. The model takes the selected schedule's repartition as input.
- Month labels are left out. `"Mois " + month` is kept as the month number.
- Floating point is left out. Numbers are exact reals, so `remaining === 0` and the roundings are exact. A float rounding error that leaves a tiny remainder is not modelled.
- The `get_steps` tool call is left out because it only reads. The `addToolResult` outputs are left out, except those of `add_sub_step` and `edit_sub_step`, which the handlers compute.
- The assistant transport, message rendering, file upload (`convertFilesToDataURLs`) and `handleSubmit` are network and browser I/O. They are not modelled.
- `uuidv4()` is a parameter of the handlers that call it.
- Chat.Overlay: a sub-step edit that carries its own `subSteps` replaces the sub-step's children in the source. The model keeps the children.
- Chat.AddSubStep: the source's new sub-step also keeps its request's `parent_id` key. The model's `Step` has no such key.
- Chat.EditSubStep: the merged sub-step also keeps the request's `parent_id` key. The model's `Step` has no such key.
- The request schemas of the tool calls (`EditStepSchema`, `EditSubStepWithParentIdSchema`, `CreateSubStepWithParentIdSchema`, `EditEstimateSchema`) are not part of this model. Their requests are modelled as records of optional fields.
- SubStepDialog.Dialog.HandleSave: an index at or past the end of the list would append a partial entry in the source. The model requires an index below the list's length, which every caller in the sheet supplies.
- StepSheetForm.StepSheet.HandleAddSubStep: the sheet requires its step index to be a position of the form's steps. The source would treat a missing step's sub-steps as empty.
- The dialog's `onSave` callback only closes the dialog. It is not modelled.
- The name, description and complexity setters of the dialog only replace one field, like `SetHours`. They are not modelled separately.
- Utils.SupabaseEstimateToEstimate: colour, flags and children of sub-steps built from rows, and the own hours and complexity of top-level steps, are left undefined by the source. The model gives them the schema defaults.
- `signLink`'s URL format is not checked by `ValidEstimate`.
- The legacy `src/config.ts` data and its demo figures are not modelled.
