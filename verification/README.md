# Travel itinerary: trip cost and budget core

A Dafny model of the itinerary/budget domain logic of a small command-line
trip planner. A trip holds an ordered list of activities, each with a cost
and one of three categories (food, transport, sightseeing), and an optional
budget. The model covers:

- the itinerary service's `calculateTotalCost`, a reduce over the
  activities starting from 0 (`Itinerary.FoldCost`, `Itinerary.TotalCost`),
  checked against an independent recursive sum (`Itinerary.Sum`);
- the budget service's `setBudget` (`Budget.SetBudget`, a pure function
  returning the updated trip and the returned amount), `getRemainingBudget`
  (`Budget.GetRemainingBudget`, a `Result` whose failure is `NoBudgetSet`),
  `wouldExceedBudget` (`Budget.WouldExceedBudget`) and
  `getSpendingByCategory` (`Budget.GetSpendingByCategory`, a map from each
  of the three categories to its total, built by the same reduce as the
  source, `Budget.SpendingFold`).

Files: `wrappers.dfy` (Option, Result), `models.dfy` (Category, Activity,
Trip), `itinerary.dfy`, `budget.dfy`, `scenarios.dfy` (worked examples).

Costs and budgets are exact integers. Following the code, `SetBudget`
accepts any integer, negative ones included: neither `setBudget` nor the
other functions check the sign, so no non-negativity is assumed anywhere in
the model. Where a lemma needs costs that are not negative it says so in
its `requires`.

The services mutate the trip in place; here every operation is a pure
function, so `calculateTotalCost` and the other queries are read-only by
construction and `SetBudget` returns the updated trip.

## Model

| member | source | states |
|---|---|---|
| Itinerary.FoldCost | src/itineraryService.ts:4-6 | the left fold from a running sum `acc` yields `acc` plus the sum of all costs |
| Itinerary.TotalCost | src/itineraryService.ts:3-7 | the total cost is the sum of the activities' costs; it is 0 for a trip with no activities |
| Itinerary.SumConcat | src/itineraryService.ts:4-6 | the sum over a concatenation is the sum of the two sums |
| Itinerary.SumConcatCommutes | src/itineraryService.ts:4-6 | the order of two blocks of activities does not change their sum |
| Itinerary.FoldCostAppend | src/itineraryService.ts:4-6 | fold step law: folding one more activity at the end adds exactly its cost |
| Itinerary.TotalCostAppend | src/itineraryService.ts:3-7 | appending an activity raises the total cost by exactly its cost |
| Itinerary.TotalCostConcat | src/itineraryService.ts:3-7 | appending a block of activities raises the total by that block's sum |
| Itinerary.SumNonNegative | src/itineraryService.ts:4-6 | if no cost is negative, the sum is not negative |
| Itinerary.TotalCostNonNegative | src/itineraryService.ts:3-7 | if no activity cost is negative, the trip's total is not negative |
| Budget.SetBudget | src/budgetService.ts:5-8 | returns the amount; afterwards the budget is exactly that amount and activities, id and destination are unchanged |
| Budget.SetBudgetLastWins | src/budgetService.ts:5-8 | two calls in a row equal the second call alone |
| Budget.SetBudgetKeepsTotal | src/budgetService.ts:5-8 | setting the budget leaves the total cost unchanged |
| Budget.Message | src/budgetService.ts:13 | the text of the error raised when no budget is set |
| Budget.GetRemainingBudget | src/budgetService.ts:11-17 | fails with `NoBudgetSet` if and only if there is no budget; otherwise returns budget minus the sum of costs, which may be negative |
| Budget.RemainingAfterSetBudget | src/budgetService.ts:5-16 | right after setting budget `b` the remaining budget is `b` minus the total |
| Budget.RemainingAtMostBudget | src/budgetService.ts:16 | with no negative costs the remaining budget is at most the budget |
| Budget.RemainingAfterAppend | src/budgetService.ts:16 | appending an activity lowers the remaining budget by exactly its cost |
| Budget.WouldExceedBudget | src/budgetService.ts:20-26 | false without a budget; with budget `B`, true iff total plus cost is strictly greater than `B`, so false when they are equal |
| Budget.WouldExceedIffRemainingBelowCost | src/budgetService.ts:11-26 | the check is true iff a budget is set and the remaining budget is below the activity's cost |
| Budget.WouldExceedIffOverAfterAppend | src/budgetService.ts:16-25 | with a budget set, the check is true iff appending the activity would make the remaining budget negative |
| Budget.WouldExceedMonotone | src/budgetService.ts:25 | if an activity is flagged, every dearer activity is flagged too |
| Budget.OverBudgetPersists | src/budgetService.ts:16-25 | once over budget, every activity of non-negative cost is flagged and appending it keeps the trip over budget |
| Budget.OfCategory | src/budgetService.ts:35 | every activity of the given category is kept as many times as it occurs in the sequence, and no other activity is kept |
| Budget.SpendingFold | src/budgetService.ts:33-39 | the per-category reduce keeps exactly the three keys and adds to each entry the cost of exactly that category's activities |
| Budget.GetSpendingByCategory | src/budgetService.ts:29-40 | the breakdown has exactly the three category keys and each entry is the sum of the costs of that category's activities |
| Budget.CategorySumsPartition | src/budgetService.ts:33-39 | the three per-category sums add up to the sum of all costs |
| Budget.SpendingAddsUpToTotal | src/budgetService.ts:33-39 | the three entries of the breakdown add up to the trip's total cost |
| Budget.OfAbsentCategory | src/budgetService.ts:35 | selecting a category that no activity has yields no activities |
| Budget.EmptyCategoryIsZero | src/budgetService.ts:38 | a category with no activities is present in the breakdown with entry 0 |
| Scenarios.SpendingExample | src/budgetService.ts:29-40 | food 10 and transport 5 break down as food 10, transport 5, sightseeing 0 |
| Scenarios.BudgetWalkThrough | src/budgetService.ts:5-25 | with no budget a 100 activity is not flagged; after setting 80 the remaining budget is -20 and a further 10 activity is flagged |

## Left out

- Floating-point arithmetic: JavaScript numbers are IEEE-754 doubles; costs and budgets are modelled as exact integers, so rounding, NaN and infinities are not modelled.
- In-place mutation: `setBudget` assigns to the trip object it is given; the model returns a new trip instead, with the same observable fields.
- The exception mechanism: `getRemainingBudget` throws an `Error`; the model returns `Failure(NoBudgetSet)`, whose message is given by `Budget.Message`.
- Trip and activity fields other than id, destination, activities, budget, name, cost and category (start date, start time): the type definitions file is not part of this model, and no modelled operation reads them.
- Trip creation, adding an activity, the filters by cost, date and category, and the chronological sort: they are imported by `src/cli.ts` but their bodies are not part of this model. Appending to the activity sequence appears only in lemmas (`Itinerary.TotalCostAppend`, `Budget.RemainingAfterAppend`) as a plain sequence append.
- `src/cli.ts`: the interactive prompts, the global list of trips, the active trip id and random id generation are user-interface and state plumbing.
- `src/destinationService.ts`: an HTTP request to a country-data service and JSON parsing; network I/O.
- `eslint.config.ts`: lint configuration with no runtime behaviour.
