# Budget ledger

A Dafny model of the ledger at the heart of a small budgeting application
(the `budgetController` in `app.js`). The ledger keeps two ordered
collections of entries, incomes and expenses. It numbers each new entry,
deletes entries by id, recomputes the two totals, the net budget and the
overall spend percentage on request, and caches each expense's share of
income in the expense itself.

The model follows the source's imperative form:

- `Budget.Ledger` is a class. Its fields are the two collections
  (`inc: seq<Income>`, `exp: seq<Expense>`) and the four stored aggregates
  (`totalInc`, `totalExp`, `budget`, `percentage`). The four aggregates are
  overwritten only by `CalculateTotal` and `CalculateBudget`.
  `CalculatePercentages` writes only the percentage cached in each expense
  (its frame is the expense objects, not the ledger). Between a mutation and
  those calls the cached figures are stale, just as in the source.
  `Ledger.Valid()` is the object invariant: in each collection the ids are
  non-negative and strictly increasing, and no expense object is stored twice.
- `Budget.Expense` is a class. `CalcPercentage` overwrites its `percentage`
  field in place, and `AddItem` returns the same object it stores.
- `Budget.Income` is a datatype, because nothing ever changes an income entry.
- `Ids` holds the id rules: "last id + 1, or 0", the first-match scan that
  deleteItem uses, and the proofs that this rule never reuses an id still in
  use (last + 1 = max + 1 under the invariant).
- `Amounts` holds the in-order sum, `Math.round` and the percentage rule with
  its −1 sentinel.
- `Scenarios` holds properties that span several calls (an add/delete round
  trip, recompute idempotence, delete-then-recompute, numbering from zero,
  the sentinel after a recompute), plus worked examples written as client
  methods.

Modelling decisions:

- Amounts are integers: whole numbers of the smallest currency unit.
- `Math.round(x)` is `floor(x + 1/2)`. For a positive divisor this is exactly
  `Round(num, den) = (2*num + den) / (2*den)` under Dafny's Euclidean
  division, for negative `num` as well; `Amounts.Round` states the equality
  with `floor(num / den + 1/2)` over the reals as its contract.
- The kind is the datatype `Kind = Inc | Exp`.

Where one might expect something other than what the code does, the model
follows the code:

- One might expect a new id to be the maximum id + 1. The code uses the last
  entry's id + 1. `Ids.NextIdIsMaxPlusOne` proves the two agree under the
  ordering invariant that every operation keeps.
- One might expect rounding "half away from zero". `Math.round` rounds halves
  up (−2.5 becomes −2), and that is what `Amounts.Round` does.
- One might expect values to be validated before they are added. The
  controller validates nothing, so the ledger accepts any integer amount,
  including zero and negative ones.
  `Amounts.ShareSentinelAmbiguousForNegativePart` shows the consequence: with
  a negative expense total the overall percentage can be −1 even when income
  is positive. The iff between the sentinel and "income ≤ 0" is proved only
  for a non-negative expense total (`Amounts.ShareSentinel`, `Amounts.SpendSentinel`).

## Model

| member | source | states |
|---|---|---|
| `Ids.NextId` | app.js:61-65 | the id addItem assigns: when ids increase it exceeds every stored id, and it is non-negative when every stored id is |
| `Ids.MaxId` | app.js:61-65 | the largest id of a non-empty collection: it occurs in the collection and bounds every id |
| `Ids.NextIdIsMaxPlusOne` | app.js:61-65 | when ids increase, the "last id + 1" rule equals "max id + 1" |
| `Ids.NextIdIsFresh` | app.js:61-65 | on a well-formed collection the new id is not in use, and appending it keeps ids non-negative and strictly increasing |
| `Ids.IdsAfterAddsAreIndices` | app.js:61-65 | n adds with no deletes, starting from an empty collection, give ids 0 .. n−1 |
| `Ids.IndexOf` | app.js:81-85 | indexOf over the ids: −1 exactly when the id is absent, otherwise the first position holding it |
| `Ids.FindIndex` | app.js:81-85 | the scan deleteItem performs returns the first matching position, or −1 |
| `Ids.RemoveAt` | app.js:89 | splice(i, 1): one element fewer; those before i are kept, those after i shift down by one |
| `Ids.RemoveAtWellFormed` | app.js:87-90 | removing any entry keeps the remaining ids non-negative and strictly increasing |
| `Ids.AddThenRemove` | app.js:57-90 | the id just assigned is found at the tail, and removing the tail gives back the previous collection |
| `Amounts.Sum` | app.js:36-40 | the total calculateTotal accumulates from 0 left to right; a total of non-negative amounts is non-negative |
| `Amounts.Round` | app.js:103 | Math.round(num / den) for den > 0: exactly floor(num / den + 1/2), taken over the reals |
| `Amounts.Share` | app.js:18-22 | −1 when the whole is not positive; otherwise floor(100·part / whole + 1/2), the rounded percentage of part in whole |
| `Amounts.RoundIsNearest` | app.js:103 | `Round` models Math.round of num/den for den > 0: it is the nearest integer, halves rounded up |
| `Amounts.ShareIsNearest` | app.js:17-23 | `Share` is −1 when the whole is not positive, otherwise the nearest-integer percentage of part in whole, halves rounded up |
| `Amounts.SumRemoveAt` | app.js:35-41 | deleting the entry at i lowers the total by exactly that entry's amount |
| `Amounts.ShareSentinel` | app.js:102-106 | for a non-negative part, the result is −1 if and only if the whole is not positive |
| `Amounts.ShareBounds` | app.js:102-103 | a part between 0 and a positive whole gives a percentage between 0 and 100 |
| `Amounts.ShareMonotone` | app.js:17-23 | a larger part never gets a smaller percentage of the same income |
| `Amounts.SpendSentinel` | app.js:93-106 | with non-negative expenses (incomes of any sign), the overall percentage is −1 exactly when the income total is not positive |
| `Amounts.ShareSentinelAmbiguousForNegativePart` | app.js:102-106 | a negative expense total can also produce −1 when income is positive |
| `Budget.PercentagesOf` | app.js:116-118 | the map over the expenses: one entry per expense, in stored order, each that expense's cached percentage |
| `Budget.Expense.constructor` | app.js:10-15 | a new expense has the given id, description and value, and percentage −1 |
| `Budget.Expense.CalcPercentage` | app.js:17-23 | the cached percentage becomes the rounded share of the income total, or −1 when that total is not positive |
| `Budget.Expense.GetPercentage` | app.js:25-27 | returns the cached percentage without recomputing it |
| `Budget.Ledger.Valid` | app.js:57-90 | the object invariant every mutation keeps: in each collection the ids are non-negative and strictly increasing, and no expense object is stored twice |
| `Budget.Ledger.Ids` | app.js:81-83 | the ids of one collection: same length and order as the collection, each the id of the entry at that position |
| `Budget.Ledger.Values` | app.js:37-38 | the amounts of one collection: same length and order as the collection, each the amount of the entry at that position |
| `Budget.Ledger.constructor` | app.js:43-54 | the initial state: both collections empty, totals 0, budget 0, percentage −1, invariant established |
| `Budget.Ledger.AddItem` | app.js:57-77 | appends exactly one entry at the tail of the chosen collection and returns it. Its id is last id + 1 (0 when empty) and exceeds every existing id. A new expense is fresh with percentage −1. The other collection and all aggregates are unchanged, and the invariant is kept |
| `Budget.Ledger.DeleteItem` | app.js:79-91 | removes the entry at the first index whose id matches and keeps the rest in order. If the id is absent, nothing changes. The other collection and the aggregates are never touched, and the invariant is kept |
| `Budget.Ledger.CalculateTotal` | app.js:35-41 | the chosen kind's total becomes the in-order sum of its amounts; every other field is unchanged |
| `Budget.Ledger.CalculateBudget` | app.js:93-107 | both totals equal the sums of their collections; budget = income total − expense total; the percentage is the rounded spend share, or −1 when income ≤ 0; the collections are unchanged |
| `Budget.Ledger.CalculatePercentages` | app.js:109-113 | every expense's cached percentage becomes its share of the stored, possibly stale, income total; only expense percentages are modified |
| `Budget.Ledger.GetPercentages` | app.js:115-120 | a snapshot of the cached percentages, same length and order as the expense collection; reads only |
| `Budget.Ledger.GetBudget` | app.js:122-129 | a snapshot of the four stored aggregates; reads only |
| `Scenarios.AddThenDeleteRestores` | app.js:57-91 | addItem followed by deleteItem with the returned id restores both collections and leaves the aggregates as they were |
| `Scenarios.RecalculateIsIdempotent` | app.js:93-107 | calling calculateBudget twice with no mutation in between gives identical getBudget snapshots |
| `Scenarios.DeleteThenRecalculate` | app.js:79-107 | deleting an existing entry and recomputing lowers that kind's total by exactly the removed amount; an absent id leaves the total at the collection's sum |
| `Scenarios.AddsNumberFromZero` | app.js:57-77 | n adds to an empty collection, with no deletes, return entries with ids 0 .. n−1 and leave the collection's ids equal to 0 .. n−1, keeping the invariant |
| `Scenarios.RecalculatedSentinel` | app.js:93-107 | after calculateBudget with non-negative expenses, the stored percentage is −1 exactly when income is not positive, and lies in 0 .. 100 when expenses do not exceed a positive income |

The client methods `Scenarios.SalaryAndRent`, `Scenarios.ExpenseWithoutIncome`,
`Scenarios.IdsAfterDeletingFirst`, `Scenarios.IdReusedAfterDeletingLast` and
`Scenarios.ExpensePercentages` (with their continuations `DeleteFirstThenAdd`,
`DeleteLastThenAdd` and `RecomputeOneExpense`) state worked examples as
assertions proved from the contracts above. One example: income 1000 and expense 300 give
budget 700 and percentage 30. Another: deleting id 0 from the ids [0, 1] and
then adding gives id 2.

## Left out

- The UI controller (app.js:134-262): DOM queries, HTML insertion, the date label, and number formatting. The formatting uses floating-point `toFixed` and inserts a single thousands separator.
- The global controller and event wiring (app.js:265-358): listeners, recovering `"inc-3"`-style ids from DOM nodes with `split`/`parseInt`, and console output.
- JavaScript numeric coercion: values arrive as input strings and are stored unconverted. `calculateTotal` sums them with `parseFloat`, and `calcPercentage` divides them with implicit coercion. Unparseable input then yields NaN and poisons the totals. The model stores integer amounts instead, so there is no NaN path.
- Floating-point arithmetic: the source computes in doubles, and the model computes exactly on integers. Three places are affected. The totals (app.js:38) add doubles, and such sums are inexact once amounts have fractions (0.1 + 0.2 is not 0.3). The budget (app.js:99) subtracts doubles. The percentages round `(v / inc) * 100` computed in doubles (app.js:19 and 103), while the model rounds the exact rational `100·v / inc`, and the two can differ when the double product lands just beside a half. So totals, budget and percentages are exact in the model and may not be in the source.
- An unknown type string: the source throws a TypeError, because `data.allItems[type]` is undefined. The `Kind` datatype rules that input out.
- The module singleton (the immediately invoked function that hides `data`): the ledger is an explicitly constructed `Ledger` object instead.
