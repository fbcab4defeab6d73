# Budget tracker: monthly aggregation, modelled in Dafny

This project models the core of the `budgets` app of a personal budget
tracker. That core is `budget_tracker/budgets/models.py`. Budget items are
expenses such as rent or insurance. Each has a cost, a repeat flag, a
required start date and an optional end date. A monthly instance collects
the items that are active in its month and caches the sum of their costs.

- `wrappers.dfy`: `Option` (a nullable column) and `Result` (an operation that can raise).
- `dates.dfy`: a date is a (year, month, day) triple. The order on triples is
  lexicographic, the same order Python uses for `date` values.
- `budget_item.dfy`: the budget item record, with its cost in integer cents.
  `FullClean` is field validation. Its input cost is a decimal given as
  `unscaled / 10^places`. The cost needs at most 2 decimal places and a value
  of at least 0.01. The start date must be present. `IsActive` is the rule
  for an item being active in a month.
- `monthly_instance.dfy`: the matcher `ActiveItems`, the cost sum `SumCosts`
  and the summing loop `ComputeTotal`. Class `Store` holds the item table and
  the instance table as maps, and the many-to-many relation is a set of item
  ids inside each instance. The store's methods are `save`,
  `auto_populate_repeating_items` and `calculate_total`, plus item creation
  and `budget_items.add`.
- `scenarios.dfy`: the repository's tests, and a five-item fixture covering
  each case of the filter, as client code of the store. Their results are
  proved from the store's contracts.

`save`, `auto_populate_repeating_items` and `calculate_total` call one
another. `save` of a new record populates it, population calculates the
total, and `calculate_total` saves again. In the model these three are
mutually recursive methods with decreasing ranks. The termination proof
shows that the inner save of an existing record never populates again.

The code rejects any cost below 0.01, not only costs of zero or less, and
it also rejects a cost with more than two decimal places, because the column
declares `decimal_places=2`. Uniqueness of `month` comes from
`unique_together = ['month']`; `Save` reports a duplicate as
`UniqueMonthViolation`.

## Model

| member | source | states |
|---|---|---|
| `Dates.LeIsTotalOrder` | budget_tracker/budgets/models.py:102-107 | the date order used by the matcher's comparisons is reflexive, antisymmetric, transitive and total |
| `BudgetItems.AtLeastOneCent` | budget_tracker/budgets/models.py:22 | the defining predicate of the `MinValueValidator(Decimal('0.01'))` rule, compared exactly as unscaled × 100 ≥ 10^places |
| `BudgetItems.ToCents` | budget_tracker/budgets/models.py:19-24 | a decimal with at most 2 places converts to cents without loss (cents × 10^places = unscaled × 100), and the result is at least one cent exactly when the decimal is at least 0.01 |
| `BudgetItems.FullClean` | budget_tracker/budgets/models.py:19-36 | validation succeeds exactly when the cost is present, has at most 2 decimal places, is at least 0.01 and the start date is present; every failing rule is reported, and a missing cost is reported as missing without running its validators; an accepted item keeps the exact cost (at least one cent) and every other field |
| `BudgetItems.IsActive` | budget_tracker/budgets/models.py:102-107 | the defining predicate of the filter: the item repeats, starts on or before the month, and has no end date or ends on or after the month |
| `BudgetItems.InactiveCases` | budget_tracker/budgets/models.py:96-107 | non-repeating, not-yet-started and expired items are never active |
| `BudgetItems.ActiveMonthsAreAnInterval` | budget_tracker/budgets/models.py:102-107 | an item active in two months is active in every month between them |
| `BudgetItems.InvertedRangeNeverActive` | budget_tracker/budgets/models.py:29-36 | an item whose end date is before its start date is accepted by the fields but is never active in any month |
| `MonthlyInstances.ActiveItems` | budget_tracker/budgets/models.py:102-107 | the matcher selects only stored items |
| `MonthlyInstances.ActiveItemsExactly` | budget_tracker/budgets/models.py:96-107 | an id is selected exactly when it is stored, repeats, starts on or before the month and has no end date or ends on or after it |
| `MonthlyInstances.UniqueMonths` | budget_tracker/budgets/models.py:78 | the defining predicate of the `unique_together = ['month']` constraint: no two stored instances share a month |
| `MonthlyInstances.SumCosts` | budget_tracker/budgets/models.py:87 | the defining function of the cost sum: 0 for no items, otherwise one item's cost plus the sum over the rest |
| `MonthlyInstances.SumCostsRemove` | budget_tracker/budgets/models.py:87 | the sum of costs is independent of the order the relation yields items: any item can be taken out first |
| `MonthlyInstances.SumCostsPair` | budget_tracker/budgets/models.py:87 | the sum over two distinct items is their two costs added |
| `MonthlyInstances.SumCostsUnion` | budget_tracker/budgets/models.py:87 | the sum over two disjoint item sets is the sum of the two sums |
| `MonthlyInstances.SumCostsAtLeastCount` | budget_tracker/budgets/models.py:19-24 | when every summed item passed the 0.01 minimum, the sum is at least one cent per item (so a non-empty total is positive) |
| `MonthlyInstances.SumCostsOnlyReadsIds` | budget_tracker/budgets/models.py:87 | the sum depends only on the costs of the referenced items |
| `MonthlyInstances.ComputeTotal` | budget_tracker/budgets/models.py:87 | the loop starting from 0.00 returns the sum of the costs of the referenced items |
| `MonthlyInstances.Populate` | budget_tracker/budgets/models.py:109-113 | a populated instance keeps its month and notes and references only stored items |
| `MonthlyInstances.PopulateIsIdempotent` | budget_tracker/budgets/models.py:110 | population replaces the item set, so populating twice equals populating once |
| `MonthlyInstances.PopulateIgnoresPriorItems` | budget_tracker/budgets/models.py:110 | the populated instance is the same whatever items and total it held before: the set is replaced, not extended |
| `MonthlyInstances.PopulateDropsInactive` | budget_tracker/budgets/models.py:110 | a previously referenced item that is not active (for example a manually added non-repeating one) is gone after population |
| `MonthlyInstances.Store.Valid` | budget_tracker/budgets/models.py:56-78 | the store invariant every method keeps: keys below their counters, every referenced item stored, and months unique |
| `MonthlyInstances.Store.MonthTaken` | budget_tracker/budgets/models.py:78 | the uniqueness check a save performs: some stored instance other than the one being saved already has the month |
| `MonthlyInstances.Store.CreateItem` | budget_tracker/budgets/tests.py:54-67 | a created item is stored under a fresh key, unvalidated; nothing else changes |
| `MonthlyInstances.Store.AddBudgetItems` | budget_tracker/budgets/tests.py:84 | adding items extends the instance's item set and leaves the cached total unchanged |
| `MonthlyInstances.Store.Save` | budget_tracker/budgets/models.py:115-124 | a save fails exactly when another instance has the month, and then the store is unchanged; saving a new record stores it under a fresh key, populated with the active items and their total; saving an existing record writes its fields and leaves its items as they were; items never change and the store invariant (months unique, references to existing items) is kept |
| `MonthlyInstances.Store.AutoPopulate` | budget_tracker/budgets/models.py:92-113 | the instance's items become exactly the active set for its month and its total the sum of their costs; no item and no other instance changes |
| `MonthlyInstances.Store.CalculateTotal` | budget_tracker/budgets/models.py:83-90 | returns the sum of the costs of the referenced items and stores that same value as the total; nothing else changes |
| `Scenarios.CostValidationExamples` | budget_tracker/budgets/tests.py:42-47 | a cost of 0.00 fails with only the minimum error, 0.01 passes as one cent, 0.005 fails on both rules, 1200.00 is stored as 120000 cents, a missing cost fails as missing only |
| `Scenarios.FixtureActiveInJune` | budget_tracker/budgets/models.py:102-107 | over a five-item fixture covering each case of the filter (active, future, expired, non-repeating, bounded), month 2024-06-01 selects exactly the active and the bounded item |
| `Scenarios.TwoItemStore` | budget_tracker/budgets/tests.py:52-67 | the test setup holds exactly the rent and insurance items, both starting on the given day |
| `Scenarios.ActiveEmptyBeforeStart` | budget_tracker/budgets/models.py:104 | when every stored item starts after the month, whatever its start date, nothing is active |
| `Scenarios.CreateBeforeItemsStart` | budget_tracker/budgets/tests.py:69-73 | creating the 2024-01-01 instance when the items start later references no items and stores a total of 0.00 |
| `Scenarios.TotalOfManuallyAddedItems` | budget_tracker/budgets/tests.py:81-91 | on any day, after adding 1200.00 and 150.00 by hand (whether or not population already linked them), the calculated and the stored total are both 1350.00 |
| `Scenarios.SecondInstanceForSameMonth` | budget_tracker/budgets/tests.py:93-99 | a second instance for 2024-01-01 fails and the stored instances are unchanged |
| `Scenarios.RepopulateDropsManualItem` | budget_tracker/budgets/models.py:110-113 | populating again after a manual non-repeating addition gives the same two-item set and total, and the manual item is dropped |

## Left out

- Text rendering (`__str__`): library formatting of month names and decimals, not aggregation logic.
- Timestamps (`created_at`, `updated_at`) and ordering metadata: no behaviour beyond storage.
- Field length limits on `name` and `owner`, and the required non-blank `name` and `owner`: `FullClean` checks only the cost (missing, decimal places, minimum) and the start date.
- The `max_digits` limits of `cost` and `total_amount`: integers are unbounded, so the decimal overflow errors are not modelled.
- The "first day of the month" convention for `month`: it is help text only and is not enforced, so any date is accepted.
- Calendar validity of a date triple: dates are only compared, so any triple is accepted.
- Query construction and the database: the store is a pair of maps. A uniqueness violation is a `Failure` result instead of an exception.
- The missing transaction around the two saves of instance creation: the model runs the whole creation as one step, so the window between the saves cannot be observed.
- The admin screens in `budget_tracker/budgets/admin.py`, including their recalculation after an edit. They are configuration around the methods modelled here.
- The older app under `budget_tacker/`: it has only field declarations and rendering.
- Updating or deleting a budget item, and `budget_items.remove`: the modelled core never does either.
- MonthlyInstances.Store.Save: the key of a record saved with an explicit key that has no row also raises the key counter. A database sequence would not do this; the model does it to keep new keys fresh.
- MonthlyInstances.Store.AutoPopulate / CalculateTotal: the model treats the in-memory object and its stored row as one record. Population filters on the stored month, not on an in-memory `month` edited but not yet saved. The save inside `calculate_total` writes the stored month and notes, so an edited, unsaved month that would clash with another instance and raise a uniqueness error is not modelled. Calling either method on an unsaved object raises an error from the many-to-many manager; both methods require a stored record instead. Every caller in the repository passes a just-saved object.
