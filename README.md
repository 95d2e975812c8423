# Dashboard store: metrics, staged edits and audit log

This project models the state core of an e-commerce analytics dashboard
in Dafny:

- **`calculateMetrics`** derives KPIs and chart series from the product
  catalogue. The KPIs are total revenue, average order value and mean
  conversion rate. The series are a 30-day synthetic revenue history and a
  revenue total per category.
- **The dashboard store** holds a working product list and its metrics,
  the last confirmed copy of both, a newest-first audit log and a few
  flags. Edits are *staged* on the working copy. *Confirming* compares
  the working copy with the confirmed one field by field, logs one
  `UPDATE` entry per difference ahead of the old log, and promotes the
  working copy. *Discarding* restores the confirmed copy.
- **The analytics page** derives two more series: the five products with
  the highest revenue, and the mean conversion rate per category.

Files and modules:

- `types.dfy` (`DashboardTypes`): products, metrics, audit entries, roles,
  visibility flags.
- `aggregation.dfy` (`Aggregation`): `calculateMetrics` and its parts.
  `Array.prototype.reduce` and the `forEach` that fills the category `Map`
  are left folds. The category map is a sequence of entries kept in
  insertion order.
- `audit.dfy` (`Audit`): the field-by-field differ of `confirmChanges`.
  `CollectAuditLogs` holds its nested loops. It is proved equal to the
  specification function `ConfirmEntries`.
- `analytics.dfy` (`Analytics`): the top-five ranking as a stable
  insertion sort, and the per-category conversion rate.
- `store.dfy` (`DashboardStore`): the store as a class. Its fields mirror
  `DashboardState`, and its methods change exactly the fields the
  source's `set` calls change. Each method states the new value of every
  field it may modify, and its `modifies` frame keeps every other field
  as it was.

Numbers are exact `real`s. `Math.round(x * 100) / 100` is `Round2`, the
nearest hundredth with halves rounded upward, as `Math.round` does.
`Math.random()` and the current date are parameters:

- `draws` holds thirty values in [0, 1);
- `today` is the day number of the last history day.

The store invariant `Valid()` says four things:

- the product list is not empty;
- its ids are distinct;
- its ids appear in the same order as in the confirmed list;
- with nothing pending, the working copy equals the confirmed copy.

## Model

| member | source | states |
|---|---|---|
| `DashboardTypes.Flip` | src/store/dashboardStore.ts:162-170 | toggling a section flips that section's flag and leaves every other flag as it was |
| `DashboardTypes.FlipInvolution` | src/store/dashboardStore.ts:162-170 | toggling the same section twice restores the visibility |
| `Aggregation.Round2` | src/store/dashboardStore.ts:122-124 | the rounded value is within half a cent of the input (x - 0.005 < r <= x + 0.005) |
| `Aggregation.Round2Hundredths` | src/store/dashboardStore.ts:122-124 | a whole number of cents is not changed by rounding |
| `Aggregation.Round2Idempotent` | src/store/dashboardStore.ts:122-124 | rounding a rounded value changes nothing |
| `Aggregation.Revenue` | src/store/dashboardStore.ts:93 | specification of the revenue KPI before rounding: the left fold of price times sales over the list; its bounds and its split by category are the lemmas below |
| `Aggregation.TotalSales` | src/store/dashboardStore.ts:94 | specification of the units sold: the left fold of `sales` over the list |
| `Aggregation.AverageOrderValue` | src/store/dashboardStore.ts:95 | specification of the AOV before rounding: revenue over units sold, 0 when the units sold are not positive |
| `Aggregation.MeanConversion` | src/store/dashboardStore.ts:96 | specification of the conversion KPI before rounding: the sum of the rates over the list length, for a non-empty list |
| `Aggregation.AverageOrderValueWithinPrices` | src/store/dashboardStore.ts:93-95 | the unrounded AOV (revenue / total sales, 0 when nothing was sold) is a sales-weighted mean price: with non-negative sales it lies between the lowest and the highest price |
| `Aggregation.MeanConversionWithinRates` | src/store/dashboardStore.ts:96 | the unrounded conversion KPI lies between the lowest and the highest product rate |
| `Aggregation.RevenueHistory` | src/store/dashboardStore.ts:99-107 | the history has exactly 30 entries, on the 30 consecutive days ending today |
| `Aggregation.DailyRevenueBand` | src/store/dashboardStore.ts:102 | for non-negative revenue and a draw in [0, 1), a day's unrounded revenue lies in [0.8, 1.2] times revenue/30 |
| `Aggregation.HistoryWithinBand` | src/store/dashboardStore.ts:99-107 | each reported history value lies within the [0.8, 1.2] band around revenue/30, give or take half a cent of rounding |
| `Aggregation.InCategory` | src/pages/Analytics.tsx:128-131 | the filter holds exactly the listed products of that category, and no more products than the list has |
| `Aggregation.InCategoryCounts` | src/pages/Analytics.tsx:128-131 | the filter keeps every product of the category exactly as often as the list has it and no other product, so its length is the category's product count |
| `Aggregation.InCategoryNonEmpty` | src/pages/Analytics.tsx:128-131 | a category that occurs in the list has at least one product, so the filter is never empty |
| `Aggregation.Distinct` | src/store/dashboardStore.ts:110-116 | the distinct categories hold exactly the list's categories, each once |
| `Aggregation.FirstIndex` | src/pages/Analytics.tsx:126 | the index returned is the first position at which the category occurs |
| `Aggregation.DistinctInFirstAppearanceOrder` | src/pages/Analytics.tsx:126 | the distinct categories come in order of first appearance, as a JavaScript `Set` or `Map` iterates |
| `Aggregation.AddToCategory` | src/store/dashboardStore.ts:112-113 | a map update keeps the key order and appends a new key at the end only when the category is new |
| `Aggregation.AddToCategoryLookup` | src/store/dashboardStore.ts:112-113 | only that category's total changes, and it grows by exactly the added amount (a missing key reads as 0) |
| `Aggregation.AddToCategorySum` | src/store/dashboardStore.ts:112-113 | the grand total of the map grows by exactly the added amount |
| `Aggregation.CategoryTotalsKeys` | src/store/dashboardStore.ts:110-116 | the breakdown has one entry per distinct category, in first-appearance order |
| `Aggregation.CategoryTotalsLookup` | src/store/dashboardStore.ts:110-114 | the map's total for any category is the sum of price times sales over that category's products |
| `Aggregation.CategoryTotalsSum` | src/store/dashboardStore.ts:110-114 | the unrounded category totals add up to the unrounded total revenue |
| `Aggregation.CategoryTotalsValue` | src/store/dashboardStore.ts:110-116 | the entry at each position is the revenue of exactly the products of its category |
| `Aggregation.CategoryTotals` | src/store/dashboardStore.ts:110-114 | specification of the category `Map` after the `forEach`: `AddToCategory` applied to each product in list order; its keys and values are proved by the two lemmas above |
| `Aggregation.Breakdown` | src/store/dashboardStore.ts:116-119 | the reported breakdown has one entry per distinct category in first-appearance order, each the revenue of that category's products rounded to cents |
| `Aggregation.CalculateMetrics` | src/store/dashboardStore.ts:92-128 | metrics of a non-empty list: 30 history days ending today; breakdown keys are the distinct categories in first-appearance order and each value is its category's revenue rounded to cents; AOV is 0 when total sales are not positive |
| `Audit.ProductChanges` | src/store/dashboardStore.ts:221-235 | specification of the fields compared for a product: the seven non-id keys in the key order of the product records, each with its confirmed and working value |
| `Audit.MetricChanges` | src/store/dashboardStore.ts:239-252 | specification of the metric fields compared: `revenue`, `aov`, `conversionRate` in key order; the two series are skipped |
| `Audit.Diffs` | src/store/dashboardStore.ts:221-235 | specification of the entries for one subject: an `UPDATE` entry per compared field whose values differ, in field order; its meaning is proved in `DiffsExactlyChanged` and `DiffsCount` |
| `Audit.EntriesFor` | src/store/dashboardStore.ts:217-235 | specification of one working product's entries: none when no original has its id, else the diffs against the first original with that id |
| `Audit.ConfirmEntries` | src/store/dashboardStore.ts:212-255 | specification of everything one confirmation logs: the entries of each working product in list order, then the metric entries |
| `Audit.DiffsExactlyChanged` | src/store/dashboardStore.ts:221-235 | an entry is logged for a field if and only if its working value differs from the confirmed value; the entry carries the subject, the key and both values |
| `Audit.DiffsCount` | src/store/dashboardStore.ts:239-255 | the number of entries is exactly the number of changed fields |
| `Audit.ProductDiffsEmpty` | src/store/dashboardStore.ts:221-223 | a product yields no entry if and only if every field other than `id` equals the confirmed value |
| `Audit.FindById` | src/store/dashboardStore.ts:218 | a found original is in the list and has the id; nothing is found only when no product has the id |
| `Audit.FindByIdAt` | src/store/dashboardStore.ts:218 | with distinct ids, looking up a product's id finds that very product |
| `Audit.MatchByIdIsPairwise` | src/store/dashboardStore.ts:217-219 | when the working and confirmed lists have the same distinct ids in the same order, matching by id compares each product with the original at its position |
| `Audit.MatchedPairwise` | src/store/dashboardStore.ts:217-235 | when each working product finds by id the original at its own position, the by-id entries equal the pairwise entries |
| `Audit.NoChangeNoDiffs` | src/store/dashboardStore.ts:221-235 | fields that all kept their confirmed values give no entry |
| `Audit.NothingChangedNothingLogged` | src/store/dashboardStore.ts:212-255 | when the working products equal the confirmed ones and the three KPIs are equal, confirming logs nothing |
| `Audit.SeriesNotAudited` | src/store/dashboardStore.ts:241 | the revenue history and the category breakdown have no influence on what is logged |
| `Audit.AppendDiffs` | src/store/dashboardStore.ts:221-235 | the inner loop appends exactly the entries for the changed fields, in key order, after the existing ones |
| `Audit.CollectAuditLogs` | src/store/dashboardStore.ts:212-255 | the loops build exactly the specified entries: products in list order, each against its original found by id, then the KPIs |
| `Analytics.Insert` | src/pages/Analytics.tsx:21-22 | inserting one product gives a permutation of the list plus that product, one longer |
| `Analytics.InsertKeepsOrder` | src/pages/Analytics.tsx:21-22 | inserting one product into a list sorted by a key keeps it sorted |
| `Analytics.SortDescending` | src/pages/Analytics.tsx:21-22 | the sorted copy is a permutation of the input, ordered by non-increasing key |
| `Analytics.SortedTail` | src/pages/Analytics.tsx:21-27 | in a sorted list nothing after the first k entries has a larger key than any of them |
| `Analytics.Ranked` | src/pages/Analytics.tsx:21-22 | the sorted copy is a permutation of the products, ordered by non-increasing price times sales |
| `Analytics.TopProducts` | src/pages/Analytics.tsx:21-27 | the ranking has min(5, number of products) entries, ordered by non-increasing revenue |
| `Analytics.TopProductsAreBest` | src/pages/Analytics.tsx:21-27 | each entry is the name and the price times sales of a different input product (as a multiset), and no product left out earns more than a shown one |
| `Analytics.CategoryMean` | src/pages/Analytics.tsx:128-131 | specification of one bar: the conversion-rate sum of the category's products over their count, for a category that occurs in the list |
| `Analytics.CategoryRates` | src/pages/Analytics.tsx:126-132 | one rate per distinct category, in first-appearance order; each divisor (the category's product count) is positive |
| `Analytics.ListedCategoriesOccur` | src/pages/Analytics.tsx:126-131 | every listed category occurs in the list and has at least one product |
| `Analytics.CategoryRateWithinRange` | src/pages/Analytics.tsx:128-131 | a category's rate lies between the lowest and the highest conversion rate of its products |
| `DashboardStore.Merge` | src/store/dashboardStore.ts:175 | merging a partial update never changes the product's id |
| `DashboardStore.MergeIdempotent` | src/store/dashboardStore.ts:175 | merging the same update twice is the same as merging it once |
| `DashboardStore.ApplyUpdate` | src/store/dashboardStore.ts:173-176 | the updated list has the same length and the same ids in the same order |
| `DashboardStore.UpdateTouchesOnlyItsProduct` | src/store/dashboardStore.ts:173-176 | with distinct ids, at most one product changes; an id that matches nothing changes nothing |
| `DashboardStore.MockProducts` | src/store/dashboardStore.ts:79-90 | the seed catalogue has ten products with distinct ids |
| `DashboardStore.Store.constructor` | src/store/dashboardStore.ts:130-151 | initial state: working = confirmed = seed catalogue, metrics computed from it, empty log, nothing pending, admin user and role, admin mode off, every section shown |
| `DashboardStore.Store.Valid` | src/store/dashboardStore.ts:44-76 | the invariant every store method keeps: a non-empty working list with distinct ids, the same ids in the same order as the confirmed list, and working = confirmed when nothing is pending |
| `DashboardStore.Store.SetUserRole` | src/store/dashboardStore.ts:153 | only the role changes, to the given one |
| `DashboardStore.Store.ToggleAdminMode` | src/store/dashboardStore.ts:155-160 | admin mode flips for an admin and stays as it was for any other role |
| `DashboardStore.Store.ToggleVisibility` | src/store/dashboardStore.ts:162-170 | only the visibility changes, with exactly that section flipped |
| `DashboardStore.Store.UpdateProduct` | src/store/dashboardStore.ts:172-182 | same length; products with the id get the update merged in and all others stay; metrics = calculateMetrics of the new list; pending becomes true even when nothing matched; confirmed copies and log untouched |
| `DashboardStore.Store.UpdateMetrics` | src/store/dashboardStore.ts:184-190 | each metric field present in the update is replaced and the others stay; products, confirmed copies and log untouched; pending becomes true |
| `DashboardStore.Store.UpdateRevenueHistory` | src/store/dashboardStore.ts:192-200 | only the revenue of entry `index` changes (its date stays); the length and every other metric stay; pending becomes true |
| `DashboardStore.Store.UpdateCategoryBreakdown` | src/store/dashboardStore.ts:202-210 | only the value of entry `index` changes (its category stays); the length and every other metric stay; pending becomes true |
| `DashboardStore.Store.ConfirmChanges` | src/store/dashboardStore.ts:212-263 | log = new entries ++ old log, so the old log survives unchanged as a suffix; confirmed := working; pending := false; working untouched; nothing is logged when nothing was pending |
| `DashboardStore.Store.DiscardChanges` | src/store/dashboardStore.ts:265-272 | working := confirmed for products and metrics; pending := false; confirmed copies and log untouched |
| `DashboardStore.Store.Stage` | src/store/dashboardStore.ts:172-210 | a staged edit reaches the store action it names, with that action's new products, metrics and pending flag; a history or breakdown edit whose position is out of range changes nothing |
| `DashboardStore.Store.DiscardTwice` | src/store/dashboardStore.ts:265-272 | discarding twice ends in the same state as discarding once (idempotence) |
| `DashboardStore.Store.StageThenDiscard` | src/store/dashboardStore.ts:172-210 | from a state with nothing pending, any sequence of staged edits followed by a discard gives back the products and metrics exactly |

## Left out

- The React views (dashboard, login, audit page, layout, cards, export buttons) and the JSX of the analytics and admin pages are presentation.
- The zustand `create`/`set`/`get` plumbing is a foreign library. Its effect is modelled as direct field updates on the `Store` class.
- `exportData` only writes a console message, so there is nothing to model.
- Audit entry ids (`Date.now()` plus `Math.random()`) and timestamps come from the clock and from entropy. `AuditEntry` does not carry them.
- History dates are day numbers (`today - (29 - i)`). Formatting them as ISO strings is not modelled.
- IEEE-754 behaviour is not modelled: binary rounding, `NaN` from `parseFloat('')` in the admin page, `NaN !== NaN` in the differ, and `-0`. All numbers are exact reals, so the order of summation does not matter.
- Aggregation.CalculateMetrics: requires a non-empty list. The source divides the conversion sum by `products.length` without a guard, which gives `NaN` for an empty list. Returning 0 would avoid the `NaN`; the model follows the code, which divides without a guard. The store never has an empty list: the seed has ten products and no operation changes the length.
- DashboardStore.Store.DiscardChanges: restores the confirmed metrics snapshot and does not recompute them. It does not recompute them from the restored products: the code copies `originalMetrics`, so staged metric edits are undone exactly.
- DashboardStore.Store.UpdateRevenueHistory: requires `index` within the history. In JavaScript an out-of-range index grows the array with holes (or, when negative, sets a non-element property). No caller exists in the source.
- DashboardStore.Store.UpdateCategoryBreakdown: requires `index` within the breakdown, for the same reason as the history update.
- DashboardStore.Store.StageThenDiscard: does not send history or breakdown edits whose position is out of range, because the model has no behaviour for them.
- DashboardStore.ProductUpdate has no `id` field, so an update cannot change a product's id. `Partial<Product>` would allow one, but the only caller (the admin page) never edits `id`.
- The store raises no not-found or validation errors: `updateProduct` with an unknown id still sets the pending flag, and `confirmChanges` accepts any reason. The blank-reason check lives only in the admin page's handler and is not modelled.
- Role checks are not enforced by the store, except in `toggleAdminMode`. Gating by role happens in the views.
- Analytics.Ranked: is a stable sort, like JavaScript's `Array.prototype.sort`. That products of equal revenue keep their list order is not proved.
- The analytics ranking sorts a copy. With Dafny's value sequences, the input list cannot be changed at all.
