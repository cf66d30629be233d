# Asset lifecycle, OKR roll-up and roster upsert — a Dafny model

This project models the business rules of an enterprise back-office
application: the asset service and the performance service, plus the shift
change of the roster calendar.

- **Asset service** (`asset_service.dfy`, module `AssetService`). The store is a
  class, `AssetStore`, with two sequences that its methods update in place:
  `assets` and `assignments` (checkout records).
  - `AssignAsset` (checkout) allows only `IN_STOCK → ASSIGNED`. It makes the
    asset `ASSIGNED` to the user at `user-loc-<user>` and appends one open
    assignment record.
  - `ReturnAsset` (check-in) works on any existing asset. It stamps the first
    open assignment of that asset, if there is one. It clears the assignee,
    moves the asset to `warehouse-return-area`, and sets `REPAIR` when the
    asset is damaged and `IN_STOCK` otherwise.
  - `RunDepreciation` is a loop over the store. It deducts the straight-line
    monthly amount `(cost - salvage) / (years * 12)` from every asset that is
    not disposed and is worth more than salvage, clamped at salvage. It
    returns the number of assets processed and the total deducted.
  - `PerformVisualAudit` treats the first two assets as detected. Each detected
    `LOST` asset becomes `IN_STOCK`.
  - Every operation preserves the store invariant `Consistent`:
    - asset ids are unique;
    - an asset has an assignee exactly when it is `ASSIGNED`;
    - an open assignment belongs to the `ASSIGNED` asset held by that
      assignment's user;
    - no asset has two open assignments.

    The seeded store satisfies it (`SeedIsConsistent`). Money and the
    depreciation horizon are `real`.
- **Performance service** (`perf_service.dfy`, module `PerfService`).
  - A key result's percent is `min(100, round(|current - start| / |target - start| * 100))`,
    or 0 when target equals start.
  - An objective's progress is the rounded mean of its key results' percents.
    With no key results, progress is left as it was.
  - `PerfStore.SaveObjective` recomputes progress and upserts by id.
  - `SyncKeyResultProgress` finds the first objective holding the key result,
    copies the linked project's progress into it and saves the objective again.
  - `SubmitReview` stores the answers, marks the session `SUBMITTED` and scores
    it with the mean rating to one decimal.
  - `Math.round(x)` is `floor(x + 0.5)`. `parseFloat(x.toFixed(1))` is rounding
    to the nearest tenth, with halves away from zero.
- **Roster shift change** (`roster_calendar.dfy`, module `RosterCalendar`).
  `HandleShiftChange` is a pure function on the roster list. A locked first
  entry of the (user, date) slot leaves the roster unchanged. Otherwise every
  entry of the slot is removed and one unlocked entry with the new shift is
  appended. That entry keeps the id of the slot's first entry, if there was one.
- `seqs.dfy` (module `Seqs`) holds the two array queries the code is built on.
  `FirstIndex` models `find`/`findIndex`, and `Filter` models `filter`. Both
  come with lemmas: order preservation, multiplicities, narrowing.
  `wrappers.dfy` holds `Option`, `Result` and `Outcome`.

The model follows the code on these points:

- Re-submitting a review overwrites the earlier submission. There is no
  "already submitted" error.
- An objective with no key results keeps its stored progress. It is not reset to 0.
- The visual audit "detects" the first two assets of the store. It does not
  use a list of recognised tags, and it reports the detected count and tags,
  not only the recovered ones.
- Nothing rejects a zero depreciation horizon, a cost below salvage or an empty
  answer list. The model states the first and the last as preconditions. Cost
  at least salvage appears only as a hypothesis of the lemmas that need it.
- A key result's progress is measured as the distance from the start, in either
  direction, so moving away from the target also counts as progress
  (`RegressionCountsAsProgress`).
- JavaScript truthiness is kept. An empty `linked_project_id` counts as no
  link, and an empty current user id approves as `"system"`.

## Model

| member | source | states |
|---|---|---|
| Seqs.FirstIndex | services/assetService.ts:23 | `find`/`findIndex`: the result is the first index whose element satisfies the predicate, and it is absent exactly when no element does |
| Seqs.FirstIndexAt | services/perfService.ts:24 | a satisfying index with no satisfying element before it is what `findIndex` returns |
| Seqs.Filter | services/perfService.ts:17 | `filter`: the result is no longer than the input and holds exactly the input's elements that satisfy the predicate |
| Seqs.FilterCounts | services/perfService.ts:84 | `filter` keeps every matching element as many times as it occurs, and no other element |
| Seqs.FilterAppend | services/perfService.ts:17 | filtering a concatenation is the concatenation of the filters, so store order is kept |
| Seqs.FilterKeepsAll | components/hr/RosterCalendar.tsx:57 | a list whose elements all match is its own filter |
| Seqs.FilterDropsAll | components/hr/RosterCalendar.tsx:57 | a list with no matching element filters to the empty list |
| Seqs.FilterNarrow | components/hr/RosterCalendar.tsx:57 | filtering by a narrower predicate sees through an earlier filter |
| AssetService.Approver | services/assetService.ts:45 | the approver is never empty: it is the current user when that user is given and non-empty, else "system" |
| AssetService.StatusAfterReturn | services/assetService.ts:65 | a return yields REPAIR exactly for DAMAGED and IN_STOCK exactly for GOOD |
| AssetService.Deduction | services/assetService.ts:76-84 | an eligible asset loses min(monthly amount, value above salvage); an ineligible one loses nothing |
| AssetService.Depreciated | services/assetService.ts:76-86 | only the current value changes; ineligible assets are untouched; an eligible value never drops below salvage, never rises when cost >= salvage, and strictly drops when cost > salvage |
| AssetService.DepreciateAll | services/assetService.ts:75-90 | the run maps every asset, position by position, to its depreciated self |
| AssetService.Eligible | services/assetService.ts:76 | the run's guard: an asset is processed when it is not disposed and is worth more than salvage (a definition; its effect is stated by Deduction, EligibleCount and SettledStoreIsFixpoint) |
| AssetService.Monthly | services/assetService.ts:78 | the straight-line monthly amount (a definition; its meaning is stated by MonthlySpreadsCost) |
| AssetService.MonthlySpreadsCost | services/assetService.ts:77-78 | the monthly amount times the number of months of the horizon is exactly cost minus salvage; it is positive when cost exceeds salvage and negative when cost is below salvage |
| AssetService.EligibleCount | services/assetService.ts:88 | the processed count never exceeds the number of assets |
| AssetService.TotalDeduction | services/assetService.ts:87 | the running total of the deductions in store order (a definition; its meaning is stated by TotalIsBookValueDrop, TotalNotNegative and SettledStoreIsFixpoint) |
| AssetService.BookValue | services/assetService.ts:86 | the summed current values of the store; it is not negative when no value is |
| AssetService.TotalIsBookValueDrop | services/assetService.ts:86-87 | the reported total equals the drop in the store's summed book value |
| AssetService.TotalNotNegative | services/assetService.ts:87 | with cost >= salvage for every asset, the reported total is not negative |
| AssetService.SettledStoreIsFixpoint | services/assetService.ts:76 | once no asset is eligible, a run changes nothing and reports count 0 and total 0 |
| AssetService.DepreciatedTimes | services/assetService.ts:86 | repeated runs change only the current value |
| AssetService.RunsReachSalvage | services/assetService.ts:76-86 | once n monthly amounts cover the distance to salvage, n runs leave the value exactly at salvage and the asset is no longer processed |
| AssetService.SalvageIsFixpoint | services/assetService.ts:76 | an asset at or below salvage is unchanged by any number of runs |
| AssetService.RunTimes | services/assetService.ts:70-93 | n successive runs of the whole store, each on the store the previous run left, give every asset exactly n runs of its own |
| AssetService.RunsSettleStore | services/assetService.ts:76-88 | when every asset is disposed, at or below salvage, or within n monthly amounts of salvage, the store after n runs has nothing left to process: a further run counts 0, totals 0 and changes nothing |
| AssetService.CheckoutKeepsConsistent | services/assetService.ts:27-47 | checking out an IN_STOCK asset and appending its open record keeps the store invariant |
| AssetService.CheckinKeepsConsistent | services/assetService.ts:57-66 | closing the first open record and returning the asset keeps the store invariant |
| AssetService.SeedIsConsistent | services/mockAssetData.ts:4-64 | the seeded assets and assignments satisfy the store invariant |
| AssetService.SeedAssets | services/mockAssetData.ts:4-46 | every seeded asset has a positive horizon and costs more than its salvage value, so a run may divide by every horizon |
| AssetService.SeedAssignments | services/mockAssetData.ts:48-64 | every seeded assignment record is still open |
| AssetService.SeedAssetOneRun | services/mockAssetData.ts:5-18 | asset-001 (cost 120000, salvage 10000, 3 years, value 110000) loses 110000/36 in one run |
| AssetService.AssetStore.constructor | services/mockAssetData.ts:4 | the store starts with the given assets and assignments, and satisfies the store invariant when they do |
| AssetService.AssetStore.GetAssets | services/assetService.ts:10-13 | returns all assets in store order |
| AssetService.AssetStore.GetAssignments | services/assetService.ts:15-18 | returns all assignment records in store order |
| AssetService.AssetStore.AssignAsset | services/assetService.ts:21-48 | unknown asset, then non-IN_STOCK status (E-ASSET-001), then unknown user each fail and change nothing; success makes the first asset with the id ASSIGNED to the user at user-loc-<user> and appends exactly one open record with the approver; the store invariant is preserved |
| AssetService.AssetStore.ReturnAsset | services/assetService.ts:51-67 | unknown asset fails and changes nothing; otherwise, whatever the prior status, the first open record of the asset (if any) is stamped and every other record is unchanged; the asset loses its assignee, moves to warehouse-return-area and becomes REPAIR or IN_STOCK; the store invariant is preserved |
| AssetService.AssetStore.RunDepreciation | services/assetService.ts:70-93 | the assets become DepreciateAll of the old assets, the count is the number of eligible assets, the total is the sum of the deductions, the records are unchanged, and the invariant is preserved |
| AssetService.DepreciationRun | services/assetService.ts:72-90 | the loop over the store yields every asset depreciated in place, the number of eligible assets and the sum of their deductions |
| AssetService.RunStep | services/assetService.ts:75-89 | one more asset adds its share to the count and the total, and depreciating it extends the depreciated prefix by one |
| AssetService.DepreciationKeepsConsistent | services/assetService.ts:86 | a run changes only current values, so a consistent store stays consistent |
| AssetService.AssetStore.PerformVisualAudit | services/assetService.ts:96-113 | among the first two assets LOST becomes IN_STOCK; every other asset and status is unchanged; it reports min(2, store size) and those assets' tags in order |
| PerfService.Round | services/perfService.ts:31 | `Math.round` gives the integer within half of its argument, with halves rounded up |
| PerfService.RoundTenths | services/perfService.ts:95 | the score is a whole number of tenths within 0.05 of the mean |
| PerfService.TenthsHalfUp | services/perfService.ts:95 | the number of tenths lies within half a tenth of a non-negative value |
| PerfService.KeyResult.IsLinked | services/perfService.ts:61 | a linked key result has a project id, and an empty project id counts as no link |
| PerfService.KrPercent | services/perfService.ts:29-31 | a key result's percent lies in [0, 100]; it is 0 when target equals start and 100 when the target is reached |
| PerfService.SumPercents | services/perfService.ts:28-33 | the reduce over the key results lies between 0 and 100 per key result |
| PerfService.RollUp | services/perfService.ts:34 | the rounded mean percent lies in [0, 100] |
| PerfService.Recalculated | services/perfService.ts:27-35 | only progress changes; with no key results the objective is unchanged; otherwise progress is the roll-up and lies in [0, 100] |
| PerfService.RecalculatedIdempotent | services/perfService.ts:27-35 | recomputing progress twice is the same as once |
| PerfService.KrPercentMirror | services/perfService.ts:29-30 | a decreasing metric scores the same as the mirrored increasing one |
| PerfService.RegressionCountsAsProgress | services/perfService.ts:30 | a key result from 0 to 100 standing at -50 reports 50% |
| PerfService.RollUpOfUniform | services/perfService.ts:28-34 | when every key result stands at p percent, the objective's progress is p |
| PerfService.SumOfUniform | services/perfService.ts:28-33 | the reduce over n key results at p percent is n * p |
| PerfService.Upsert | services/perfService.ts:37-41 | the store grows by at most one; it grows exactly when no objective had the id, and then the objective is last; otherwise only one slot changes, and it held the same id |
| PerfService.LookupAfterUpsert | services/perfService.ts:24 | after an upsert, finding the id yields the saved objective |
| PerfService.UpsertIdempotent | services/perfService.ts:37-41 | saving the same objective twice is the same as saving it once |
| PerfService.LocateKr | services/perfService.ts:52-59 | the location holds the key result id, no earlier objective holds it, no earlier key result of that objective has it, and it is absent exactly when no objective holds it |
| PerfService.Score | services/perfService.ts:94-95 | the score is a whole number of tenths within 0.05 of the mean rating |
| PerfService.SumRatings | services/perfService.ts:94 | the reduce over the ratings starts from 0, so non-negative ratings sum to a non-negative total |
| PerfService.SumRatingsBounds | services/perfService.ts:94 | ratings in [lo, hi] sum to between lo*n and hi*n |
| PerfService.ScoreOnRatingScale | services/perfService.ts:94-95 | ratings on the 1 to 5 scale give a score in [1.0, 5.0] |
| PerfService.PerfStore.constructor | services/mockPerfData.ts:12 | the store starts with the given objectives and sessions |
| PerfService.PerfStore.GetObjectives | services/perfService.ts:15-18 | returns exactly the objectives of the user in the cycle, in store order |
| PerfService.PerfStore.GetReviewSessions | services/perfService.ts:82-85 | returns exactly the reviewer's sessions in the cycle, in store order |
| PerfService.PerfStore.SaveObjective | services/perfService.ts:21-43 | returns the objective with recomputed progress and upserts it by id; sessions are unchanged |
| PerfService.PerfStore.LocateKeyResult | services/perfService.ts:52-59 | the search loop stops at the first objective holding the id, with the first matching key result there |
| PerfService.PerfStore.StoreSyncedValue | services/perfService.ts:73-76 | the key result takes the new value in place; the recomputed objective sits both where it was found and at the first slot with its id |
| PerfService.PerfStore.SyncKeyResultProgress | services/perfService.ts:46-79 | "Link not found" when no objective holds the id or the key result is unlinked, "Project not found" when the project is missing, with nothing changed in either case; otherwise the key result's value becomes the project's progress, the objective is recomputed, and the result is {updated: true, newVal} |
| PerfService.PerfStore.SubmitReview | services/perfService.ts:87-97 | an unknown session is a silent no-op; otherwise the first session with the id, whatever its status, gets the answers verbatim, SUBMITTED and the one-decimal mean score, and nothing else changes |
| PerfService.ApiLatencyKeyResult | services/mockPerfData.ts:46 | kr-3-1 (start 250, target 100, current 150) is 67% done |
| PerfService.LinearKeyResult | services/mockPerfData.ts:22 | a key result from 0 to 100 standing at 30 is 30% done |
| PerfService.SeedObjectiveRollUp | services/mockPerfData.ts:38-49 | obj-3, with key results at 67% and 45%, saves with progress 56 |
| PerfService.ExampleScore | services/perfService.ts:94-95 | ratings 4, 5 and 3 score 4.0 |
| RosterCalendar.NewEntry | components/hr/RosterCalendar.tsx:49-55 | the written entry belongs to the slot, carries the requested shift and is unlocked |
| RosterCalendar.SlotLocked | components/hr/RosterCalendar.tsx:45-46 | a locked slot has a locked entry at that (user, date) |
| RosterCalendar.SlotLockedAtFirst | components/hr/RosterCalendar.tsx:45-46 | the slot counts as locked exactly when its first entry is locked |
| RosterCalendar.HandleShiftChange | components/hr/RosterCalendar.tsx:44-59 | a locked first entry of the slot leaves the roster unchanged; otherwise the new entry is last |
| RosterCalendar.SlotHoldsOneEntry | components/hr/RosterCalendar.tsx:57-58 | after an accepted change the slot holds exactly one entry, the new one, so every earlier duplicate is removed |
| RosterCalendar.OtherSlotsKept | components/hr/RosterCalendar.tsx:57-58 | the entries of every other slot are kept, in their original order |
| RosterCalendar.KeepsExistingId | components/hr/RosterCalendar.tsx:45-50 | the new entry keeps the id of the slot's first entry, or takes the fresh id |
| RosterCalendar.ShiftChangeKeepsSlotsUnique | components/hr/RosterCalendar.tsx:44-58 | a roster with one entry per slot keeps one entry per slot |
| RosterCalendar.LockedDuplicateDropped | components/hr/RosterCalendar.tsx:45-57 | only the slot's first entry is checked for the lock, so a locked later duplicate is removed too |

## Left out

- Asynchrony: `delay`, `setTimeout` and `await` are gone. Every service call is a synchronous method.
- Clock and id sources: `new Date()` stamps and `Date.now()` ids are parameters (`today`, `newId`, `freshId`). A date stamp is a non-empty string (`Date`), as an ISO date always is.
- External collaborators are parameters:
  - the user directory is the set `users` of `AssignAsset`;
  - the project tracker is the list `projects` of `SyncKeyResultProgress`.
- `AssetService.AssetStore.PerformVisualAudit` ignores its image argument, as the code does.
- `AssetService.DepreciationRun` computes the run on a copy of the asset list, and `RunDepreciation` stores the result once. In the code, each asset object is updated in place during the `forEach`. Nothing else observes the store in between, so the final state is the same.
- The formatted message of `runDepreciation` is left out. The method returns the count and the exact total, without the `Math.round` used only for display.
- Floating point: all arithmetic is exact (`real`). The following binary-float effects are not captured:
  - the rounding of `Math.round` and `toFixed` near halves;
  - `parseFloat`;
  - the accumulated error of the running total.
- Division by zero:
  - `RunDepreciation` requires a positive horizon for every asset it processes. With a zero horizon JavaScript would produce Infinity or NaN. With a negative horizon JavaScript divides without error: the monthly amount is negative and the asset's value rises. The model excludes that case as well.
  - `SubmitReview` requires a non-empty answer list when the session exists. JavaScript would store a NaN score.
- Aliasing beyond what the code itself relies on:
  - The model keeps one aliasing effect: the synced objective is written both where it was found and at the first slot with its id.
  - `getAssets`/`getAssignments` return shallow copies whose elements are the stored objects. Later mutations through them are not modelled.
  - `saveObjective` also mutates the caller's object. The model returns the saved objective instead.
- `generateAIReview` is left out. It is free-text templating over task data.
- `getActiveCycle` is left out. It returns a constant.
- The rendering components and all of `RosterCalendar` except `handleShiftChange` are left out. So are the mock roster generator, which depends on the current calendar date, and attendance punching.
