# Prediction store: a verified model

This project models the client-side prediction cache of `lib/stores/predictions-store.ts`. The cache keeps four ordered datasets: scoped (`annualPredictions`, `quarterlyPredictions`) and platform-wide (`systemAnnualPredictions`, `systemQuarterlyPredictions`). Each dataset has a pagination record. The cache also keeps the flags `isLoading`, `isFetching` and `isInitialized`, the `lastFetched` timestamp, the last `error` and the `activeDataFilter` view selector.

The model has these layers:

- **Values** and **Text**: JavaScript truthiness (`a || b` on numbers and strings), `toUpperCase` and `includes`.
- **Entities**: the `Prediction` record, the user, and the tolerated response shapes (`Payload`).
- **Scope**: the role decisions. `getDefaultFilterForUser` picks the default view. The fetch strategy is platform-only for `super_admin`. A scoped record's label comes from `access_level || organization_access || role fallback`.
- **Paging**: pagination records and their invariant `hasMore == (currentPage < totalPages)`.
- **Normalizer**: the `.map` transforms of a response into canonical records.
- **Display**: `getPredictionProbability`, `getRiskBadgeColor` (as a category) and `formatPredictionDate`.
- **Cache**: the state record as a value (`Snapshot`) and every store action as a transition on it. The asynchronous `fetchPredictions` has four parts: `Begin` (the guards, the identity check and the call plan), `CommitPlatformOnly`, `CommitScopedPlusPlatform`, and `Fail` (the `catch`).
- **CacheProperties**: properties that relate several transitions.
- **Store**: the class `PredictionsStore`. Its fields are the state record. Each action updates the fields in place, is proved to perform the matching `Cache` transition, and keeps the pagination invariant.
- **Findings**: the regular-role commit as written, with the defect described below.

Inputs the store reads from its environment are parameters:

- the current user, for `useAuthStore.getState().user`;
- the current time, for `Date.now()`;
- the current year as text, for `new Date().getFullYear().toString()`;
- the settled endpoint responses, or the rejection error.

The source differs from a plain reading of the store's intent in four places. The model follows the code in each:

- `replacePrediction` maps **every** entry whose id equals `tempId`, not only the first.
- A scoped record without a backend label gets `organization` only for `org_admin` and `org_member`. A `tenant_admin`'s unlabelled records get `personal`, although the default view for `tenant_admin` is `organization` (`Scope.TenantAdminLabelDiffersFromView`).
- The scope label is not restricted to `personal`, `organization` and `system`. Any non-empty `access_level` or `organization_access` from the backend is copied as is.
- Nothing stops a response that settles after `reset` (or after logout) from being committed. There is no fetch-cycle token (`CacheProperties.CommitAfterResetRepopulates`).

## Model

| member | source | states |
|---|---|---|
| `Values.OrZero` | lib/stores/predictions-store.ts:273 | `x \|\| 0`: a present non-zero number is kept, anything else reads 0 |
| `Values.IntOr` | lib/stores/predictions-store.ts:335-336 | `pages \|\| 1`, `total \|\| length`: an absent or zero count falls back to the default |
| `Values.FirstTruthy` | lib/stores/predictions-store.ts:782-788 | an `a \|\| b \|\| ... \|\| 0` chain yields the first truthy number, and 0 when none is truthy |
| `Text.UpperChar` | lib/stores/predictions-store.ts:791 | a lower-case letter becomes the capital at the same position of the alphabet, any other character is unchanged, and the result is never a lower-case letter |
| `Text.Upper` | lib/stores/predictions-store.ts:289 | `toUpperCase` keeps the length and upper-cases each character in place |
| `Text.UpperIdempotent` | lib/stores/predictions-store.ts:791 | upper-casing twice equals upper-casing once |
| `Text.IncludedCharsOccur` | lib/stores/predictions-store.ts:442 | a message that includes the marker contains each of the marker's characters |
| `Text.Includes` | lib/stores/predictions-store.ts:442 | `s.includes(sub)` as a scan from the left: it finds `sub` only when `sub` is no longer than `s`, and always finds the empty string. `Text.IncludesIffOccurs` gives its full meaning |
| `Text.IncludesIffOccurs` | lib/stores/predictions-store.ts:442 | `message.includes('unauthorized')` holds exactly when the marker occurs at some offset of the message |
| `Scope.DefaultFilterForUser` | lib/stores/predictions-store.ts:660-690 | the default view is one of personal, organization and system. It is system exactly for `super_admin` and organization exactly for `org_admin`, `org_member` and `tenant_admin`. A missing user or any other role gets personal |
| `Scope.StrategyFor` | lib/stores/predictions-store.ts:246 | the platform-only strategy is chosen exactly for the role whose default view is the platform view |
| `Scope.UserRecordAccess` | lib/stores/predictions-store.ts:512-513 | a scoped record takes a non-empty `access_level`, else a non-empty `organization_access`. Otherwise it gets `organization` exactly for `org_admin`/`org_member`, and `personal` for every other role. The label is never empty |
| `Scope.TenantAdminLabelDiffersFromView` | lib/stores/predictions-store.ts:512-513 | an unlabelled record fetched for `tenant_admin` is labelled `personal`, while that role starts on the organization view |
| `Paging.InitialPagination` | lib/stores/predictions-store.ts:169-175 | the initial pagination is on page 1 of 0 with page size 100, no items and nothing more, and satisfies the hasMore invariant |
| `Paging.AfterFetch` | lib/stores/predictions-store.ts:408-414 | after a fetch the pagination is on page 1 with the request's page size. The page count is `pages \|\| 1`, so never zero, and the item count is `total \|\| length`. `hasMore` holds exactly when the response reports more than one page, so the invariant holds |
| `Normalizer.ItemList` | lib/stores/predictions-store.ts:472-475 | `data?.items \|\| data?.predictions \|\| data \|\| []` read through `Array.isArray` (lines 500, 532, 562, 576). A missing body gives `[]` and an array body its records. A truthy non-array scalar gives no list. For an object body, a truthy `items` is chosen, else a truthy `predictions`; there is a list exactly when the chosen field is an array. An object body with neither field is itself chosen and is not an array |
| `Normalizer.MetaPages` | lib/stores/predictions-store.ts:410 | `data?.pages`: the object body's `pages`, absent for any other body |
| `Normalizer.MetaTotal` | lib/stores/predictions-store.ts:411 | `data?.total`: the object body's `total`, absent for any other body |
| `Normalizer.YearText` | lib/stores/predictions-store.ts:275 | a non-empty reporting year is kept, otherwise the current year is used |
| `Normalizer.QuarterCode` | lib/stores/predictions-store.ts:289 | a non-empty quarter is upper-cased, an absent or empty one becomes `Q1`. The result is never empty and has no lower-case letter |
| `Normalizer.RatiosFor` | lib/stores/predictions-store.ts:277-296 | an annual record gets `ltdtc`, `roa` and `ebitint` from `long_term_debt_to_total_capital`, `return_on_assets` and `ebit_to_interest_expense`. A quarterly record gets `ltdtc`, `sga`, `roa` and `tdte` from `long_term_debt_to_total_capital`, `sga_margin`, `return_on_capital` and `total_debt_to_ebitda`, so its `roa` slot holds the return on capital |
| `Normalizer.NormalizeRecord` | lib/stores/predictions-store.ts:562-589 | `default_probability` is the family's primary probability (`probability` annual, `logistic_probability` quarterly) if set, else 0. `risk_category` copies `risk_level`, the year and (quarterly) quarter are resolved, the scope label and the family's ratio subset are attached. Every other field of the raw record is carried over unchanged |
| `Normalizer.NormalizeBatch` | lib/stores/predictions-store.ts:500-529 | the transform keeps the batch's length and order: entry i is the normalization of raw entry i with its own scope label |
| `Normalizer.NormalizeResponse` | lib/stores/predictions-store.ts:264-282 | the dataset is empty when the chosen value is not an array. Otherwise entry i is chosen item i normalized under the dataset's own family (annual or quarterly) and with the label its origin assigns |
| `Normalizer.SystemRecordsAreSystem` | lib/stores/predictions-store.ts:561-573 | every record of a platform-wide batch is labelled `system` |
| `Normalizer.UserRecordsTakeResolvedLabel` | lib/stores/predictions-store.ts:531-559 | each record of a scoped batch carries the label resolved from its own fields and the user's role |
| `Normalizer.ProcessAll` | lib/stores/predictions-store.ts:462-623 | each of the four datasets is its own response's item list, entry by entry, normalized with its own family. The user datasets take each record's resolved label for the user's role, and the platform datasets are labelled `system`. A non-array response empties only its own dataset |
| `Display.PredictionProbability` | lib/stores/predictions-store.ts:782-788 | the displayed probability is `default_probability` if set, else `probability`, else `logistic_probability`, else `ensemble_probability`, else 0 |
| `Display.NormalizedProbabilityIsPrimary` | lib/stores/predictions-store.ts:519 | a normalized record whose primary probability is set displays that probability |
| `Display.QuarterlyProbabilityResolution` | lib/stores/predictions-store.ts:578 | a quarterly record with only a logistic probability displays it, and with none displays 0 |
| `Display.RiskBadgeFor` | lib/stores/predictions-store.ts:790-803 | the badge is Low, Medium, High or Critical exactly when the upper-cased level is LOW, MEDIUM, HIGH or CRITICAL. Anything else, including a missing level, is Unknown |
| `Display.RiskBadgeIgnoresCase` | lib/stores/predictions-store.ts:791 | the badge does not depend on the letter case of the level |
| `Display.FormatPredictionDate` | lib/stores/predictions-store.ts:805-810 | with a quarter the label is the quarter, a space and the year as the template renders it. Without one it is the year. It is `Unknown` exactly when neither is set (or the year is literally `Unknown`) |
| `Display.NormalizedQuarterlyLabel` | lib/stores/predictions-store.ts:581 | a normalized quarterly record is labelled `<upper-cased quarter or Q1> <resolved year>` |
| `Display.NormalizedAnnualLabel` | lib/stores/predictions-store.ts:566 | a normalized annual record without a quarter is labelled with its resolved year |
| `Cache.Initial` | lib/stores/predictions-store.ts:155-198 | the initial state has empty datasets, is not fetching, not initialized and error-free, and satisfies the pagination invariant |
| `Cache.IsFresh` | lib/stores/predictions-store.ts:221 | the guard's freshness test: it holds only for an initialized store whose non-zero `lastFetched` lies less than 30 minutes before now; an uninitialized store or a missing or zero timestamp is never fresh |
| `Cache.Calls` | lib/stores/predictions-store.ts:249-261 | a platform-only plan issues two calls, a scoped-plus-platform plan four |
| `Cache.PlanFor` | lib/stores/predictions-store.ts:243-383 | the plan is platform-only exactly for the platform-only strategy. It then calls the platform annual and quarterly endpoints; otherwise it calls the user annual, user quarterly, platform annual and platform quarterly endpoints. Every call asks for the current page and the page size of its own endpoint's pagination |
| `Cache.Begin` | lib/stores/predictions-store.ts:200-240 | a request is dropped, with no change and no call, exactly when a fetch is in flight or (unforced) the data is under 30 minutes old. Otherwise a missing user records `User not authenticated` and releases the flag without a call. Otherwise the error is cleared, the flags are set, and the calls are exactly `PlanFor` of the state and user: 2 for super_admin, 4 otherwise. No cached data changes |
| `Cache.CommitPlatformOnly` | lib/stores/predictions-store.ts:320-347 | the scoped datasets become empty and the platform datasets their normalized responses. The view is forced to system, the timestamp is set and the flags are released. Platform paginations are rebuilt from the responses with their old page size; the scoped paginations stay |
| `Cache.CommitScopedPlusPlatform` | lib/stores/predictions-store.ts:386-437 | all four datasets take their normalized responses and the view is the user's default. Each of the four paginations is rebuilt from its own response's `pages` and `total`, its dataset's length and its call's page size, and all satisfy the invariant. The timestamp is set and the flags are released |
| `Cache.FailureMessage` | lib/stores/predictions-store.ts:454 | an ordinary failure's message is the error's non-empty message, else `Failed to fetch predictions`; never empty |
| `Cache.IsAuthError` | lib/stores/predictions-store.ts:442 | a failure is an authentication failure exactly when its status is 401 or its message contains `unauthorized` at some offset |
| `Cache.Fail` | lib/stores/predictions-store.ts:440-458 | the flags are released. The error is cleared exactly for an authentication failure (status 401 or an `unauthorized` message), otherwise the message is recorded. Datasets, paginations, timestamp, initialized flag and view are unchanged |
| `Cache.AddLocal` | lib/stores/predictions-store.ts:698-725 | the record goes to the front of the dataset of its kind on the side its `system` label selects. The other three datasets and everything else are unchanged |
| `Cache.ReplaceById` | lib/stores/predictions-store.ts:735-737 | the length is kept, every entry with `tempId` becomes the new record, every other entry stays in place |
| `Cache.ReplaceByIdNoMatch` | lib/stores/predictions-store.ts:735-737 | with no entry carrying `tempId` the dataset is unchanged |
| `Cache.ReplaceByIdRemovesPlaceholder` | lib/stores/predictions-store.ts:735-737 | when the new record's id differs, no entry carries `tempId` afterwards |
| `Cache.ReplaceLocal` | lib/stores/predictions-store.ts:728-762 | only the dataset selected by the new record's label and the kind is rewritten, by `ReplaceById`; everything else is unchanged |
| `Cache.RemoveById` | lib/stores/predictions-store.ts:770 | the result holds no entry with the id, only entries of the input, and every input entry with another id |
| `Cache.RemoveByIdConcat` | lib/stores/predictions-store.ts:770 | the filter distributes over concatenation, so survivors keep their relative order |
| `Cache.RemoveByIdIdempotent` | lib/stores/predictions-store.ts:770 | filtering an id twice equals filtering it once |
| `Cache.RemoveLocal` | lib/stores/predictions-store.ts:765-779 | both datasets of the kind are filtered and hold no entry with the id. The other kind's datasets and everything else are unchanged |
| `Cache.RemoveLocalIdempotent` | lib/stores/predictions-store.ts:765-779 | removing twice equals removing once |
| `Cache.Visible` | lib/stores/predictions-store.ts:626-658 | under the `system` filter the view is the platform dataset of the kind, verbatim; under any other filter the scoped one |
| `Cache.SetFilter` | lib/stores/predictions-store.ts:692-695 | only the view selector changes |
| `Cache.Invalidate` | lib/stores/predictions-store.ts:816-821 | only the timestamp (cleared) and the initialized flag (false) change |
| `Cache.ClearError` | lib/stores/predictions-store.ts:823 | only the error changes, to none |
| `CacheProperties.SecondFetchWhileInFlightIsDropped` | lib/stores/predictions-store.ts:214-218 | once a fetch has started, any further request is dropped without a change |
| `CacheProperties.MissingUserIssuesNoCall` | lib/stores/predictions-store.ts:230-237 | without a user the request records the error, releases the flag, issues no call and keeps the data |
| `CacheProperties.FreshnessWindow` | lib/stores/predictions-store.ts:221-224 | in any initialized, idle state fetched at a non-zero time t0, an unforced request is dropped exactly when less than 30 minutes have passed |
| `CacheProperties.FreshnessWindowAfterCommit` | lib/stores/predictions-store.ts:221 | after the commit of a non-super_admin fetch at a non-zero time t0, an unforced request is dropped exactly when less than 30 minutes have passed |
| `CacheProperties.FreshnessWindowAfterPlatformCommit` | lib/stores/predictions-store.ts:329 | after the commit of a super_admin fetch at a non-zero time t0, the same 30-minute window holds |
| `CacheProperties.FreshnessWindowExample` | lib/stores/predictions-store.ts:221 | 29 minutes after a commit no call is issued; 31 minutes after, the fetch starts |
| `CacheProperties.InvalidatePassesGuard` | lib/stores/predictions-store.ts:816-821 | after invalidation, when no fetch is in flight, an unforced request starts a fetch, and both views still show the same data |
| `CacheProperties.SuperAdminFetch` | lib/stores/predictions-store.ts:246-347 | a super_admin fetch issues two calls. Its commit empties the scoped datasets and shows exactly the platform datasets, all labelled `system` |
| `CacheProperties.RegularFetch` | lib/stores/predictions-store.ts:356-437 | any other role's fetch issues four calls. Its commit starts on the role's default view, which is not the platform view, and shows the normalized scoped responses |
| `CacheProperties.PlainUserScenario` | lib/stores/predictions-store.ts:512-513 | for role `user`, the annual view is exactly the two records, in order, each normalized and labelled `personal`, and the view is personal |
| `CacheProperties.SuperAdminEmptyQuarterScenario` | lib/stores/predictions-store.ts:340-346 | for super_admin an empty quarterly response gives an empty dataset with `hasMore` false and empty scoped datasets |
| `CacheProperties.FailureKeepsCache` | lib/stores/predictions-store.ts:440-458 | a failed fetch leaves datasets, paginations, timestamp, initialized flag and view as before the request. The flag is released, and an auth failure leaves no error |
| `CacheProperties.TransitionsPreserveConsistency` | lib/stores/predictions-store.ts:692-823 | begin, fail, add, replace, remove, set filter, invalidate and clear error all keep the pagination invariant |
| `CacheProperties.PlatformOnlyCommitPreservesConsistency` | lib/stores/predictions-store.ts:333-346 | the super_admin commit keeps the pagination invariant |
| `CacheProperties.EveryFetchAsksForFirstPage` | lib/stores/predictions-store.ts:253-260 | the initial state and every transition keep all four paginations on page 1, so every call a fetch issues asks for page 1 |
| `CacheProperties.AddedRecordVisibility` | lib/stores/predictions-store.ts:698-725 | an added record shows first in the view of its own side and kind, and the other side's view is unchanged |
| `CacheProperties.ReplacedRecordVisibility` | lib/stores/predictions-store.ts:728-762 | after a replacement on the viewed side the view has the same length. The confirmed record is at every placeholder position, and when its id differs from the placeholder id the placeholder id is gone |
| `CacheProperties.ReplaceAcrossScopesKeepsPlaceholder` | lib/stores/predictions-store.ts:731-761 | a confirmed record whose label selects a side that holds no placeholder changes nothing, even if the other side holds one |
| `CacheProperties.RemovedRecordVisibility` | lib/stores/predictions-store.ts:765-779 | after removal neither side of the kind holds the id, the view is the old view filtered in order, and the other kind's view is unchanged |
| `CacheProperties.CommitAfterResetRepopulates` | lib/stores/predictions-store.ts:386-437 | a commit applied to the reset state repopulates it: there is no cycle guard |
| `Store.PredictionsStore.constructor` | lib/stores/predictions-store.ts:155-198 | a new store holds the initial state and satisfies the invariant |
| `Store.PredictionsStore.BeginFetch` | lib/stores/predictions-store.ts:200-240 | updates the fields as `Cache.Begin` and returns its outcome, keeping the invariant |
| `Store.PredictionsStore.Refetch` | lib/stores/predictions-store.ts:812-814 | performs a forced `BeginFetch` |
| `Store.PredictionsStore.Assign` | lib/stores/predictions-store.ts:396-437 | one `set` of a whole state record: the fields take the record's values |
| `Store.PredictionsStore.CommitPlatformOnly` | lib/stores/predictions-store.ts:320-347 | updates the fields as `Cache.CommitPlatformOnly`, keeping the invariant |
| `Store.PredictionsStore.CommitScopedPlusPlatform` | lib/stores/predictions-store.ts:386-437 | updates the fields as `Cache.CommitScopedPlusPlatform`, keeping the invariant |
| `Store.PredictionsStore.Fail` | lib/stores/predictions-store.ts:440-458 | updates the fields as `Cache.Fail`, keeping the invariant |
| `Store.PredictionsStore.GetFilteredPredictions` | lib/stores/predictions-store.ts:626-658 | returns the platform dataset of the kind under the `system` filter and the scoped one otherwise |
| `Store.PredictionsStore.SetDataFilter` | lib/stores/predictions-store.ts:692-695 | updates the fields as `Cache.SetFilter` |
| `Store.PredictionsStore.AddPrediction` | lib/stores/predictions-store.ts:698-725 | updates the fields as `Cache.AddLocal` |
| `Store.PredictionsStore.ReplacePrediction` | lib/stores/predictions-store.ts:728-762 | updates the fields as `Cache.ReplaceLocal` |
| `Store.PredictionsStore.RemovePrediction` | lib/stores/predictions-store.ts:765-779 | updates the fields as `Cache.RemoveLocal` |
| `Store.PredictionsStore.InvalidateCache` | lib/stores/predictions-store.ts:816-821 | updates the fields as `Cache.Invalidate` |
| `Store.PredictionsStore.ClearError` | lib/stores/predictions-store.ts:823 | updates the fields as `Cache.ClearError` |
| `Store.PredictionsStore.Reset` | lib/stores/predictions-store.ts:825-865 | restores exactly the initial state, from any state |
| `Findings.ProcessAllAsWritten` | lib/stores/predictions-store.ts:484-497 | as written the processing throws exactly when the user-annual or platform-annual chosen value is not an array; otherwise it yields `ProcessAll` |
| `Findings.DiagnosticsError` | lib/stores/predictions-store.ts:485-497 | the thrown `TypeError` has no status and a message, and is never an authentication error |
| `Findings.NoMarkerLetterNoAuth` | lib/stores/predictions-store.ts:442 | a status-less error whose message has no letter `z` cannot be an authentication error |
| `Findings.CommitScopedPlusPlatformAsWritten` | lib/stores/predictions-store.ts:384-458 | as written such a throw ends the fetch in the `catch` instead of the commit: the cache is kept and the error's message is recorded |
| `Findings.ObjectBodyAbortsRegularFetch` | lib/stores/predictions-store.ts:472-497 | for a user-annual body `{pages: 1}`, the fetch as written keeps the old cache and records an error. The intended result commits an empty user-annual dataset and the other responses |
| `Findings.PlatformOnlyToleratesObjectBody` | lib/stores/predictions-store.ts:264-282 | the super_admin branch, which has no such diagnostics, commits an empty dataset for the same body |

## Findings

| source | as written | input that shows it | evidently intended | confidence | as-written member | corrected member |
|---|---|---|---|---|---|---|
| lib/stores/predictions-store.ts:484-497 | The diagnostics call `userAnnualData.slice(0, 2).map(...)` and `systemAnnualData.slice(0, 2).map(...)` before the `Array.isArray` guards at lines 500 and 562. An object or number there has no `slice`, and a string's slice has no `map`, so a `TypeError` is thrown and the `catch` treats it as an ordinary failure | a regular-role fetch whose user-annual response body is `{pages: 1}` (no `items`, no `predictions`) | that dataset becomes `[]` and the other three responses are committed, as the guards and the super_admin branch do | medium, not executed (a build step that strips console calls would remove the throw) | `Findings.ProcessAllAsWritten`, `Findings.CommitScopedPlusPlatformAsWritten`, `Findings.ObjectBodyAbortsRegularFetch` | `Normalizer.ProcessAll` |

## Left out

- The zustand `create`/`set`/`get` wrapper. The store is a plain class, and each `set` is a group of field assignments.
- The `auth-logout` window listener. Only the `reset` it calls is modelled.
- The endpoint calls, `Promise.all` and `await`. A fetch is a `Begin` step that returns the call plan, followed by one commit step or a `Fail` step. The commit step takes the settled responses and `Fail` takes the rejection. The interleaving of other actions between these steps is left to the caller.
- `Date.now()` and the current calendar year. Both are parameters. The year is passed as its decimal text.
- `console.log` diagnostics and the sample and breakdown reductions. The one throwing side effect of the diagnostics is kept, under Findings.
- The Tailwind class strings of `getRiskBadgeColor`. The result is the category it selects.
- The values of probabilities and ratios. They are opaque numbers, tested only for being absent or zero. `NaN`, which JavaScript also treats as falsy, is not represented.
- Unicode case mapping. `toUpperCase` is modelled on the ASCII letters only.
- Record fields the store never reads or sets: the interface's `sector`, `model_type` and `model_version`, and any other backend field. The spread copies them unchanged, but the model does not represent them.
- `null` entries in an item array. The callbacks read a field of each entry (`pred.company_symbol` at line 502, `pred.probability` at line 273), so a `null` entry throws a `TypeError` and the fetch ends as an ordinary failure. Records in the model cannot be `null`.
- A non-string `reporting_quarter` in a quarterly record. The model takes quarters as text, so the `TypeError` the source would throw there is not represented. Likewise a `type` argument other than `'annual'` or `'quarterly'` is not represented; the source treats it as quarterly.
- `Cache.CommitPlatformOnly` and `Cache.CommitScopedPlusPlatform` take the call plan rather than the state captured at entry. `Cache.Begin` and `Cache.PlanFor` state that the plan carries the page sizes of that state's paginations.
- `null` fields. An absent field and a `null` one are both `None`. In `formatPredictionDate` the template renders a missing year as `undefined`, and the model uses that text also where the source would render `null`.
- The exact `TypeError` text. `Findings.DiagnosticsError` uses the message an object body produces; a string body fails one call later with a different text, and the engine's wording may vary. None of these texts has a status or the `unauthorized` marker.
