# Loan back-office: sync, listing and table logic in Dafny

This project models the data logic of a loan back-office web app. Staff of a lender use the app to browse loan applications that live in an upstream CMS. Four parts are modelled:

- **The two sync routes.** They copy upstream `Application` records into the local `application_records` table. The incremental route, `POST /api/application/sync/super`, runs behind a five-minute lock row. It pages through the upstream, keeps only the records after a stored `(update_time, id)` cursor, upserts them and advances the cursor page by page. The older route, `POST /api/application/sync`, makes one request filtered by the `last_synced_at` stamp.
- **The listing route**, `GET /api/application-records`. It turns query parameters into a clause-by-clause query on the local table. That covers order, date bounds, status, branch restriction, search and the page range. It also maps each stored row back to the `Application` shape.
- **The three-box date field.** This covers its validation, the input, blur and key handlers, and the arrow-key stepping of day, month and year.
- **Client-side table logic.** This covers the helpers of `utils/functions.ts` and the memoised computations of the two tables: query strings, page count, client filter, page slice, per-page sort and header columns.

Modules:
- `Js`: the JavaScript values and string primitives used: `String(n)`, `padStart`, `join`/`split`, `parseInt`.
- `JsDate`: the `Date` constructor and its getters, on the Gregorian calendar.
- `Records`: the field-renaming mapper.
- `SyncStore`: the lock row, the state row and the record table, as a class.
- `SuperSync`, `SuperSyncProperties`: the incremental sync.
- `SuperSyncServed`: the incremental sync over an upstream that serves a sorted record set page by page, including the cursor that stalls.
- `LegacySync`: the older sync route.
- `RecordsListing`: the listing route.
- `DateInput`: the date field, as a class.
- `DateUtils`: the helpers of `utils/functions.ts`.
- `TableView`: the parts both tables share.
- `HomeContent`, `ApplicationContent`: the two tables.

Storage, the upstream and the clock are parameters:
- the upstream is the sequence of answers to page requests 1, 2, ...; `SuperSyncServed` derives these answers from the upstream's records sorted by (update_time, id), the run's `update_time__gte` threshold and the page number;
- whether each datastore statement fails is a boolean: the lock read, lock write and lock delete, the state read, and each page's upsert and state write;
- `now` is an integer of milliseconds;
- `encodeURIComponent` and `toLowerCase` are function parameters.

## Model

| member | source | states |
|---|---|---|
| Records.MapRecord | app/api/application/sync/super/route.ts:99-148 | Each upstream record maps to a row with the same `id` and `update_time`. |
| Records.UnmapRecord | app/api/application/sync/super/route.ts:99-148 | Reading the renaming backwards gives back the record's `id` and `update_time`. |
| Records.MapRecordRoundTrip | app/api/application/sync/super/route.ts:99-148 | The renaming loses no field. Unmapping a mapped record gives the record back, and mapping an unmapped row gives the row back. |
| Records.MapRecordInjective | app/api/application/sync/super/route.ts:99-148 | Two different upstream records never map to the same row. |
| Records.MapRecords | app/api/application/sync/route.ts:80-145 | `list.map(...)` yields one row per record. |
| SyncStore.UpsertRowsKeys | app/api/application/sync/super/route.ts:151-153 | After `upsert(rows, { onConflict: "id" })` the table holds exactly its old ids plus the ids of the batch. |
| SyncStore.UpsertRowsStored | app/api/application/sync/super/route.ts:151-153 | In a batch with distinct ids, every row is stored under its id exactly as supplied. |
| SyncStore.UpsertRowsKeepsBranch | app/api/application/sync/super/route.ts:151-153 | The upsert never writes `branch_uuid`. A stored row keeps it, and a new row gets null. |
| SyncStore.UpsertRowsUntouched | app/api/application/sync/super/route.ts:151-153 | A stored row whose id the batch does not supply is unchanged. |
| SyncStore.Store.WriteLock | app/api/application/sync/super/route.ts:36-38 | The lock row becomes `locked_at = now`, and stays as it was when the statement fails (the route ignores the error). |
| SyncStore.Store.DeleteLock | app/api/application/sync/super/route.ts:175-183 | The lock row is gone, and stays as it was when the delete fails (the route ignores the error). |
| SyncStore.Store.WriteState | app/api/application/sync/super/route.ts:160-167 | The state row becomes the given stamp and cursor, and stays as it was when the statement fails (the route ignores the error). |
| SyncStore.Store.StampSyncedAt | app/api/application/sync/route.ts:170-185 | An accepted stamp write sets `last_synced_at = now` and keeps a stored cursor. A rejected one changes nothing and is reported. |
| SyncStore.Store.UpsertRecords | app/api/application/sync/super/route.ts:151-156 | The upsert fails iff the datastore rejects it or the batch repeats an id. An accepted upsert merges the rows into the table; a failed one leaves the table as it was and is reported. |
| SuperSync.CursorFilter | app/api/application/sync/super/route.ts:85-91 | The filtered batch is never longer than the page, and with no cursor timestamp it is the whole page. |
| SuperSync.CursorFilterMembers | app/api/application/sync/super/route.ts:85-91 | A record is kept iff it is on the page and strictly after the cursor in (update_time, id) order. |
| SuperSync.PageStep | app/api/application/sync/super/route.ts:72-96 | A stopping page aborts the run iff the answer is an error or its `rows` cannot be filtered (a non-empty string or an array-like object, on which `.filter` throws); `rows` without a truthy length stops the run cleanly. A page yields a batch iff it answered rows with a non-empty filtered batch, and that batch is the filtered page. |
| SuperSync.RunFromPlan | app/api/application/sync/super/route.ts:56-172 | The page-by-page run ends with exactly the table, state row, count, request count and verdict of the reference plan. |
| SuperSync.SyncPage | app/api/application/sync/super/route.ts:72-167 | One loop pass: a stopping page (an error answer, `rows` that cannot be filtered, an empty page or an empty filtered batch) writes nothing. A batch upserts its mapped rows unless the upsert fails, and moves the stored cursor to its last record with a fresh stamp unless the state write fails; either failure is ignored and the loop goes on. |
| SuperSync.SyncPages | app/api/application/sync/super/route.ts:52-172 | The loop upserts exactly the plan's batches whose statements succeed, leaves the state row as the last successful state write set it, requests its pages with one fixed threshold, reports the sum of the batch lengths (failed statements included) and reports an abort iff the plan aborts. |
| SuperSync.Post | app/api/application/sync/super/route.ts:7-189 | A missing API URL gives 500 and a live lock gives 429, both with no write and no request; a failed lock read counts as no lock. Otherwise the lock is taken (unless that write fails), the plan from the stored cursor is carried out (from the default cursor when there is none or the state read fails), and the lock is deleted on success and on failure alike (unless the delete fails, which leaves the lock row in place). Failed upserts and state writes are ignored. |
| SuperSyncProperties.LockExpires | app/api/application/sync/super/route.ts:26-34 | A lock written at `t` blocks runs until `t + 300000` ms and no longer. An age of exactly 300000 ms is reclaimable, and no lock row never blocks. |
| SuperSyncProperties.FailedReleaseBlocks | app/api/application/sync/super/route.ts:20-38 | A lock left behind by a failed delete blocks every run with a successful lock read for 300000 ms from its stamp and no longer; a failed lock read never blocks. |
| SuperSyncProperties.StateReadFailureRewinds | app/api/application/sync/super/route.ts:41-63 | A failed state read starts from the default cursor whatever is stored: the requests look back one hour from now and every batch is its whole upstream page. |
| SuperSyncProperties.FilterBoundary | app/api/application/sync/super/route.ts:85-91 | At the cursor's timestamp only larger ids pass. Later timestamps always pass and earlier ones never do. |
| SuperSyncProperties.NoCursorTimestamp | app/api/application/sync/super/route.ts:57-63 | Without a cursor timestamp every record passes and the request looks back one hour from now. |
| SuperSyncProperties.FilterIsSubsequence | app/api/application/sync/super/route.ts:85-91 | The filtered batch keeps the page's order. |
| SuperSyncProperties.PlanBatches | app/api/application/sync/super/route.ts:82-171 | Batch k is the non-empty filtered page k+1, and every batch but the last is full (500). |
| SuperSyncProperties.PlanFetches | app/api/application/sync/super/route.ts:82-171 | A run requests one page per batch, plus the stopping page unless the last batch was short. It aborts iff that stopping page was an error or answered `rows` that cannot be filtered. |
| SuperSyncProperties.FullPagesKeepFetching | app/api/application/sync/super/route.ts:169-171 | While pages keep yielding full batches, the run keeps requesting pages. |
| SuperSyncProperties.CommittedAfterCursor | app/api/application/sync/super/route.ts:85-91 | Every committed record lies after the cursor the run started from. |
| SuperSyncProperties.NothingNew | app/api/application/sync/super/route.ts:82-96 | With no record after the cursor, the run commits nothing, leaves the table and state row alone and reports 0. |
| SuperSyncProperties.BoundaryScenario | app/api/application/sync/super/route.ts:85-167 | With cursor (T, 42) and a page of id 42 at T and id 43 at T+1s, only 43 is committed, the count is 1 and the cursor becomes (T+1s, 43). |
| SuperSyncProperties.CursorAdvances | app/api/application/sync/super/route.ts:159-167 | The cursor written for a passing record is strictly later than the old one and rejects that record and every earlier one. |
| SuperSyncProperties.FilterUpwardClosed | app/api/application/sync/super/route.ts:85-91 | On a page sorted by (update_time, id), once a record passes every later one does. |
| SuperSyncProperties.FilterKeepsLast | app/api/application/sync/super/route.ts:159-167 | On a sorted page a non-empty batch ends with the page's last record. |
| SuperSyncProperties.RerunSyncsNothing | app/api/application/sync/super/route.ts:159-167 | After a batch from a sorted page is committed, the same page filtered from the new cursor is empty. |
| SuperSyncProperties.FinalStateWrites | app/api/application/sync/super/route.ts:158-167 | When every state write of a run fails the state row is unchanged; when the last page's write succeeds the row points at that batch's last record with the run's stamp. |
| SuperSyncProperties.PlanStopPage | app/api/application/sync/super/route.ts:82-171 | When a run requests one page more than it has batches, that last page is a stopping page. |
| SuperSyncProperties.ApplyBatchesUntouched | app/api/application/sync/super/route.ts:151-153 | A row that no committed batch mentions is left exactly as it was. |
| SuperSyncProperties.ApplyBatchesKeepsBranch | app/api/application/sync/super/route.ts:99-153 | The sync never writes `branch_uuid`. |
| SuperSyncProperties.ApplyBatchesKeys | app/api/application/sync/super/route.ts:151-156 | A row is in the table afterwards iff it was before or an accepted batch (one not rejected and without a repeated id) supplied its id. |
| SuperSyncServed.SinceMembers | app/api/application/sync/super/route.ts:61-63 | The records the filter `update_time__gte: t` selects are exactly the upstream's records updated at or after `t`. |
| SuperSyncServed.SinceSorted | app/api/application/sync/super/route.ts:68 | The selected records keep the (update_time, id) order the request asks for. |
| SuperSyncServed.ServedAt | app/api/application/sync/super/route.ts:68 | Page `p` answers the selected records from position `(p-1)*500`, at most 500 of them; a page past the end answers no rows. |
| SuperSyncServed.LastBatchOfPage | app/api/application/sync/super/route.ts:82-96 | The last batch of a run is its last page filtered by the cursor, and it ends with that page's last record, which lies after the cursor. |
| SuperSyncServed.NextPageCommits | app/api/application/sync/super/route.ts:82-96 | When a full page ends with a record after the cursor and more records are selected, the next page yields a batch. |
| SuperSyncServed.LastCommittedIsLastServed | app/api/application/sync/super/route.ts:159-171 | When the run ended on a page with fewer than 500 rows, its last committed record is the last record the filter selects. |
| SuperSyncServed.CaughtUpAll | app/api/application/sync/super/route.ts:159-171 | When the run ended on a page with fewer than 500 rows, no upstream record lies after the cursor at its last committed record. |
| SuperSyncServed.NothingAfterIdle | app/api/application/sync/super/route.ts:82-96 | When no upstream record lies after the cursor, a run with any threshold commits nothing, reports 0 and leaves the state row alone. |
| SuperSyncServed.SecondRunIdle | app/api/application/sync/super/route.ts:47-172 | Over unchanged sorted data, when the first run ended on a page with fewer than 500 rows: no record lies after its last committed one, a successful last state write leaves the cursor there and the second run starts from it, and the second run, with its own threshold, commits nothing, reports 0 and leaves the state row alone. |
| SuperSyncServed.StallAsWritten | app/api/application/sync/super/route.ts:82-96 | When the first 500 records the threshold selects all lie at or before the cursor, the run requests page 1 only and commits nothing, and the next run sends the same threshold and leaves the state row alone, whatever lies after page 1. |
| SuperSyncServed.StallExample | app/api/application/sync/super/route.ts:82-96 | 501 records at one timestamp `t` with a cursor at (t, 500): record 501 lies after the cursor, yet the run stops on page 1 with no batch. |
| SuperSyncServed.CatchUpReaches | app/api/application/sync/super/route.ts:82-96 | In the corrected loop, which moves past a full page that filters to nothing, a selected record after the cursor on page `p` or later makes the run from page `p` commit a batch. |
| SuperSyncServed.CatchUpProgress | app/api/application/sync/super/route.ts:82-96 | In the corrected loop, any selected record after the cursor makes the run commit a batch. |
| SuperSyncServed.StallExampleCorrected | app/api/application/sync/super/route.ts:82-96 | On the input of the stall, the corrected loop commits a batch. |
| LegacySync.FilterObject | app/api/application/sync/route.ts:39-47 | Exactly one key is set: `update_time__gte` is the stamp when there is one, else `create_time__date__gte` is 2025-01-01. |
| LegacySync.Post | app/api/application/sync/route.ts:4-199 | Missing URL, and a state-read error other than PGRST116, give 500 with no request. An empty or non-array list gives count 0 with no write. A rejected upsert, or one whose batch repeats an id, gives 500 with no stamp. An upstream error gives 500. Success upserts the mapped rows and reports their count, and also when the stamp write then fails (only an accepted stamp sets `last_synced_at = now`). |
| RecordsListing.ToApplication | app/api/application-records/route.ts:111-184 | Every listed row keeps the stored row's id. |
| RecordsListing.ListingFixedFields | app/api/application-records/route.ts:111-184 | `branch_uuid` and `branches` are passed through, null in place of a falsy value; the fields the table has no column for get the same constant on every row (null for `approve_time`, the fees, commission and `payment_info`, 0 for incomes, expenses and audit scores, `[]` for `fees`). |
| RecordsListing.ListingRestoresUpstream | app/api/application-records/route.ts:111-184 | A synced record listed back shows every field under its upstream name, with the route's default (`""`, 0 or null) in place of a falsy value. |
| RecordsListing.PageDefaults | app/api/application-records/route.ts:13-14 | A missing or empty `page` reads as 1 and `limit` as 20. |
| RecordsListing.PageParamsRead | app/api/application-records/route.ts:13-14 | Page and limit written as decimal numbers are read back as those numbers. |
| RecordsListing.RangeSpansLimit | app/api/application-records/route.ts:104 | The range starts at `(page-1)*limit` and spans exactly `limit` positions. The next page starts right after it, and NaN spreads to both bounds. |
| RecordsListing.PageOfPosition | app/api/application-records/route.ts:104 | With a positive limit, every row position lies in the range of exactly one page, `position / limit + 1`. |
| RecordsListing.SearchConditions | app/api/application-records/route.ts:92-96 | There is one condition per search column. |
| RecordsListing.SearchFilterConditions | app/api/application-records/route.ts:92-96 | A comma-free term gives exactly four conditions, `ilike %term%` on code, fullname, customer_code and phone, in that order. |
| RecordsListing.AscendingParams | app/api/application-records/route.ts:52-59 | The order is ascending iff `sort` is missing, empty or `create_time` and `order` is `asc`. |
| RecordsListing.BuildQuery | app/api/application-records/route.ts:51-104 | The clause-by-clause reassignment of `query` builds exactly the reference plan. |
| RecordsListing.FiltersMembers | app/api/application-records/route.ts:51-96 | Each filter clause is there iff its condition holds. |
| RecordsListing.PlanMembers | app/api/application-records/route.ts:51-104 | The query holds exactly the filter clauses whose conditions hold, plus the range. |
| RecordsListing.PlanOrder | app/api/application-records/route.ts:52-59 | There is exactly one order clause, on `create_time`, and it comes first. |
| RecordsListing.PlanDateBounds | app/api/application-records/route.ts:62-71 | There is always one lower bound, the `from` day or 2025-01-01, and an upper bound at 23:59:59 of `to` iff `to` is given. |
| RecordsListing.PlanStatus | app/api/application-records/route.ts:74-76 | A status clause on the parsed status is there iff `status` is non-empty. |
| RecordsListing.PlanBranch | app/api/application-records/route.ts:79-89 | The branch restriction is there iff the profile has a branch, a headquarter exists and the two differ. |
| RecordsListing.PlanSearch | app/api/application-records/route.ts:92-96 | The one OR filter is there iff the search term is non-empty. |
| RecordsListing.PlanRange | app/api/application-records/route.ts:98-104 | The page range comes last, and only once. |
| RecordsListing.Get | app/api/application-records/route.ts:5-197 | A profile error gives 500 with no query, and a query error gives 500. Otherwise the response carries `count` or 0, one mapped row per record, and `is_profile_headquarter` iff the two ids are equal (both missing included). |
| Js.NatToString | utils/functions.ts:15-16 | `String(n)` is a non-empty string of digits, one digit iff n < 10. |
| Js.IntToString | components/home-content.tsx:146 | `String(n)` is non-empty, and all digits iff n ≥ 0. |
| Js.NatToStringValue | utils/functions.ts:15-16 | The digits of `String(n)` read back as n. |
| Js.NatToStringLength | utils/functions.ts:14-17 | `String(n)` has 1, 2, 3 or 4 characters for 1-, 2-, 3- and 4-digit n. |
| Js.PadStart2 | utils/functions.ts:15-16 | `padStart(2, "0")` leaves a string of two or more characters alone and otherwise left-fills it with zeros to length 2. |
| Js.SplitJoin | components/home-content.tsx:170 | Splitting the `join` of separator-free parts gives the parts back. |
| Js.ParseIntOfIntToString | app/api/application-records/route.ts:13-14 | `parseInt(String(n)) == n` for every integer n. |
| Js.IntToStringInjective | components/home-content.tsx:162-163 | Different numbers print differently. |
| JsDate.DaysInMonth | components/date-range/date-input.tsx:138 | A month has 28 to 31 days, and 31 exactly for months 1, 3, 5, 7, 8, 10 and 12. |
| JsDate.NextDay | components/date-range/date-input.tsx:137-144 | The day after a calendar day is a calendar day. |
| JsDate.PrevDay | components/date-range/date-input.tsx:164-175 | The day before a calendar day is a calendar day. |
| JsDate.NextPrevInverse | components/date-range/date-input.tsx:137-175 | Stepping a day forward then back, or back then forward, returns to it. |
| JsDate.Roll | components/date-range/date-input.tsx:59 | Overflowing or underflowing days roll into neighbouring months, giving a calendar day. |
| JsDate.MakeDate | components/date-range/date-input.tsx:59 | `new Date(y, m, d)` read through its getters is always a calendar day. |
| JsDate.RollWithin | components/date-range/date-input.tsx:59 | A day inside its month does not roll. |
| JsDate.LastDayOfMonth | components/date-range/date-input.tsx:138 | `new Date(y, m, 0)` is the last day of month m. |
| JsDate.MakeDateRoundTrip | components/date-range/date-input.tsx:58-65 | `new Date(y, m-1, d)` gives back y, m and d iff they name an existing day and y is not a two-digit year. |
| DateInput.JsRem | components/date-range/date-input.tsx:139 | JavaScript `%` agrees with the Euclidean remainder on non-negative operands and stays strictly between -b and b. |
| DateInput.With | components/date-range/date-input.tsx:58 | `{ ...date, [field]: value }` changes that field only. |
| DateInput.ReportedCalendarDate | components/date-range/date-input.tsx:81 | A calendar date passed through `new Date` is reported as itself. |
| DateInput.ValidateDateIff | components/date-range/date-input.tsx:48-66 | `validateDate` holds iff the value is in its field's range and the parts with it name an existing day. |
| DateInput.StepUpDay | components/date-range/date-input.tsx:137-144 | ArrowUp in the day box moves to the next calendar day, across months and years, and reports that day. |
| DateInput.StepDownDay | components/date-range/date-input.tsx:164-175 | ArrowDown in the day box moves to the previous calendar day, across months and years, and reports that day. |
| DateInput.DayStepsInverse | components/date-range/date-input.tsx:137-175 | On a calendar date, ArrowDown undoes ArrowUp in the day box and vice versa. |
| DateInput.StepUpIncrements | components/date-range/date-input.tsx:141-143 | Corrected: below the month's last day ArrowUp adds one to the day read as a number, so two presses on a cleared day give 2. |
| DateInput.ClearedDayUpTwiceAsWritten | components/date-range/date-input.tsx:142 | As written, two ArrowUp presses on a cleared day box leave the string "11", which reads as day 11. |
| DateInput.ClearedDayUpDownAsWritten | components/date-range/date-input.tsx:142-173 | As written, ArrowUp on a cleared day box stores the string "1", which fails the `=== 1` test, so ArrowDown then stores day 0 with the month unchanged. |
| DateInput.MonthSteps | components/date-range/date-input.tsx:146-187 | Month steps wrap 12→1 with year+1 and 1→12 with year−1, never touch the day, and undo each other. |
| DateInput.YearSteps | components/date-range/date-input.tsx:154-187 | Year steps change only the year, by one, and ArrowDown undoes ArrowUp. |
| DateInput.DateField.constructor | components/date-range/date-input.tsx:15-23 | Both the displayed and the committed parts start as the parts of the value. |
| DateInput.DateField.ValueChanged | components/date-range/date-input.tsx:30-46 | A new value replaces the displayed parts. |
| DateInput.DateField.InputChange | components/date-range/date-input.tsx:68-83 | The box always takes the entry. `onChange` fires iff the entry is a number `validateDate` accepts, and then with the displayed calendar date. |
| DateInput.DateField.Blur | components/date-range/date-input.tsx:87-105 | A cleared or rejected value restores the committed parts. An accepted value commits the parts with it. Committed parts only ever change to a calendar date. |
| DateInput.DateField.KeyDown | components/date-range/date-input.tsx:107-214 | Meta/ctrl combinations pass, and other keys outside the digits and navigation keys are prevented. Arrow up/down step and report, with the corrected numeric steps. Arrow right/left move the focus between boxes at the ends of the text. |
| DateUtils.TwoDigits | utils/functions.ts:15-16 | A number below 100, padded, is two digits that read back as it. |
| DateUtils.FormatDateFields | utils/functions.ts:13-18 | For a four-digit year the output is 10 characters with `-` at 4 and 7, and its groups read back as year, month and day. |
| DateUtils.FormatDateInjective | utils/functions.ts:13-18 | Different dates with four-digit years format differently. |
| DateUtils.FormatDateCharacters | utils/functions.ts:13-18 | The output holds only digits and dashes. |
| DateUtils.DefaultDateRangeBounds | utils/functions.ts:34-44 | `from` is day 1 of the previous month, with January wrapping to December of the previous year. `to` is today, and `from` is before `to`. |
| DateUtils.AvatarUrlParts | utils/functions.ts:3-11 | An empty name gives `""`. Otherwise the URL is the fixed prefix, the encoded name and the fixed suffix. |
| DateUtils.AvatarUrlInjective | utils/functions.ts:3-11 | With an injective encoder, different names give different avatar URLs. |
| DateUtils.FileUrlParts | utils/functions.ts:46-49 | There is a URL iff the file is named, and then it is the API base, `/static/files/` and the file. |
| DateUtils.FileUrlInjective | utils/functions.ts:46-49 | Different files give different URLs. |
| TableView.Visible | components/home-content.tsx:246 | The filter never lengthens the column list. |
| TableView.VisibleMembers | components/home-content.tsx:246 | A column is shown iff its uid is in the visible set. |
| TableView.VisibleAppend | components/home-content.tsx:246 | Filtering keeps the column order. |
| TableView.VisibleAll | components/home-content.tsx:243-247 | When every uid is visible, every column is shown. |
| TableView.HeaderColumnsVisible | components/application-content.tsx:192-195 | With distinct uids and a visible set of column uids, the size shortcut agrees with the filter in both tables. |
| TableView.PagesCover | components/home-content.tsx:236 | `Math.ceil(n / rpp) \|\| 1` is at least 1, covers every row and has no empty page after the first. This holds for both tables. |
| TableView.DateQueryParameters | components/home-content.tsx:149-153 | `dateQuery` is empty iff a bound is missing, and otherwise splits into exactly `from=<date>` and `to=<date>`. |
| TableView.NonEmpty | components/home-content.tsx:156-168 | `.filter(Boolean)` keeps only non-empty parameters and never adds any. |
| TableView.NonEmptyAppend | components/home-content.tsx:156-168 | `.filter(Boolean)` keeps the parameters in order. |
| TableView.QueryStringParameters | components/home-content.tsx:170 | The query string is empty iff there is no parameter. Otherwise it starts with `&` and splits back into the parameters. |
| HomeContent.SortParamParameters | components/home-content.tsx:165-167 | The sort parameter is sent iff the column is `create_time`, as `sort=create_time` and `order=asc` or `order=desc`. |
| HomeContent.QueryParameters | components/home-content.tsx:155-170 | The parameters sent are, in order: status unless 0, the dates when both are set, the search for a non-empty term, always page and limit, and the sort for `create_time`. |
| HomeContent.QueryStringNeverEmpty | components/home-content.tsx:155-170 | The query string always starts with `&` and holds at least the page and limit parameters. |
| HomeContent.HomePages | components/home-content.tsx:236 | There is at least one page, and the pages hold every row. |
| ApplicationContent.StatusDroppedAsWritten | components/application-content.tsx:126-140 | As written, no parameter is named `status`, and a lone status goes out as `&<n>`. |
| ApplicationContent.StatusSent | components/application-content.tsx:126-140 | Corrected: `status=<n>` is sent iff a status other than 0 is chosen, first, followed by the dates when both are set. |
| ApplicationContent.LessOrder | components/application-content.tsx:182-185 | The `<` of the comparator is asymmetric and transitive. |
| ApplicationContent.Matching | components/application-content.tsx:157-161 | The name filter never lengthens the list. |
| ApplicationContent.MatchingMembers | components/application-content.tsx:157-161 | An application is kept iff its lower-cased name contains the needle. |
| ApplicationContent.MatchingAppend | components/application-content.tsx:157-161 | Filtering a concatenation concatenates the filtered parts, so the order is kept. |
| ApplicationContent.FilteredItemsSpec | components/application-content.tsx:154-164 | An empty filter keeps all. Otherwise exactly the applications whose lower-cased name contains the lower-cased filter are kept, in order. |
| ApplicationContent.ItemsSlice | components/application-content.tsx:170-173 | A page is the contiguous run of at most `rowsPerPage` items from `(page-1)*rowsPerPage`, clamped to the list. |
| ApplicationContent.EveryItemOnItsPage | components/application-content.tsx:168-173 | Item j appears on page `j / rowsPerPage + 1`, which is within the page count, at position `j % rowsPerPage`. |
| ApplicationContent.CompareAntisymmetric | components/application-content.tsx:178-187 | Swapping the arguments negates the comparator. |
| ApplicationContent.InsertCount | components/application-content.tsx:177-188 | Inserting adds exactly the one item. |
| ApplicationContent.InsertSorted | components/application-content.tsx:177-188 | Inserting into a sorted run keeps it sorted. |
| ApplicationContent.SortedItemsSpec | components/application-content.tsx:177-188 | `sortedItems` is a permutation of the current page. It is non-decreasing by the sort column when ascending and non-increasing when descending. |

## Left out

- HTTP, the datastore client and `process.env` are replaced by parameters: the upstream answers, whether each datastore statement fails, and an optional API URL. `console` logging is not modelled.
- SuperSyncServed.SecondRunIdle: takes the upstream's records sorted by (update_time, id) as a precondition, and requires the first run to have ended on a page with fewer than 500 rows. A run that commits a short filtered batch from a full page also stops (app/api/application/sync/super/route.ts:169-171), and then the next run does commit the rest; that case is not claimed idle. It speaks of the cursor the first run leaves only when the first run's last state write succeeds.
- SuperSyncServed.CatchUpFrom: the corrected page loop is stated as a plan, like `PlanFrom`. `SuperSync.Post` keeps the loop as written.
- The lock's read-then-write is not atomic in the source. Only one request's decision is modelled, not races between concurrent requests.
- Timestamps are integers of milliseconds. ISO-8601 parsing, and the difference between comparing parsed dates and comparing raw strings in the cursor filter, are not modelled.
- SuperSync.Post: the route reads the clock several times; the model uses one `now` for the whole run. The lemmas that need the upstream order by (update_time, id) take it as a precondition, because the route only requests that order: `SortedPage` for the pages of `SuperSyncProperties`, `SortedData` for the records of `SuperSyncServed`.
- `encodeURIComponent`, `JSON.stringify`, `toLowerCase` and `toLocaleString` are abstract function parameters or left out. `formatDateTimeVN` (locale and time zone formatting) is left out.
- JsDate.MakeDate: the `Date` range limit, time of day and time zones are not modelled. `getDefaultDateRange`'s `to` is a second clock read, taken as today.
- DateInput.StepUpDay, DateInput.StepDownDay, DateInput.DayStepsInverse: proved for years above 100 (above 101 for the inverse). Below that, `new Date` reads years 0-99 as 1900-1999.
- DateInput.DateField.InputChange: a pasted entry that is not an integer (`Number` giving a fraction or NaN) is not represented; an entry is a cleared box or an integer.
- DateInput.DateField.KeyDown: the focus moves are returned rather than performed. React's batching of `setDate` is not modelled.
- DateInput.DateField.KeyDown: stepping a cleared box uses the corrected numeric increment and decrement (a cleared part counts as 0), not the string concatenation and failing `=== 1` test of the code as written; the as-written behaviour is stated by DateInput.ClearedDayUpTwiceAsWritten and DateInput.ClearedDayUpDownAsWritten.
- RecordsListing.SearchFilterConditions: a search term containing a comma splits into more conditions in the `.or(...)` filter. Only comma-free terms are specified.
- The `initialVisibleColumns` sets of the two tables are not proved to consist of column uids; `TableView.HeaderColumnsVisible` takes that as a precondition.
- `rowsPerPage > 0` and `page >= 1`, which the UI controls guarantee, are preconditions of the page functions.
- ApplicationContent.SortedItems: the sort is modelled as a stable insertion sort. JavaScript's sort is stable too, but the order it gives for a comparator that is not a consistent order is implementation-defined.
- ApplicationContent.Less: a string compared with a number is taken to be unordered, whereas JavaScript converts the string to a number first. The only sortable column, `code` (components/application-content.tsx:44), holds strings, so the table never compares a mixed pair.
- The JSX rendering, modals, the date-range picker and the thin proxy routes are not part of this model.

## Findings

| source | as written | input that shows it | evidently intended | confidence | as-written member | corrected member |
|---|---|---|---|---|---|---|
| app/api/application/sync/super/route.ts:93-96 | a page whose filtered batch is empty ends the run (`hasMore = false; break`), even when the page was full and later pages hold records after the cursor | 501 records share the timestamp T, with ids 1 to 501; the cursor is (T, 500), as left by a run that committed page 1 and then failed on page 2. Every run requests `update_time__gte: T`, gets records 1-500 on page 1, filters them all out and stops, so record 501 is never synced | move on to the next page while pages are full, and stop only on a short page | not executed | SuperSyncServed.StallAsWritten, SuperSyncServed.StallExample | SuperSyncServed.CatchUpProgress, SuperSyncServed.StallExampleCorrected |
| components/date-range/date-input.tsx:142 | `newDate.day += 1` on a part that a cleared box left as `""` concatenates strings (the month and year `+= 1` do the same) | clear the day box, then press ArrowUp twice: the day becomes "11"; or press ArrowUp then ArrowDown: the day box shows 0 with the month unchanged | numeric steps: day 2; and from day 1 a step back to the previous month's last day, shown as such | not executed | DateInput.ClearedDayUpTwiceAsWritten, DateInput.ClearedDayUpDownAsWritten | DateInput.StepUpIncrements, DateInput.StepDownDay |
| components/application-content.tsx:126-140 | `statusQuery` is the bare number, so the URL carries `&5` where the proxy route (app/api/application/route.ts:7) reads the `status` parameter | choose status 5 with no date range: the query string is `&5` and no status filter reaches the upstream | `status=5`, as the home table sends it | not executed | ApplicationContent.StatusDroppedAsWritten | ApplicationContent.StatusSent |
