# Contractor margin: a verified model of the job-margin core

ContractorMargin is a job-costing application for trade contractors: HVAC, plumbing, electrical and general. A contractor records jobs, the technicians' hours and the materials bought for each job. The application then derives each job's costs, its margin and whether the margin is in danger.

The same aggregations appear in several places:
- a REST API (`/api/v1/stats`, `/api/v1/jobs`);
- a JSON-RPC 2.0 tool endpoint for AI agents (`/api/mcp`);
- the dashboard, the jobs list and the monthly report pages;
- two admin endpoints guarded by a shared key.

This project models that core in Dafny and proves properties of it:
- the margin calculator and its three-tier classification;
- the join of jobs with their labor and material entries;
- the means, counts, sums and one-decimal rounding built on the join;
- each handler's decisions;
- the page state that changes step by step.

## How the system is modelled

- **Records** are datatypes (module `Types`): `Job`, `LaborEntry`, `MaterialEntry`, `Profile` and the derived `JobWithMargin`. The string unions are datatypes with their wire spellings.
  - Field names are camelCase, e.g. `hourlyRate` for `hourly_rate` and `marginDanger` for `margin_danger`.
  - Money, hours and percentages are `real`.
- **The store** is module `Store`. `Db` is a snapshot of the three owner-scoped tables.
  - A handler's reads are a parameter `reader: (uid, order) -> Fetched`. Each of the three results is optional, and `None` stands for a failed read.
  - `OwnerReader(db)` is the honest store. It returns every row of the owner and nothing else. With `NewestFirst` it sorts jobs by `created_at` descending, comparing the text lexicographically as ISO timestamps sort.
  - Inserts are methods on the class `RecordStore`, whose three sequence fields grow by appending. A store failure is passed in as `fault: Option<Fault>`.
  - Generated ids, creation times and "today" are parameters.
- **Identity** is a parameter `user: Option<string>`. The admin key (`ADMIN_API_KEY`) and the `x-admin-key` header are parameters too.
- **The handlers are functions** from their inputs to a response datatype that carries its HTTP status. Where a handler writes to the store, it is split in two:
  - a pure plan: `V1Jobs.PlanPost`, `Mcp.Plan`;
  - a method that executes the plan against the `RecordStore`: `V1Jobs.Post`, `Mcp.Handle`.
- **The two client pages with component state are classes**: `JobsPage.JobsPage` and `Reports.ReportsPage`. Their fields are the React state variables, and their methods are the handlers that set them.
- **The admin `tradeBreakdown` reduce** mutates an accumulator map. It is a method with a loop, `AdminStats.TradeBreakdown`.
- **The twelve-month selector loop** is the method `Reports.MonthOptions`.

### Where the code differs from the documented intent

The model follows the code in each case below.

- **Unknown tool name** (`app/api/mcp/route.ts:265`): the code answers with a transport-level JSON-RPC error `-32601 "Tool not found: …"`. It does not answer with an in-band `isError` result.
- **Dashboard accuracy mean** (`app/dashboard/page.tsx:58-64`): it does not exclude jobs whose estimate is 0. The stats route does exclude them (`app/api/v1/stats/route.ts:66-68`).
  - `Dashboard.AccuracyDiffersFromStats` exhibits two jobs for which the dashboard shows 50 and the stats route shows 100.
  - `Dashboard.AccuracyAgreesWhenEstimated` proves the two agree whenever every settled job has a positive estimate.
- **Worst job in the report** (`app/dashboard/reports/page.tsx:64-66`): it is the last element of a stable descending sort. Among jobs tied at the lowest margin, it is therefore the last one in list order (`Reports.WorstIsLastMinimum`).
- **Best-known revenue** (`lib/compute.ts:11`): it is `actual || estimated`, which tests `actual != 0`, not `actual > 0`. A negative actual revenue is used as-is (`Compute.NegativeActualUsed`). The two readings agree only for non-negative actual revenue (`Compute.RevenuePrecedence`).
- **Failed reads** become empty lists through `|| []` and are never reported. This is `Store.JobsOrEmpty` and the two functions beside it, used by `Aggregate.JoinFetched`.
- **Ownership of the job in `add_labor` and `add_material`** (`app/api/mcp/route.ts:213-247`): neither tool checks that the job belongs to the caller. The inserted entry carries the caller's `user_id` and whatever `job_id` was given.
- **Caught store errors in the tool endpoint** (`app/api/mcp/route.ts:267`): the text is `Error: <message>` only when the thrown value is an `Error` instance, and `Error: Unknown error` otherwise (`Mcp.ErrorText`).
- **Tool-call inserts** (`create_job`): the code sends neither `status` nor `actual_revenue`. The model assumes the table's column defaults, `active` and `0` (`Store.StoredJob`).

## Model

| member | source | states |
|---|---|---|
| Types.ParseStatus | lib/types.ts:3 | a string is a job status exactly when it is one of the three spellings active, completed, invoiced, and the status it reads as spells it back |
| Types.ParseJobType | lib/types.ts:2 | a string is a job type exactly when it is residential or commercial, and reads back as that type |
| Types.ParseTrade | lib/types.ts:1 | a string is a trade exactly when it is one of the four trade spellings, and reads back as that trade |
| Types.StatusRoundTrip | lib/types.ts:3 | every status is recovered from its wire spelling |
| Types.JobTypeRoundTrip | lib/types.ts:2 | every job type is recovered from its wire spelling |
| Types.TradeRoundTrip | lib/types.ts:1 | every trade is recovered from its wire spelling |
| Compute.RevenueUsed | lib/compute.ts:11 | the revenue a margin is taken on is the actual revenue whenever it is non-zero, and the estimate otherwise |
| Compute.MarginPercent | lib/compute.ts:12 | the margin is 0 without positive revenue; otherwise margin × revenue equals (revenue − cost) × 100 |
| Compute.EstimateAccuracy | lib/compute.ts:14-15 | accuracy is 0 without a positive estimate; otherwise accuracy × estimate equals actual × 100 |
| Compute.ComputeJobMargin | lib/compute.ts:3-25 | the result keeps the job unchanged and adds labor cost Σ hours × rate, material cost Σ cost, total cost as their sum, the margin on best-known revenue, danger exactly when the margin is below 20, and the estimate accuracy |
| Compute.LaborCostAppend | lib/compute.ts:8 | labor cost is additive over concatenated entry lists and 0 for no entries |
| Compute.MaterialCostAppend | lib/compute.ts:9 | material cost is additive over concatenated entry lists and 0 for no entries |
| Compute.CostsOrderInsensitive | lib/compute.ts:8-9 | both cost totals are the same for any reordering of the entries |
| Compute.CostsNonNegative | lib/compute.ts:8-9 | non-negative hours, rates and costs give non-negative totals |
| Compute.MarginBounds | lib/compute.ts:12 | with positive revenue: a non-negative cost keeps the margin at most 100; the margin is non-negative iff cost ≤ revenue; it is 100 iff the cost is 0 |
| Compute.ComputedMarginAtMost100 | lib/compute.ts:8-12 | any job costed from non-negative entries has a margin of at most 100 |
| Compute.RevenuePrecedence | lib/compute.ts:11 | with a non-negative actual revenue, a positive actual always supersedes the estimate, and best-known revenue equals "actual if positive, else estimate" |
| Compute.NegativeActualUsed | lib/compute.ts:11-12 | a negative actual revenue is still the revenue used, so the margin is 0 |
| Compute.ZeroJob | lib/compute.ts:8-15 | a job with no revenue and no entries costs 0, has margin 0, is in danger and has accuracy 0 |
| Compute.NoActualsZeroAccuracy | lib/compute.ts:14-15 | an actual revenue of 0 against a positive estimate is 0% accurate |
| Compute.WorkedExample | lib/compute.ts:3-25 | 2 h at 50 and 3 h at 60 of labor plus 100 of materials on a 3000 actual / 5000 estimate job cost 280 + 100 = 380, are not in danger and are 60% accurate |
| Compute.MarginTier | lib/compute.ts:27-37 | a margin is healthy iff it is at least 30, acceptable iff it is in [20, 30), and in danger iff it is below 20 |
| Compute.HelpersShareTiers | lib/compute.ts:27-37 | `marginColor` and `marginBadgeClass` each give their tier's token, and distinct tiers get distinct tokens |
| Compute.RedExactlyWhenDanger | lib/compute.ts:13-37 | for a computed record, both helpers show red exactly when `margin_danger` holds; a margin of exactly 20 is acceptable, not danger |
| Store.SortNewestFirst | app/api/v1/jobs/route.ts:39 | the descending `created_at` order holds the same jobs, newest first |
| Store.ReadIsOwnerScoped | app/api/v1/jobs/route.ts:38-41 | each of the three reads returns every row of the caller and no row of anyone else, and the ordered jobs read is newest first |
| Store.ForeignInsertInvisible | app/api/v1/jobs/route.ts:38-41 | rows another owner inserts never change what the caller reads |
| Store.StoredJob | app/api/mcp/route.ts:185-195 | the stored job carries the inserted columns, the generated id and creation time, status active and actual revenue 0 when not supplied, and no completion time |
| Store.RecordStore.InsertJob | app/api/v1/jobs/route.ts:83-95 | without a fault, exactly the stored row is appended to the jobs table and returned; with one, the fault is returned and nothing changes; the other tables stay as they were |
| Store.RecordStore.InsertLabor | app/api/mcp/route.ts:214-223 | without a fault, exactly the new labor row is appended; with one, nothing changes; the other tables stay as they were |
| Store.RecordStore.InsertMaterial | app/api/mcp/route.ts:241-249 | without a fault, exactly the new material row is appended; with one, nothing changes; the other tables stay as they were |
| Aggregate.JoinOne | app/api/v1/stats/route.ts:53-57 | a job's derived record holds that job and its fields agree with one another |
| Aggregate.JoinAll | app/api/v1/stats/route.ts:53-57 | one derived record per job, in the jobs' order, each holding its job |
| Aggregate.JoinFetched | app/api/v1/stats/route.ts:49-57 | one derived record per job the read returned; a failed read counts as no rows |
| Aggregate.JoinOneLocal | app/api/v1/stats/route.ts:53-57 | entries of other jobs never change a job's derived record |
| Aggregate.JoinOneUsesOwnEntries | app/api/v1/stats/route.ts:54-56 | a job's costs are the totals over exactly the entries whose `job_id` is its id |
| Aggregate.MeanMargin | app/api/v1/stats/route.ts:61-64 | the mean margin is 0 for no jobs, and mean × count equals the sum of the margins |
| Aggregate.Round1 | app/api/v1/stats/route.ts:75 | `Math.round(x * 10) / 10` lies within 0.05 of x and is a whole number of tenths |
| Aggregate.Round1Monotone | app/api/v1/stats/route.ts:75 | rounding to one decimal preserves order |
| Aggregate.Round1Exact | app/api/v1/stats/route.ts:75 | a value already in tenths is left unchanged |
| Aggregate.Round1Idempotent | app/api/v1/stats/route.ts:75 | rounding twice is rounding once |
| Aggregate.StatusCountsPartition | lib/types.ts:3 | the active, completed and invoiced counts add up to the number of jobs |
| Aggregate.JoinedMarginsAtMost100 | app/api/v1/stats/route.ts:53-57 | every joined record over non-negative entries has a margin of at most 100 |
| Aggregate.MeanMarginAtMost100 | app/api/v1/stats/route.ts:61-75 | over non-negative entries, the mean margin is at most 100, both before and after rounding |
| Aggregate.MeanMarginOrderInsensitive | app/api/v1/stats/route.ts:61-64 | the mean margin does not depend on the order of the jobs |
| V1Stats.HttpStatus | app/api/v1/stats/route.ts:39-80 | 401 exactly for the unauthorized answer, 200 exactly for the summary |
| V1Stats.ResolveUser | app/api/v1/stats/route.ts:8-34 | the resolved identity is always the cookie session's, whatever the Bearer header says |
| V1Stats.MeanAccuracy | app/api/v1/stats/route.ts:66-72 | the accuracy mean is 0 for an empty pool, and otherwise mean × pool size equals the pool's summed accuracies |
| V1Stats.AccuracyPoolExactly | app/api/v1/stats/route.ts:66-68 | the accuracy pool is exactly the completed or invoiced jobs with a positive estimate |
| V1Stats.Summarize | app/api/v1/stats/route.ts:49-80 | the summary counts all returned jobs; the active count is the number of active joined jobs and the flagged count the number of joined jobs in the danger band; the active count plus the completed and invoiced counts make the total; flagged ≤ total; both means are rounded to one decimal; no jobs give all zeros |
| V1Stats.FlaggedJobsExactly | app/api/v1/stats/route.ts:58-60 | the jobs counted as flagged are exactly the joined jobs whose margin is below 20, and the jobs counted as active exactly those with status active |
| V1Stats.Get | app/api/v1/stats/route.ts:36-81 | 401 without a user; otherwise the summary of that user's unordered reads |
| V1Stats.HeaderAndStoreIrrelevance | app/api/v1/stats/route.ts:8-41 | the authorization header never changes the response, and with no session the store is never consulted |
| V1Stats.StatsOfOwner | app/api/v1/stats/route.ts:43-79 | against the honest store, the total counts the caller's jobs, and over non-negative entries the average margin is at most 100 |
| V1Jobs.HttpStatus | app/api/v1/jobs/route.ts:34-101 | 401, 400, 500, 200 and 201 answer exactly the unauthorized, bad-request, failed-insert, list and created responses |
| V1Jobs.Get | app/api/v1/jobs/route.ts:31-55 | 401 without a user; otherwise the join of the caller's newest-first reads |
| V1Jobs.GetListsOwnJobsNewestFirst | app/api/v1/jobs/route.ts:38-54 | against the honest store, GET lists one record for each job of the caller, only the caller's jobs, newest first |
| V1Jobs.PlanPost | app/api/v1/jobs/route.ts:57-95 | 401 without a user; 400 "Invalid JSON" for an unparsed body; 400 "name is required" for a missing or empty name; otherwise an insert with the caller's id and the defaults '', residential, active, 0, 0 |
| V1Jobs.Post | app/api/v1/jobs/route.ts:57-102 | a rejection leaves the store unchanged; an insert appends exactly the stored row and answers 201 with it; a store fault answers 500 with its message and changes nothing |
| Mcp.CatalogShape | app/api/mcp/route.ts:8-61 | the catalog lists exactly get_stats, create_job, add_labor, add_material under distinct names; their required arguments are [], [name], [job_id, tech_name, hours, hourly_rate], [job_id, description, cost]; each required argument is a declared property |
| Mcp.ConformingArgs | app/api/mcp/route.ts:8-61 | arguments that follow a tool's schema carry every argument it requires |
| Mcp.IdOrNull | app/api/mcp/route.ts:265 | `id ?? null` echoes a given id and is null otherwise |
| Mcp.McpError | app/api/mcp/route.ts:85-91 | an error envelope is JSON-RPC 2.0 with the given id, code and message |
| Mcp.ErrorText | app/api/mcp/route.ts:266-272 | a caught error's text starts with "Error: " and carries the message of an Error instance, or "Unknown error" otherwise |
| Mcp.McpSummarize | app/api/mcp/route.ts:145-173 | get_stats reports the job count, the number of active joined jobs and the number of flagged joined jobs, and the same rounded mean margin, active count and flagged count as the REST summary; both counts are at most the total |
| Mcp.StatsCountsBounded | app/api/mcp/route.ts:170-172 | the active and flagged counts never exceed the number of jobs |
| Mcp.CreateJobRow | app/api/mcp/route.ts:187-193 | the create_job row has the caller's id, the given name, and the defaults '', residential and 0; it supplies no status and no actual revenue |
| Mcp.AddLaborRow | app/api/mcp/route.ts:214-221 | the add_labor row has the caller's id, the given job, technician, hours and rate, and today's date when none is given |
| Mcp.AddMaterialRow | app/api/mcp/route.ts:241-247 | the add_material row has the caller's id, the given job, description and cost, and today's date when none is given |
| Mcp.PlanCall | app/api/mcp/route.ts:127-265 | without a user: an isError result inside a success envelope, before any dispatch; with one: each catalog tool runs with its own row, and any other name is -32601 "Tool not found" |
| Mcp.Plan | app/api/mcp/route.ts:93-280 | no parse gives -32700 with id null; initialize and tools/list answer with the request id; tools/call dispatches; any other method is -32601 "Method not found"; every immediate answer is well formed |
| Mcp.IdentityOnlyForToolCalls | app/api/mcp/route.ts:102-131 | any request other than tools/call gets the same answer whoever the user is |
| Mcp.CatalogToolsAreDispatched | app/api/mcp/route.ts:144-265 | an authenticated call reaches a tool exactly when its name is one of the four catalog tools, and is answered in place otherwise |
| Mcp.Handle | app/api/mcp/route.ts:93-280 | every response is well formed; immediate answers and get_stats leave the store unchanged; each insert appends exactly its row and reports it; a store fault becomes an isError result and changes nothing |
| Mcp.GetStatsOfOwner | app/api/mcp/route.ts:145-172 | against the honest store, get_stats counts exactly the caller's jobs |
| Reports.MonthJobs | app/dashboard/reports/page.tsx:48-51 | the month's jobs are exactly the jobs whose `created_at` starts with the selected `YYYY-MM` |
| Reports.JobsOfMonth | app/dashboard/reports/page.tsx:48-51 | filtering the derived records by month keeps the same jobs as filtering the jobs themselves |
| Reports.MonthTotals | app/dashboard/reports/page.tsx:53-62 | revenue sums best-known revenue, labor sums labor cost, materials sum material cost and costs sum total cost; profit is revenue − costs, which is also the sum of the row profits; the average is the mean margin; an empty month is all zeros |
| Reports.FooterCostsAddUp | app/dashboard/reports/page.tsx:244-247 | the footer's labor total plus its material total equals the total cost |
| Reports.RowProfitSignMatchesMargin | app/dashboard/reports/page.tsx:204-222 | with positive revenue, a row's profit is non-negative exactly when its margin is |
| Reports.SortByMargin | app/dashboard/reports/page.tsx:64 | the sorted copy is a permutation of the month's jobs, in descending margin order |
| Reports.SortByMarginStable | app/dashboard/reports/page.tsx:64 | the sort is stable: jobs sharing a margin keep their relative order |
| Reports.SortedMembers | app/dashboard/reports/page.tsx:64 | the sorted copy has the same length and the same members as the month's jobs |
| Reports.BestJob | app/dashboard/reports/page.tsx:65 | there is a best job exactly when the month has one |
| Reports.WorstJob | app/dashboard/reports/page.tsx:66 | there is a worst job exactly when the month has one |
| Reports.BestIsFirstMaximum | app/dashboard/reports/page.tsx:64-65 | the best job has the highest margin in the month and is the first job in list order with that margin |
| Reports.WorstIsLastMinimum | app/dashboard/reports/page.tsx:64-66 | the worst job has the lowest margin in the month and is the last job in list order with that margin |
| Reports.SingleJobShowsOnlyBest | app/dashboard/reports/page.tsx:157 | a month with one job shows the best card and not the worst |
| Reports.DistinctJobsShowWorst | app/dashboard/reports/page.tsx:157 | a month with two or more jobs of distinct ids shows the worst card as well |
| Reports.MonthNumber | app/dashboard/reports/page.tsx:72-73 | the calendar month of any month count is between 1 and 12 |
| Reports.MonthDigitsPadded | app/dashboard/reports/page.tsx:73 | the month digits are `String(month).padStart(2, '0')` |
| Reports.MonthValueSuffix | app/dashboard/reports/page.tsx:73 | a month value ends in its two month digits |
| Reports.PreviousMonth | app/dashboard/reports/page.tsx:72 | one month back is the previous month number, or December of the previous year from January |
| Reports.DistinctWithinAYear | app/dashboard/reports/page.tsx:71-73 | two months less than twelve months apart have different values |
| Reports.TwelveDistinct | app/dashboard/reports/page.tsx:71-73 | the current month and the eleven before it are twelve different values |
| Reports.FirstEntryIsCurrentMonth | app/dashboard/reports/page.tsx:11-14 | the selector's month zero is the initially selected month |
| Reports.SelectorStartsAtCurrentMonth | app/dashboard/reports/page.tsx:69-76 | a selector built month by month starts at the initially selected month |
| Reports.SelectorDistinct | app/dashboard/reports/page.tsx:69-76 | a selector built month by month lists no month twice |
| Reports.MonthOptions | app/dashboard/reports/page.tsx:69-76 | the loop returns twelve entries: entry i is the month i months before now, entry 0 is the current month, and all are distinct |
| Reports.ReportsPage.constructor | app/dashboard/reports/page.tsx:8-14 | the page starts with no jobs, loading, and the current month selected |
| Reports.ReportsPage.FetchData | app/dashboard/reports/page.tsx:18-41 | without a user, loading stays raised and the jobs are unchanged; with one, the jobs are the join of the caller's newest-first reads and loading ends; the selected month is kept |
| Reports.ReportsPage.SelectMonth | app/dashboard/reports/page.tsx:87 | choosing a month changes only the selection |
| Reports.ReportIsOwnMonth | app/dashboard/reports/page.tsx:24-51 | against the honest store, a month's report holds exactly the caller's jobs created in that month, newest first |
| Dashboard.Render | app/dashboard/page.tsx:8-50 | no user redirects to /auth/login before any read; otherwise the figures are over the join of the caller's newest-first reads |
| Dashboard.SeedOnlyForNewUsers | app/dashboard/page.tsx:16-23 | against the honest store, seeding runs exactly for a user who owns no job; a failed count never seeds |
| Dashboard.ActiveJobsExactly | app/dashboard/page.tsx:52 | the active jobs are exactly the jobs with status active |
| Dashboard.DangerJobsExactly | app/dashboard/page.tsx:53 | the danger jobs are exactly the jobs whose margin is below 20 |
| Dashboard.MeanSettledAccuracy | app/dashboard/page.tsx:58-64 | the accuracy mean over completed and invoiced jobs is 0 when there are none, and otherwise mean × count equals their summed accuracies |
| Dashboard.SettledJobsExactly | app/dashboard/page.tsx:58-60 | the accuracy pool is exactly the jobs that are not active, with no estimate filter |
| Dashboard.ActiveValueCountsActiveOnly | app/dashboard/page.tsx:65-68 | the active value is each active job's best-known revenue, with every other job contributing 0 |
| Dashboard.ActiveValueNonNegative | app/dashboard/page.tsx:65-68 | with non-negative revenues the active value is non-negative |
| Dashboard.EmptyDashboardIsZero | app/dashboard/page.tsx:52-68 | with no jobs every figure is 0 and every list is empty |
| Dashboard.AccuracyAgreesWhenEstimated | app/dashboard/page.tsx:58-64 | when every settled job has a positive estimate, the dashboard's accuracy equals the stats route's |
| Dashboard.AccuracyDiffersFromStats | app/dashboard/page.tsx:58-64 | one settled job on target plus one with no estimate shows 50 on the dashboard and 100 in the stats route |
| Dashboard.Recent | app/dashboard/page.tsx:181 | the recent table is the first five jobs of the list, or all of a shorter list |
| Dashboard.RecentAreNewest | app/dashboard/page.tsx:26-30 | against the honest store, no job left out of the recent table is newer than any job in it |
| JobsPage.RevenueOrZero | app/dashboard/jobs/page.tsx:78-79 | the revenue typed in is the number `parseFloat` reads from it, or 0 when nothing is read |
| JobsPage.AddRow | app/dashboard/jobs/page.tsx:72-80 | the submitted row has the caller's id, the form's text and choices, and the two revenues read from the form or 0 |
| JobsPage.Filtered | app/dashboard/jobs/page.tsx:95 | the all tab lists every job; a status tab lists exactly the jobs with that status |
| JobsPage.CountStatuses | app/dashboard/jobs/page.tsx:97-102 | the all count equals the number of jobs and equals the sum of the three status counts |
| JobsPage.TabCountMatchesList | app/dashboard/jobs/page.tsx:95-102 | each tab's number is the length of the list that tab shows |
| Store.FailReads | app/dashboard/jobs/page.tsx:34-52 | each read marked as failed comes back absent, every other read is unchanged, and no failures change nothing |
| JobsPage.AddedJobIsListed | app/dashboard/jobs/page.tsx:29-91 | a job inserted for the caller is in the caller's refetched list whenever the refetch's jobs read succeeds, even if its labor or material read fails |
| JobsPage.JobsPage.constructor | app/dashboard/jobs/page.tsx:12-25 | the page starts with no jobs, the all filter, loading, the form hidden, not submitting, and the empty form |
| JobsPage.JobsPage.FetchJobs | app/dashboard/jobs/page.tsx:29-60 | without a user, loading stays raised and nothing else changes; with one, the jobs are the join of the caller's newest-first reads and loading ends |
| JobsPage.JobsPage.HandleAddJob | app/dashboard/jobs/page.tsx:29-93 | without a user, submitting stays raised and neither the store nor the page changes; with one, the form's row is inserted (a store fault is ignored), the form is reset and hidden, and submitting ends; the refetch looks the user up again, and without one leaves loading raised and the list as it was, while with one the list is the join of the updated store's newest-first reads, each failed read counting as empty |
| JobsPage.JobsPage.SetFilter | app/dashboard/jobs/page.tsx:219 | a tab press changes only the filter, and the page then shows that tab's list |
| JobsPage.JobsPage.ToggleAddForm | app/dashboard/jobs/page.tsx:112 | "+ Add Job" flips only the form's visibility |
| JobsPage.JobsPage.SetAddForm | app/dashboard/jobs/page.tsx:204 | Cancel and the empty list's call to action set only the form's visibility |
| AdminStats.AdminKeyExactly | app/api/admin/stats/route.ts:5-8 | access is granted exactly when a non-empty admin key is configured and the header carries exactly it |
| AdminStats.AdminRevenueIsRevenueUsed | app/api/admin/stats/route.ts:28-31 | the admin revenue of a job (actual, else estimate, else 0) is the calculator's best-known revenue |
| AdminStats.TotalRevenueIsBestKnown | app/api/admin/stats/route.ts:27-31 | the platform revenue is the sum of every job's best-known revenue |
| AdminStats.TradeCountsAddUp | app/api/admin/stats/route.ts:33-39 | the four trade counts add up to the number of profiles |
| AdminStats.BumpCounts | app/api/admin/stats/route.ts:35 | counting one more profile adds one to its trade and leaves every other trade alone |
| AdminStats.TradeBreakdown | app/api/admin/stats/route.ts:33-39 | the breakdown has a key exactly for each trade that occurs, maps it to that trade's profile count, and its values sum to the number of profiles |
| AdminStats.CountJobs | app/api/admin/stats/route.ts:46-54 | the three status counts and the two type counts each add up to the job total; the revenue is the sum of best-known revenues |
| AdminStats.HttpStatus | app/api/admin/stats/route.ts:11-13 | 401 exactly for the unauthorized answer, 200 exactly for the counts |
| AdminStats.Get | app/api/admin/stats/route.ts:10-60 | 401 exactly without the key; otherwise missing counts read as 0, missing rows as none, and the breakdown counts every profile |
| AdminUsers.ParamValue | app/api/admin/users/route.ts:16-17 | an absent or empty parameter reads as its fallback, and any other is read by `parseInt` |
| AdminUsers.DefaultPaging | app/api/admin/users/route.ts:16-17 | without parameters the page is 1 and the limit is 20 |
| AdminUsers.RangesTile | app/api/admin/users/route.ts:18-29 | the inclusive range spans exactly `limit` rows, page 1 starts at row 0, and each page starts right after the last |
| AdminUsers.Ceil | app/api/admin/users/route.ts:41 | `Math.ceil(x)` is the least integer at or above x |
| AdminUsers.Pages | app/api/admin/users/route.ts:40-41 | pages is a number exactly for a non-zero limit; for a positive limit it is the fewest pages that hold every row; no rows give 0 pages |
| AdminUsers.HttpStatus | app/api/admin/users/route.ts:11-33 | 401, 500 and 200 answer exactly the unauthorized, failed-query and page responses |
| AdminUsers.Get | app/api/admin/users/route.ts:10-44 | 401 exactly without the key; otherwise the query is asked for the page's inclusive range, and a failure gives 500 with its message or the rows with page, limit, total (0 if unknown) and pages |
| AdminUsers.GateBeforeQuery | app/api/admin/users/route.ts:11-13 | without the key the query is never consulted |
| AdminUsers.DefaultRangeIsFirstTwenty | app/api/admin/users/route.ts:16-29 | with no parameters the query asks for rows 0 to 19 |

## Left out

- JSX rendering and display formatting: `toFixed`, `toLocaleString` and the month labels of the selector. Tool-result text keeps its numbers as numbers and does not spell them as text.
- Tailwind classes beyond the three-tier colour and badge tokens.
- The Supabase client, cookies and `auth.getUser`: identity is a parameter.
- Each store query: its result is a parameter, and `OwnerReader` stands for the honest store. The one exception is the jobs page's refetch after an insert: it reads the updated `RecordStore`, and which of its three reads fail is a parameter (`ReadFaults`). The admin users query is a function of its row range. The meaning of `.range` itself is not modelled.
- `Promise.all` and the other asynchronous steps: the three reads are modelled as one read of all three tables. The concurrency is incidental.
- React's batching of state updates: each `set…` call takes effect at once. Form edits field by field are not modelled, only the form's initial state and its reset.
- IEEE-754 arithmetic: numbers are `real`. The NaN that `parseInt` returns for a string without digits is modelled as `None`, and a zero limit gives `pages` as `None` (JSON `null`). Infinity and overflow of JavaScript numbers are not modelled.
- `parseFloat` is a parameter of the jobs page. `JSON.parse` is modelled only as "parsed or not" (an optional body). `JSON.stringify` and `new Date()` are left out; today's date and the current year and month are parameters.
- `parseInt` is modelled for the strings it meets here: ASCII white space, sign, decimal and `0x` digits. Unicode white space (for example a non-breaking space or a line separator) and its other radix rules are not.
- `Mcp.Handle`, `Mcp.Plan`, `Mcp.PlanCall`: for an authenticated `tools/call` they require the tool arguments to follow the catalog's input schema, which is the contract the catalog declares. An authenticated call that omits a required argument, or has one of the wrong type, is not modelled. Unauthenticated calls and every other request are modelled whatever their arguments.
- `V1Jobs.PlanPost`: the parsed body is taken in its declared TypeScript shape. A body that parses to a non-object (JSON `null`, which makes the property read throw and the route answer 500) and fields of the wrong type (`{"name": 5}`, an unknown `job_type`) are not modelled.
- `Mcp.Plan`: the parsed request is likewise taken in its declared shape; a body that parses to a non-object, or a `method` or `params` of the wrong type, is not modelled.
- The admin `by_trade` object is keyed by the trade; its JSON spellings are `TradeName`.
- `seedUserData` (`lib/seed.ts`) is not part of this model: the dashboard models only the decision to seed.
- The Stripe routes, the placeholder admin endpoints (`app/api/admin/route.ts`, `mcp-usage`, `subscriptions`), the marketing pages, the layouts and the job detail page are not part of this model.
