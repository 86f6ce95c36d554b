# Cloud resource reconciliation, modelled in Dafny

The backend copies data from two provider databases, Huawei Cloud and Tencent Cloud,
into one unified database. The unified database has five tables:

- `cloud_resources`, `cloud_accounts` and `cloud_bills` hold the copied data;
- `resource_remarks` holds the notes users write about resources;
- `sync_logs` records each synchronisation.

This project models the rules of that reconciliation and proves what they guarantee.

- **SyncService** (`SyncEngine`, `SyncMapping`, `UnifiedDb`). One sync cycle mints the
  batch number `SYNC_<ms>` once. It then runs three pipelines: resources, accounts and
  bills. Each pipeline works in five steps:
  1. Read the latest batch of each provider table, the rows whose `batch_number` is the
     table's maximum. Huawei domains are the exception: all of them are read.
  2. Map the rows to unified rows.
  3. Replace the unified table in one transaction (DELETE, the INSERT statements, COMMIT,
     or ROLLBACK on failure).
  4. Log the outcome.
  5. Validate the batch after the commit and log the validation outcome. In strict mode
     the pipeline then fails.

  The cycle is retried up to `SYNC_RETRY_TIMES` times, with a sleep between attempts.
  The unified database is the class `UnifiedDb.Db`, whose fields are the tables. The
  service is the class `SyncEngine.SyncService`. Each of its methods is proved equal to
  a function of the old database state. The properties are lemmas about those functions.
- **ValidationService** (`Validation`). Each check is a filter, or a group count, over
  the rows of one batch. `Validation.Accumulate` pushes the findings and the messages
  into the report check by check, as the service does.
- **CloudService** (`Cloud`). This covers four things:
  - the near-expiry query: a threshold, an order, and a left join of the remarks;
  - the remark upsert;
  - the older non-transactional sync routines, which DELETE and then INSERT with each
    statement committed on its own;
  - their batch number.
- **utils/common.ts** (`Common`): the remaining-days ceiling, `formatDate` and
  `generateBatchNumber`.

Shared modules:

- `Wrappers` provides `Option` and `Result`.
- `Seqs` provides filter and map over sequences, with their membership and multiset
  facts.
- `Rows` defines the row types of the source and unified tables.

How the model represents the source's values:

- Nullable columns are `Option`s.
- Money is an integer number of hundredths.
- A JavaScript `Date` is its UTC calendar fields (`Common.DateTime`).
- Elapsed time is integer milliseconds.
- The clock, the source databases and every failure are parameters. A failure is a
  source read, a statement of the transaction, a validator query or a log write. In
  `syncAll`, attempt `k` sees `world(k)`.

Source and specification differ in three places; the model follows the source:

- Tencent resource rows keep the `batch_number` of their source table; they are not
  restamped with the sync batch. The post-commit validator selects `WHERE batch_number = ?`
  with the sync batch, so it never sees those rows. `SyncMapping.TencentResourceRowsShape`
  states the batch they carry, and `Validation.ResourceReportOnlyBatch` states what the
  validator sees.
- `generateBatchNumber` leaves the `T` of the ISO string in place. See "## Findings".
  syncAccountBalances stamps its rows with that value (`Cloud.AccountBalanceRowsShape`).
  The corrected generator is defined and proved in `Common` and is not used by the
  sync operations.
- A Tencent `billing_info` balance line whose project is NULL goes to neither accounts
  nor bills, because of SQL's three-valued logic
  (`SyncMapping.NullProjectBalanceLineDropped`).

## Model

| member | source | states |
|---|---|---|
| Common.CalculateRemainingDays | backend/src/utils/common.ts:26-31 | the result is the ceiling of (expire − now) / one day: the least whole number of days whose length covers the remaining time |
| Common.RemainingDaysExact | backend/src/utils/common.ts:29-30 | an expiry exactly k days away gives exactly k |
| Common.RemainingDaysRoundsUp | backend/src/utils/common.ts:29-30 | any positive remainder of a day counts as one more day |
| Common.RemainingDaysMonotone | backend/src/utils/common.ts:29-30 | a later expiry never has fewer remaining days |
| Common.RemainingDaysExpired | backend/src/utils/common.ts:29-30 | an expiry not after now has at most 0 days |
| Common.FormatDateIsCalendarDate | backend/src/utils/common.ts:16-19 | formatDate is the part of the ISO string before the first `T`, which is exactly the 10-character `YYYY-MM-DD` date and matches the validator's date pattern |
| Common.SqlDateTimeHasDatePrefix | backend/src/services/cloud.service.ts:221 | a stored card's expiry, as the driver renders a `Date`, starts with `NNNN-NN-NN` |
| Common.BatchNumberAsWritten | backend/src/utils/common.ts:7-9 | as written, the batch number is `yyyyMMdd`, `T`, `HHmm` and the tens digit of the seconds |
| Common.BatchNumberAsWrittenHasT | backend/src/utils/common.ts:7-9 | as written, the batch number has 14 characters, its ninth is `T`, and it is not all digits |
| Common.BatchNumberAsWrittenCollides | backend/src/utils/common.ts:7-9 | as written, 10:30:41 and 10:30:45 on the same day get the same batch number |
| Common.BatchNumberFixedIsSecondStamp | backend/src/utils/common.ts:3-9 | with the `T` stripped, the batch number is the 14 digits `yyyyMMddHHmmss` |
| Common.BatchNumberFixedOrder | backend/src/utils/common.ts:7-9 | corrected batch numbers compare lexicographically exactly as their timestamps compare at one-second resolution, and are equal exactly when they fall in the same second |
| Rows.FormatOptDate | backend/src/services/sync.service.ts:566-569 | NULL stays NULL; a date becomes a 10-character `YYYY-MM-DD` string |
| Rows.OrDefault | backend/src/services/cloud.service.ts:144 | JavaScript `v \|\| d`: NULL and the empty string give the default, any other string is kept |
| Rows.Coalesce | backend/src/services/sync.service.ts:158 | SQL `COALESCE(v, d)`: only NULL gives the default |
| SyncMapping.MaxBatch | backend/src/services/sync.service.ts:130 | `MAX(batch_number)` is NULL exactly for an empty table, else a batch number of the table no smaller than any other |
| SyncMapping.LatestSelects | backend/src/services/sync.service.ts:130 | (the same latest-batch filter recurs at lines 164, 334, 348 and 358) the selection keeps only rows of the table, every kept row's batch is the greatest, every row of that batch is kept, and it is empty only for an empty table |
| SyncMapping.HuaweiResourceRowsShape | backend/src/services/sync.service.ts:118-146 | one Huawei row per latest-batch resource and per domain (all domains); each is tagged `huawei`, carries the sync batch, has zone = region, status `active` and a calendar-date expiry |
| SyncMapping.TencentResourceRowsShape | backend/src/services/sync.service.ts:152-204 | every Tencent row is tagged `tencent`, has zone = region, status `active`, a calendar-date expiry, and keeps the greatest batch number of its own source table |
| SyncMapping.TencentKindShape | backend/src/services/sync.service.ts:252-265 | a row mapped from one Tencent table carries that table's type name and batch |
| SyncMapping.AccountRowsShape | backend/src/services/sync.service.ts:373-419 | every account row carries the sync batch and is `cash` or `stored_card`; cash rows have no expiry; stored cards are Huawei, in `CNY`, with a calendar-date expiry; Tencent rows are cash in `CNY` |
| SyncMapping.BalanceOrBillLine | backend/src/services/sync.service.ts:359-360 | a `billing_info` row with non-NULL project and service is a balance line or a bill line, never both or neither, and it is a balance line exactly for (`系统`, `账户余额`) |
| SyncMapping.NullProjectBalanceLineDropped | backend/src/services/sync.service.ts:482 | a balance line whose project is NULL matches neither the accounts condition nor the bills condition |
| SyncMapping.BillingInfoSplit | backend/src/services/sync.service.ts:358-360 | when every latest row has a project and a service, the accounts rows and the bills rows together are exactly the latest batch, as a multiset |
| SyncMapping.BillRowsShape | backend/src/services/sync.service.ts:495-527 | every bill row carries the sync batch, cycle `monthly`, a project and a non-empty currency; Tencent bills have an amount and `CNY`; dates are calendar dates |
| UnifiedDb.Replace | backend/src/services/sync.service.ts:206-286 | DELETE, the non-empty INSERTs in order, and COMMIT give the outcome ReplaceOutcome: old records on failure, else the new rows numbered from the counter |
| UnifiedDb.RunInserts | backend/src/services/sync.service.ts:215-285 | the non-empty INSERTs run in order, numbering rows on from the counter; it stops at the first issued INSERT that fails, with the counter advanced past the rows inserted before it, and otherwise has inserted every row |
| UnifiedDb.ReplaceAtomic | backend/src/services/sync.service.ts:312-314 | the table stays well-formed; a failed transaction leaves every old record; a committed one holds exactly the new rows in order with fresh ids; with no rows it is empty |
| Validation.Accumulate | backend/src/services/validation.service.ts:42-82 | the pushes produce the report: all findings in check order, one message per check that found something, the batch's row count |
| Validation.ErrorsBound | backend/src/services/validation.service.ts:42-72 | each check adds at most one message, and every message comes from a check that found something |
| Validation.ErrorsEmpty | backend/src/services/validation.service.ts:42-73 | errors are empty exactly when no check found anything, exactly when there are no findings |
| Validation.FindingsContain | backend/src/services/validation.service.ts:42-44 | every finding of every check is in `invalidRecords` |
| Validation.ErrorsContain | backend/src/services/validation.service.ts:42-45 | a check that found something contributes its message |
| Validation.Distinct | backend/src/services/validation.service.ts:66 | the GROUP BY keys: each key of the batch exactly once |
| Validation.DuplicatesExact | backend/src/services/validation.service.ts:62-68 | the duplicate check reports exactly the keys that occur more than once, each once with its count |
| Validation.FlaggedRowsExact | backend/src/services/validation.service.ts:35-40 | a row is reported by a row check exactly when it fails the condition |
| Validation.ValidateResources | backend/src/services/validation.service.ts:26-89 | the report of the three resource checks over the batch, with the batch size |
| Validation.ResourceReport | backend/src/services/validation.service.ts:35-59 | a batch resource is reported as missing fields exactly when resource_id, resource_name or account_name is NULL, and as a bad date exactly when its expiry lacks the `NNNN-NN-NN` prefix; each such row is among the invalid records and its check's message among the errors |
| Validation.ResourceReportOnlyBatch | backend/src/services/validation.service.ts:35-73 | every reported row is a table row of the batch, every group has more than one row, at most 3 errors |
| Validation.ValidateAccounts | backend/src/services/validation.service.ts:92-154 | the report of the three account checks over the batch, with the batch size |
| Validation.AccountBalanceReport | backend/src/services/validation.service.ts:101-124 | a NULL balance is reported by both the required-field and the balance check; a negative balance with a name only by the balance check |
| Validation.AccountDuplicatesReport | backend/src/services/validation.service.ts:127-138 | a (provider, account, balance type) key occurring more than once in the batch is reported with its count, with the duplicate message |
| Validation.AccountReportOnlyBatch | backend/src/services/validation.service.ts:101-138 | every reported row is a table row of the batch, every group has more than one row, at most 3 errors |
| Validation.ValidateBills | backend/src/services/validation.service.ts:157-222 | the report of the three bill checks over the batch, with the batch size |
| Validation.BillReport | backend/src/services/validation.service.ts:166-206 | a batch bill has missing fields exactly when account, amount or service is NULL; a bad amount exactly when NULL or negative; a bad date exactly when NULL, after today or malformed; a clean bill is not reported |
| Validation.BillReportOnlyBatch | backend/src/services/validation.service.ts:166-206 | every finding is a table row of the batch (bills report no groups), at most 3 errors |
| SyncEngine.NumberOr | backend/src/services/sync.service.ts:55-56 | `Number(env) \|\| d`: a missing or zero setting gives the default, any other value is kept |
| SyncEngine.SyncBatchNumberInjective | backend/src/services/sync.service.ts:81-83 | `SYNC_<ms>` starts with `SYNC_`, and distinct clock readings give distinct batch numbers |
| SyncEngine.Entry | backend/src/services/sync.service.ts:60-78 | a log row is `success` exactly without an error; an empty message is stored as NULL |
| SyncEngine.GroupsFlatten | backend/src/services/sync.service.ts:212-283 | a pipeline's INSERT statements together insert its mapped rows in source order: Huawei first, then Tencent |
| SyncEngine.PipelinesKeepValid | backend/src/services/sync.service.ts:206-320 | each pipeline keeps the unified tables well-formed, whatever fails |
| SyncEngine.PipelineSucceeds | backend/src/services/sync.service.ts:286-320 | a pipeline succeeds exactly when its reads, its transaction and its validator queries succeed and validation is clean or not strict; it logs 1 to 3 entries, all under the batch, and fails exactly when its last entry is a failure |
| SyncEngine.ValidationLogged | backend/src/services/sync.service.ts:286-303 | validation errors after a commit log `success`, then a failed `<type>_validation` entry starting `Validation failed: `, then in strict mode a failed `<type>` entry `Data validation failed` |
| SyncEngine.ResourcesTable | backend/src/services/sync.service.ts:206-320 | after syncResources the resources table is untouched on a read failure, keeps its old rows on a failed transaction, and otherwise holds exactly the mapped rows, even when strict validation then fails; the other tables are untouched |
| SyncEngine.AccountsTable | backend/src/services/sync.service.ts:362-452 | the same for syncAccounts and `cloud_accounts` |
| SyncEngine.BillsTable | backend/src/services/sync.service.ts:484-561 | the same for syncBills and `cloud_bills` |
| SyncEngine.CycleAppendsLog | backend/src/services/sync.service.ts:93-97 | an attempt writes no remark and only appends log entries carrying its batch number |
| SyncEngine.CycleKeepsValid | backend/src/services/sync.service.ts:93-97 | an attempt keeps the tables well-formed |
| SyncEngine.RetryBounds | backend/src/services/sync.service.ts:90-108 | the loop makes at most retryTimes attempts; on failure exactly retryTimes, or none when it is not positive |
| SyncEngine.RetryStopsAtSuccess | backend/src/services/sync.service.ts:93-99 | the loop stops at the first attempt that succeeds |
| SyncEngine.RetryAppendsLog | backend/src/services/sync.service.ts:87-111 | the whole loop reuses one batch number: it writes no remark, only appends entries under that batch, and keeps the tables well-formed |
| SyncEngine.SyncService.constructor | backend/src/services/sync.service.ts:53-57 | retry count and delay from the environment with defaults 3 and 5000; strict mode exactly when STRICT_VALIDATION is `true` |
| SyncEngine.SyncService.LogSync | backend/src/services/sync.service.ts:60-78 | appends the entry when the log is writable, else changes nothing; never fails |
| SyncEngine.SyncService.AfterCommit | backend/src/services/sync.service.ts:286-303 | the state and outcome after a commit are Finish's: commit logged, then the validation outcome |
| SyncEngine.SyncService.Conclude | backend/src/services/sync.service.ts:312-320 | a failure is logged under the pipeline's type and fails it; a commit goes on to AfterCommit |
| SyncEngine.SyncService.SyncResources | backend/src/services/sync.service.ts:115-322 | the new state and outcome are ResourcesRun of the old state |
| SyncEngine.SyncService.SyncAccounts | backend/src/services/sync.service.ts:325-454 | the new state and outcome are AccountsRun of the old state |
| SyncEngine.SyncService.SyncBills | backend/src/services/sync.service.ts:457-563 | the new state and outcome are BillsRun of the old state |
| SyncEngine.SyncService.RunCycle | backend/src/services/sync.service.ts:93-97 | one attempt runs all three pipelines under one batch and succeeds when all three do |
| SyncEngine.SyncService.TryOnce | backend/src/services/sync.service.ts:92-107 | a success ends the loop with one more attempt; a failure leaves the rest of the loop to run from the new state |
| SyncEngine.SyncService.SyncAll | backend/src/services/sync.service.ts:86-112 | state, attempt count and outcome are Retry's from the old state under `SYNC_<ms>`; failure throws `Sync failed after N attempts`; it sleeps between attempts only, attempts − 1 times |
| Cloud.SortByDays | backend/src/services/cloud.service.ts:299 | the result is ordered by remaining days and is a permutation of the input |
| Cloud.GetExpiryResources | backend/src/services/cloud.service.ts:288-307 | the rows are in ascending remaining-days order, or descending when orderBy is not `asc` |
| Cloud.ExpiryRowsJoined | backend/src/services/cloud.service.ts:293-298 | every row is a stored resource within the threshold (default 65) with the remark stored under its (provider, resource_id), or none |
| Cloud.ExpiryCount | backend/src/services/cloud.service.ts:290-298 | one row is returned per stored resource within the threshold |
| Cloud.ExpiryResourcesExact | backend/src/services/cloud.service.ts:290-298 | each stored resource within the threshold appears as often as in the table, and none beyond it |
| Cloud.FindById | backend/src/services/cloud.service.ts:341-348 | the found record is in the table with that id; none means no record has it |
| Cloud.RemarkUpdateFails | backend/src/services/cloud.service.ts:346-361 | the update fails exactly when no resource has the id or a query fails, always with `Failed to update resource remark`, and then no remark changes |
| Cloud.RemarkUpsert | backend/src/services/cloud.service.ts:353-358 | afterwards the resource's (provider, resource_id) maps to the new text and every other remark is unchanged |
| Cloud.RemarkUpdateIdempotent | backend/src/services/cloud.service.ts:353-358 | repeating a successful update changes nothing more |
| Cloud.Overwrite | backend/src/services/cloud.service.ts:134-158 | DELETE then INSERT, committed separately, as OverwriteOutcome |
| Cloud.OverwriteEffect | backend/src/services/cloud.service.ts:240-246 | a failure before the DELETE keeps the table; a failed INSERT loses every old row; success leaves exactly the new rows with fresh ids; no rows leave an empty table |
| Cloud.ExpirySyncRowsSound | backend/src/services/cloud.service.ts:131-150 | every row written back is a stored resource with at most 65 days, with project defaulted to `default` and zone to region |
| Cloud.ExpirySyncRowsComplete | backend/src/services/cloud.service.ts:131 | every stored resource with at most 65 days is written back |
| Cloud.ExpirySyncRowsOrder | backend/src/services/cloud.service.ts:138-150 | as many rows as resources qualify, in ascending days, each with a project; status is left to its column default, taken as NULL |
| Cloud.ExpirySyncKeepsNearExpiry | backend/src/services/cloud.service.ts:128-163 | on success the table is exactly the rows written back, with fresh ids; remarks, log, accounts and bills are unchanged |
| Cloud.AccountBalanceRowsShape | backend/src/services/cloud.service.ts:166-238 | Huawei cash, then VALID stored cards, then Tencent balances; all `CNY` under the one batch number that the service's own generateBatchNumber gives: 14 characters with `T` as the ninth, so not all digits; cash rows without expiry; each card row from a VALID card |
| Cloud.OnlyValidCards | backend/src/services/cloud.service.ts:188 | exactly the `VALID` cards are synchronised, each as often as it is stored |
| Cloud.BillingSyncReinserts | backend/src/services/cloud.service.ts:254-285 | every bill is written back in order with the same columns; a missing cycle becomes `monthly`; billing_date is left to its column default, taken as NULL; a second run changes no row |
| Cloud.CloudService.SyncExpiryResources | backend/src/services/cloud.service.ts:128-163 | the new state and result are ExpirySyncRun of the old state |
| Cloud.CloudService.SyncAccountBalances | backend/src/services/cloud.service.ts:166-251 | the new state and result are AccountBalancesSyncRun of the old state |
| Cloud.CloudService.SyncBillingDetails | backend/src/services/cloud.service.ts:254-285 | the new state and result are BillingSyncRun of the old state |
| Cloud.CloudService.UpdateResourceRemark | backend/src/services/cloud.service.ts:338-363 | the remarks and result are RemarkUpdate's; nothing else changes |

## Left out

- The `Promise.all` fan-out runs the three pipelines concurrently. Here they run one
  after the other. All three always run, and the attempt fails when any of them fails.
  Early rejection and the siblings that keep running after it are not modelled.
- Each attempt's source reads are an input (`Attempt`), read before the pipelines run.
  The source databases do not change during an attempt.
- `sleep(retryDelay)` is a counter of sleeps. Time does not pass.
- Log timestamps, `created_at` and `updated_at` are not modelled. Neither is console
  output.
- `Number(env)` of a non-integer setting is not modelled. Settings are integers or
  missing.
- `ON DUPLICATE KEY UPDATE` on the unified tables is not modelled; their schema is not
  part of this model. The remark upsert is modelled as a map keyed by
  (provider, resource_id).
- The Tencent amount `parseFloat(...).toFixed(2)` is not modelled as floating point.
  Amounts are integers in hundredths, on which it is the identity.
- Time zones are not modelled. Every `Date` is UTC.
- Rows with equal remaining days: the model promises no order among them. MySQL's order
  for them is unspecified.
- `Cloud.RemarkUpdate`: a remark for a resource whose `resource_id` is NULL does not
  change the map, because no join can reach it. The database does store such a row.
- `UnifiedDb.Replace`: InnoDB's auto-increment counter on a failed INSERT is modelled as
  advancing only past the completed statements.
- syncExpiryResources mints a batch number it never uses. That value is not modelled.
- `getAccountBalances` is not part of this model. It is a bare `SELECT *` with no rules.
  `getBillingDetails` appears only as the read inside syncBillingDetails.
- SyncEngine.SyncService.constructor: `STRICT_VALIDATION` is read once, when the service
  is built. The source reads it each time a validation fails
  (backend/src/services/sync.service.ts:300). The two agree only while the environment
  does not change during the service's life; changes to it are not modelled.
- Common.ToIsoString: the year is always rendered as four digits. JavaScript writes years
  above 9999 as `+0YYYYY`, but such years lie outside MySQL's DATETIME range and are not
  modelled. For such a year, the 10-character date strings that
  `Common.FormatDateIsCalendarDate` and `Rows.FormatOptDate` state hold of the model only,
  not of JavaScript.
- Cloud.Reinserted and Cloud.Rebilled: the re-inserts of syncExpiryResources and
  syncBillingDetails (backend/src/services/cloud.service.ts:153-156 and 275) do not name
  `status` and `billing_date`, so MySQL stores those columns' defaults. The schema is not
  part of this model; both defaults are taken to be NULL.
- SyncMapping.MaxBatch: `batch_number` is taken to be a string column on a binary
  collation, so `MAX` orders by code points (`Common.LexLess`). A numeric column or a
  case-insensitive collation would order some batch numbers differently.
- SyncEngine.PipelineEnv: one flag decides whether every log write of a pipeline succeeds.
  In the source each `logSync` is a separate INSERT that can fail alone, so one entry of a
  pipeline may be stored while the next is lost. Those log states are not modelled.
- Errors thrown by the validator's queries are a fault given per pipeline
  (`ValidatorFails`). Which query fails is not modelled.

## Findings

| source | as written | input that shows it | evidently intended | confidence | as-written member | corrected member |
|---|---|---|---|---|---|---|
| backend/src/utils/common.ts:7-9 | stripping `-`, `:` and `.` from the ISO string and keeping 14 characters leaves the `T` (the private copy at backend/src/services/cloud.service.ts:123-125 does the same), so the result is `yyyyMMddTHHmm` plus the tens digit of the seconds | 2024-01-15T10:30:41.000Z and 2024-01-15T10:30:45.123Z both give `20240115T10304` | the documented `yyyyMMddHHmmss`: 14 digits, one per second, ordered by time | not executed | Common.BatchNumberAsWrittenCollides | Common.BatchNumberFixedOrder |
