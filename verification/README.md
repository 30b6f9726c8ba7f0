# Quota-gated video API executor — Dafny model

This project models the quota accounting of a small client of a video platform's API. Every API method has a fixed
quota cost, and the platform grants a daily budget. The client keeps a ledger of the calls it made. Before it runs a
request, it checks that ledger and refuses the call with status 429 when the call would take today's total over a
configured limit.

Three modules, one per concern:

- `QuotaCosts` (`quota_costs.dfy`) is the constant cost table `resource -> method -> cost` as a
  `map<string, map<string, nat>>`. It has a lookup and lemmas about the table's contents.
- `QuotaLedger` (`quota_ledger.dfy`) is the usage ledger and `update_quota_log`. A `Record` holds
  `(methodName, date, time, usedQuota, totalQuotaUsed)`. The persisted file is the field `rows: seq<Record>` of the
  class `QuotaLog`, and `QuotaLog.Update` rewrites it in place. The pure function `Updated` specifies that update:
  append, stable re-sort by `(date, time)`, then the running total. The lemmas state what the update keeps:
  - length plus one;
  - sortedness;
  - the multiset of rows;
  - the untouched rows;
  - the running-sum invariant (`RunningTotals`);
  - the link between each total and the day's usage (`DayUsage`).
- `RequestExecutor` (`request_executor.dfy`) covers `YoutubeRequestExecutor.execute`:
  - the methodId parsing, with `Split`/`Join` modelling Python's `str.split`/`str.join`;
  - the admission test;
  - the remote call;
  - the ledger update on success and on HTTP error alike.

  `Executor.Execute` is the imperative method. The pure function `ExecuteStep` gives its outcome as the response, the
  new ledger and whether the request ran. The lemmas relate that outcome to the day's usage and the limit.

Modelling choices:

- Dates and times are `int`s (day numbers, times of day). Only their order is used.
- No ledger file is the empty `rows`. The source only ever writes the file with at least one row.
- The old ledger is always sorted (`QuotaLog.Valid`), and the multi-column pandas sort is stable. So the re-sort of
  "old rows + new record" is the stable insertion of the new record after every row it does not sort before.
  `Position`/`Insert` model that, and `QuotaLog.Resort` computes it with a loop.
- The running total is modelled literally. The date of the second-to-last row is compared with the new record's
  date, and the second-to-last row's total is added to whatever row ends up last. The sum properties are therefore
  proved when the new record does not sort before the current last row. `OutOfOrderUpdateUndercounts` shows what
  happens otherwise. In practice this occurs when the Pacific-time time of day goes back in the autumn clock change,
  because the stored time of day carries no time zone.
- The admission test compares the last row's date with the machine's local date (`datetime.today()`), while the new
  record is stamped with the Pacific-time date and time. `Executor.Execute` and `ExecuteStep` therefore take two
  inputs: `today` for the test and (`date`, `time`) for the record. The lemmas that need them equal say so. When the
  two dates differ, the test does not look at the Pacific day's usage at all, and that day can go over the limit
  (`LocalDayAheadSkipsCheck`).
- The remote request is a `Request` object. It has a fixed `reply` (`Success(payload)` or `HttpError(code)`) and an
  `invocations` counter, so "the request was not sent" can be stated.
- A `methodId` with fewer than three dot-separated parts fails with an `IndexError` in the source. A resource or
  method missing from the cost table fails with a `KeyError`. Both are preconditions of `Executor.Execute` and
  `ExecuteStep`. For the `KeyError` the precondition hides an ordering detail. When the ledger has a last row from
  today, the lookup at src/youtube_request_executor.py:104 fails before anything is sent. With no ledger, or a last
  row from another day, the cost is first looked up at :126 or :138, after the request went out at :122. In that case
  the service has already run (and charged) the request when the `KeyError` is raised, and no ledger row is written.

## Model

| member | source | states |
|---|---|---|
| `QuotaCosts.Cost` | src/config/quota_method_amounts.py:1-93 | the cost of a listed resource/method lies between 1 and 1600 units |
| `QuotaCosts.CostsInRange` | src/config/quota_method_amounts.py:1-93 | every cost in the table is a positive integer, at most 1600 |
| `QuotaCosts.VideosInsertIsMaximal` | src/config/quota_method_amounts.py:80-82 | `videos.insert` costs 1600 and no entry costs more |
| `QuotaCosts.NamedCosts` | src/config/quota_method_amounts.py:5-65 | `search.list` costs 100, `captions.update` 450, `captions.insert` 400 |
| `QuotaCosts.ResourcesHaveMethods` | src/config/quota_method_amounts.py:2-92 | every resource maps to a non-empty table of methods |
| `QuotaCosts.ListCosts` | src/config/quota_method_amounts.py:2-92 | every `list` method costs 1, except `captions.list` (50) and `search.list` (100) |
| `QuotaLedger.LastRow` | src/youtube_request_executor.py:90-92 | the last row exists exactly when the ledger exists; in a sorted ledger no row is later than it |
| `QuotaLedger.Position` | src/youtube_request_executor.py:49-51 | the stable sort places the new record after every row it does not sort before and before every row it sorts before |
| `QuotaLedger.Updated` | src/youtube_request_executor.py:18-65 | one update adds exactly one row |
| `QuotaLedger.Insert` | src/youtube_request_executor.py:49-51 | appending the new record and re-sorting yields one more row: the old rows plus the new record, as multisets |
| `QuotaLedger.InsertSorted` | src/youtube_request_executor.py:49-51 | the re-sort of a sorted ledger leaves it sorted by (date, time) |
| `QuotaLedger.InsertAtEnd` | src/youtube_request_executor.py:49-54 | the new record is the last row after the re-sort exactly when it does not sort before the old last row |
| `QuotaLedger.FirstUpdate` | src/youtube_request_executor.py:32-47 | with no ledger, the update writes exactly the new record, whose total equals its cost |
| `QuotaLedger.UpdateShape` | src/youtube_request_executor.py:49-63 | an update of an existing ledger leaves it sorted, keeps every row but the last as the re-sort placed it, and holds exactly the old rows and the new record apart from the last total |
| `QuotaLedger.UpdateRecordsCall` | src/youtube_request_executor.py:18-65 | every update of a sorted ledger, first write included, leaves it sorted, holds a row with the call's method, stamp and cost, and consists of the old rows and the new record, only the last total changed |
| `QuotaLedger.UpdateInOrder` | src/youtube_request_executor.py:53-63 | for an in-order record the old rows are untouched and the new last row's total is its cost on a new day, or its cost plus the previous total on the same day |
| `QuotaLedger.RunningTotalIsDayUsage` | src/youtube_request_executor.py:59-63 | in a sorted ledger of running totals, each row's total is the sum of that day's costs up to and including it |
| `QuotaLedger.UpdateKeepsRunningTotals` | src/youtube_request_executor.py:53-63 | an in-order update preserves the running-total invariant |
| `QuotaLedger.UpdateTotalsDay` | src/youtube_request_executor.py:59-63 | after in-order same-day updates with costs c1..ck the last total is c1+...+ck, the day's whole usage |
| `QuotaLedger.OutOfOrderUpdateUndercounts` | src/youtube_request_executor.py:53-63 | a record stamped before the last two rows of its day leaves the last total (11) below the day's usage (106) |
| `QuotaLedger.QuotaLog.constructor` | src/youtube_request_executor.py:32-36 | a ledger that does not exist yet has no rows |
| `QuotaLedger.QuotaLog.Resort` | src/youtube_request_executor.py:49-51 | the loop finds the stable-sort position: the result is the sorted insertion of the new record, a permutation of old rows plus it |
| `QuotaLedger.QuotaLog.Update` | src/youtube_request_executor.py:18-65 | `update_quota_log` keeps the ledger sorted and leaves it equal to `Updated` of the old rows |
| `RequestExecutor.Split` | src/youtube_request_executor.py:86-87 | splitting yields at least one piece and no piece contains the separator |
| `RequestExecutor.JoinSplit` | src/youtube_request_executor.py:86-87 | joining the pieces of a split gives back the methodId |
| `RequestExecutor.SplitJoin` | src/youtube_request_executor.py:86-87 | splitting a join of dot-free pieces gives back the pieces |
| `RequestExecutor.ResourceOf` | src/youtube_request_executor.py:86 | the resource taken from a methodId is a name without a dot |
| `RequestExecutor.MethodOf` | src/youtube_request_executor.py:87 | the method taken from a methodId is a name without a dot |
| `RequestExecutor.ParseMethodId` | src/youtube_request_executor.py:86-87 | for `api.resource.method` the resource is the second component and the method the third |
| `RequestExecutor.ExecuteStep` | src/youtube_request_executor.py:74-146 | a call either runs and adds one ledger row, or returns 429 with the ledger unchanged |
| `RequestExecutor.SameDayAdmission` | src/youtube_request_executor.py:102-109 | the admission test (`Admits`) with a last row from today: the call runs iff its cost plus that row's total is at most the limit (equality admitted), for any ledger; a refusal returns 429 and writes nothing; in a sorted ledger of running totals this reads: iff today's usage plus the cost is at most the limit |
| `RequestExecutor.NewDayAdmission` | src/youtube_request_executor.py:102-114 | the admission test (`Admits`) with no ledger or a last row whose date is not the local today: the call runs whatever the earlier total |
| `RequestExecutor.NewDayChargesOwnCost` | src/youtube_request_executor.py:110-140 | when in addition the new record's date is later than the last row's, the old rows are kept and the new total is the call's own cost |
| `RequestExecutor.AdmittedCallIsCharged` | src/youtube_request_executor.py:121-146 | a call the admission test lets through runs, the ledger becomes the old rows plus one row with the method's table cost and stamp (only the last total changed), stays sorted, and the payload or the error's status code is returned |
| `RequestExecutor.SameDayStaysWithinLimit` | src/youtube_request_executor.py:102-106 | after an admitted in-order same-day call the last total is the day's usage and is within the limit |
| `RequestExecutor.FirstCallStartsLedger` | src/youtube_request_executor.py:113-140 | no ledger, cost 100: the call runs and the ledger holds one row with total 100 |
| `RequestExecutor.OverLimitIsRefused` | src/youtube_request_executor.py:102-109 | 450 used today, cost 100, limit 500: 429 and no new row |
| `RequestExecutor.ReachingLimitIsAdmitted` | src/youtube_request_executor.py:102-106 | 450 used today, cost 50, limit 500: the call runs and the new total is 500 |
| `RequestExecutor.NewDayIgnoresYesterday` | src/youtube_request_executor.py:110-111 | 9999 used yesterday, cost 1600, limit 500: the call runs and the new total is 1600 |
| `RequestExecutor.LocalDayAheadSkipsCheck` | src/youtube_request_executor.py:102-119 | local date already day 21, Pacific date still day 20 with 450 used: a 100-unit call runs and day 20's total becomes 550, over the limit of 500 |
| `RequestExecutor.FailedCallIsCharged` | src/youtube_request_executor.py:121-134 | a call failing with 403 returns 403 and is still recorded with its cost |
| `RequestExecutor.Request.Execute` | src/youtube_request_executor.py:122-123 | sending the request returns the service's reply and counts one invocation |
| `RequestExecutor.Executor.constructor` | src/youtube_request_executor.py:68-72 | the executor holds the request and the quota limit |
| `RequestExecutor.Executor.Execute` | src/youtube_request_executor.py:74-146 | `execute` returns, writes and sends exactly what `ExecuteStep` says: 429 with no call and no write, or one call and one ledger update; the ledger stays sorted |

## Left out

- Parquet reads and writes and the pandas DataFrame mechanics are left out. The ledger file is the in-memory `rows`,
  and "file not found" is the empty ledger.
- The API client library and its transport are left out. The request's answer is the `reply` value fixed when the
  `Request` is built.
- Time zones and the clock are left out. The Pacific-time conversion and `datetime.now()`/`datetime.today()` become
  the inputs `today`, `date` and `time`. Dates and times are ordered integers.
- The console diagnostics are left out, and so is the re-read of the ledger used only to print the day's total.
- Configuration loading, the module-level constants read from the environment, and the `__main__` demo are left out.
- The commented-out reset logic is dead code and is not modelled.
- Concurrency is not modelled. The read-then-update sequence is single-process in the source, and the model runs one
  `Execute` at a time.
- Ledger storage errors other than a missing file are left out. They propagate as exceptions in the source.
- QuotaLedger.UpdateTotalsDay: proved only for a new record that does not sort before the last row. The source's
  update does not keep the sum otherwise (see `QuotaLedger.OutOfOrderUpdateUndercounts`).
- QuotaLedger.UpdateKeepsRunningTotals: proved only for a new record that does not sort before the last row, for the
  same reason.
- RequestExecutor.SameDayStaysWithinLimit: proved only for a ledger that already holds running totals
  (`RunningTotals`), for a stamp that is not earlier than the last row and for a `today` equal to the record's date,
  for the same reason.
- Exceptions from the remote call other than an HTTP error (a socket timeout, a transport failure) are not modelled.
  The source catches only `HttpError` around the call, so such an exception leaves `execute` without a ledger row
  being written; the model's `Reply` has only `Success` and `HttpError`, so its "every call that runs is charged"
  covers those two outcomes only.
