/**
  The quota-gated request executor: before running a prepared API request it
  reads the ledger's last row, refuses the call with status 429 (Too Many
  Requests, section 4 of RFC 6585) when that row is from today and the call's
  cost would take the day's total over the limit, and otherwise runs the
  request and records its cost in the ledger, whether the request succeeded
  or failed with an HTTP error.
 */
module RequestExecutor {
  import opened QuotaLedger
  import QuotaCosts

  // ---------------------------------------------------------------------------
  // Method identifiers: "<api>.<resource>.<method>"
  // ---------------------------------------------------------------------------

  /** `s.split(sep)`: the pieces of `s` between occurrences of `sep`, empty pieces included. */
  function Split(s: string, sep: char): (parts: seq<string>)
    ensures |parts| >= 1
    ensures forall i :: 0 <= i < |parts| ==> sep !in parts[i]
    decreases |s|
  {
    if s == [] then [[]]
    else if s[0] == sep then [[]] + Split(s[1..], sep)
    else
      var rest := Split(s[1..], sep);
      [[s[0]] + rest[0]] + rest[1..]
  }

  /** `sep.join(parts)`. */
  function Join(parts: seq<string>, sep: char): string
    requires |parts| >= 1
  {
    if |parts| == 1 then parts[0] else parts[0] + [sep] + Join(parts[1..], sep)
  }

  /** Joining the pieces of a split gives back the original text. */
  lemma {:induction false} JoinSplit(s: string, sep: char)
    ensures Join(Split(s, sep), sep) == s
    decreases |s|
  {
    if s != [] {
      JoinSplit(s[1..], sep);
      var rest := Split(s[1..], sep);
      if s[0] == sep {
        assert ([[]] + rest)[1..] == rest;
      } else {
        var parts := [[s[0]] + rest[0]] + rest[1..];
        assert s == [s[0]] + s[1..];
        if |rest| > 1 {
          assert parts[1..] == rest[1..];
        }
      }
    }
  }

  /** Splitting the join of pieces that do not contain the separator gives back the pieces. */
  lemma {:induction false} SplitJoin(parts: seq<string>, sep: char)
    requires |parts| >= 1
    requires forall i :: 0 <= i < |parts| ==> sep !in parts[i]
    ensures Split(Join(parts, sep), sep) == parts
    decreases |Join(parts, sep)|
  {
    var s := Join(parts, sep);
    if parts[0] == [] {
      if |parts| > 1 {
        assert s == [sep] + Join(parts[1..], sep);
        assert s[1..] == Join(parts[1..], sep);
        SplitJoin(parts[1..], sep);
        assert parts == [[]] + parts[1..];
      }
    } else {
      var c := parts[0][0];
      var shorter := [parts[0][1..]] + parts[1..];
      assert shorter[1..] == parts[1..];
      assert parts[0] == [c] + parts[0][1..];
      assert Join(parts, sep) == [c] + Join(shorter, sep);
      assert s[1..] == Join(shorter, sep);
      SplitJoin(shorter, sep);
      assert parts == [[c] + shorter[0]] + shorter[1..];
    }
  }

  /** The identifier names at least an api, a resource and a method. */
  predicate WellFormedId(methodId: string) {
    |Split(methodId, '.')| >= 3
  }

  /** The second dot-separated component of the identifier: a name without a dot. */
  function ResourceOf(methodId: string): (r: string)
    requires WellFormedId(methodId)
    ensures '.' !in r
  {
    Split(methodId, '.')[1]
  }

  /** The third dot-separated component of the identifier: a name without a dot. */
  function MethodOf(methodId: string): (r: string)
    requires WellFormedId(methodId)
    ensures '.' !in r
  {
    Split(methodId, '.')[2]
  }

  /** The identifier of a call of `operation` on `resource`. */
  predicate Calls(methodId: string, resource: string, operation: string) {
    WellFormedId(methodId) && ResourceOf(methodId) == resource && MethodOf(methodId) == operation
  }

  /** For "<api>.<resource>.<method>" the parse recovers the resource and the method. */
  lemma ParseMethodId(api: string, resource: string, operation: string)
    requires '.' !in api && '.' !in resource && '.' !in operation
    ensures Calls(api + "." + resource + "." + operation, resource, operation)
  {
    var parts := [api, resource, operation];
    assert Join(parts[1..], '.') == resource + "." + operation by {
      assert parts[1..][1..] == [operation];
    }
    assert Join(parts, '.') == api + "." + resource + "." + operation;
    SplitJoin(parts, '.');
  }

  // ---------------------------------------------------------------------------
  // Requests, replies and the admission decision
  // ---------------------------------------------------------------------------

  /** What the remote service does with a request: answers it, or fails with an HTTP status code. */
  datatype Reply = Success(payload: string) | HttpError(statusCode: int)

  /** What `execute` hands back: the response body, or a status code. */
  datatype Response = Payload(body: string) | StatusCode(code: int)

  /** Too Many Requests. */
  const TooManyRequests: int := 429

  /**
    The admission test: a call is refused only when the ledger's last row is
    dated today and the call's cost plus that row's total exceeds the limit.
   */
  predicate Admits(last: Option<Record>, today: Date, cost: nat, quotaLimit: int) {
    last.None? || last.value.date != today || cost + last.value.totalQuotaUsed <= quotaLimit
  }

  /** The outcome of one `execute`: the value returned, the ledger afterwards, and whether the request ran. */
  datatype Step = Step(response: Response, rows: seq<Record>, invoked: bool)

  /**
    One `execute` of the request `methodId`, whose remote answer is `reply`,
    against the ledger `rows`. `today` is the date the admission test compares
    with; (`date`, `time`) is the stamp written into the new record.
   */
  function ExecuteStep(rows: seq<Record>, methodId: string, reply: Reply, quotaLimit: int,
                       today: Date, date: Date, time: Time): (st: Step)
    requires WellFormedId(methodId) && QuotaCosts.Known(ResourceOf(methodId), MethodOf(methodId))
    ensures st.invoked || (st.response == StatusCode(TooManyRequests) && st.rows == rows)
    ensures |st.rows| == |rows| + (if st.invoked then 1 else 0)
  {
    var cost := QuotaCosts.Cost(ResourceOf(methodId), MethodOf(methodId));
    if !Admits(LastRow(rows), today, cost, quotaLimit) then Step(StatusCode(TooManyRequests), rows, false)
    else
      var written := Updated(rows, MethodOf(methodId), date, time, cost);
      match reply
      case Success(payload) => Step(Payload(payload), written, true)
      case HttpError(code) => Step(StatusCode(code), written, true)
  }

  // ---------------------------------------------------------------------------
  // Properties of one execute
  // ---------------------------------------------------------------------------

  /**
    With a last row from today, the call runs exactly when its cost plus that
    row's total stays within the limit (equality admitted); a refused call
    returns 429 and leaves the ledger as it was. When the ledger is sorted and
    its totals are running totals, that row's total is today's whole usage.
   */
  lemma SameDayAdmission(rows: seq<Record>, methodId: string, reply: Reply, quotaLimit: int,
                         today: Date, date: Date, time: Time)
    requires WellFormedId(methodId) && QuotaCosts.Known(ResourceOf(methodId), MethodOf(methodId))
    requires rows != [] && rows[|rows| - 1].date == today
    ensures var st := ExecuteStep(rows, methodId, reply, quotaLimit, today, date, time);
      var cost := QuotaCosts.Cost(ResourceOf(methodId), MethodOf(methodId));
      && (st.invoked <==> cost + rows[|rows| - 1].totalQuotaUsed <= quotaLimit)
      && (Sorted(rows) && RunningTotals(rows) ==> (st.invoked <==> DayUsage(rows, today) + cost <= quotaLimit))
      && (!st.invoked ==> st.response == StatusCode(TooManyRequests) && st.rows == rows)
  {
    if Sorted(rows) && RunningTotals(rows) {
      RunningTotalIsDayUsage(rows, |rows| - 1);
      assert rows[..|rows|] == rows;
    }
  }

  /**
    With no ledger, or a last row dated on another day than `today`, the
    admission test does not look at the earlier total: the call runs.
   */
  lemma NewDayAdmission(rows: seq<Record>, methodId: string, reply: Reply, quotaLimit: int,
                        today: Date, date: Date, time: Time)
    requires WellFormedId(methodId) && QuotaCosts.Known(ResourceOf(methodId), MethodOf(methodId))
    requires rows == [] || rows[|rows| - 1].date != today
    ensures ExecuteStep(rows, methodId, reply, quotaLimit, today, date, time).invoked
  {
  }

  /**
    When in addition the new record is stamped on a later day than the last
    row, the old rows are kept and the new record's total is its own cost.
   */
  lemma NewDayChargesOwnCost(rows: seq<Record>, methodId: string, reply: Reply, quotaLimit: int,
                             today: Date, date: Date, time: Time)
    requires WellFormedId(methodId) && QuotaCosts.Known(ResourceOf(methodId), MethodOf(methodId))
    requires rows == [] || rows[|rows| - 1].date != today
    requires rows == [] || rows[|rows| - 1].date < date
    ensures var st := ExecuteStep(rows, methodId, reply, quotaLimit, today, date, time);
      && st.invoked
      && st.rows[..|rows|] == rows
      && st.rows[|rows|].totalQuotaUsed == QuotaCosts.Cost(ResourceOf(methodId), MethodOf(methodId))
  {
    var cost := QuotaCosts.Cost(ResourceOf(methodId), MethodOf(methodId));
    if rows != [] {
      UpdateInOrder(rows, MethodOf(methodId), date, time, cost);
    }
  }

  /**
    Every call that runs is charged: the ledger is the old rows plus exactly
    one record, for the method with its table cost and the given stamp,
    re-sorted, with only the last row's total changed by the running sum; it
    stays sorted, and the caller gets the response body on success or the
    error's status code on failure.
   */
  lemma AdmittedCallIsCharged(rows: seq<Record>, methodId: string, reply: Reply, quotaLimit: int,
                              today: Date, date: Date, time: Time)
    requires WellFormedId(methodId) && QuotaCosts.Known(ResourceOf(methodId), MethodOf(methodId))
    requires Sorted(rows)
    requires Admits(LastRow(rows), today, QuotaCosts.Cost(ResourceOf(methodId), MethodOf(methodId)), quotaLimit)
    ensures var st := ExecuteStep(rows, methodId, reply, quotaLimit, today, date, time);
      var cost := QuotaCosts.Cost(ResourceOf(methodId), MethodOf(methodId));
      var x := NewRecord(MethodOf(methodId), date, time, cost);
      && st.invoked
      && |st.rows| == |rows| + 1
      && Sorted(st.rows)
      && (exists i :: 0 <= i < |st.rows| && st.rows[i].methodName == MethodOf(methodId)
            && st.rows[i].date == date && st.rows[i].time == time && st.rows[i].usedQuota == cost)
      && multiset(st.rows[..|rows|]) + multiset{Insert(rows, x)[|rows|]} == multiset(rows) + multiset{x}
      && st.rows[|rows|] == Insert(rows, x)[|rows|].(totalQuotaUsed := st.rows[|rows|].totalQuotaUsed)
      && st.response == (match reply
                         case Success(payload) => Payload(payload)
                         case HttpError(code) => StatusCode(code))
  {
    var cost := QuotaCosts.Cost(ResourceOf(methodId), MethodOf(methodId));
    var t := Updated(rows, MethodOf(methodId), date, time, cost);
    assert ExecuteStep(rows, methodId, reply, quotaLimit, today, date, time).rows == t;
    UpdateRecordsCall(rows, MethodOf(methodId), date, time, cost);
  }

  /**
    Calls of one day recorded in time order: after an admitted same-day call
    the last total is the day's whole usage, and it is within the limit.
   */
  lemma SameDayStaysWithinLimit(rows: seq<Record>, methodId: string, reply: Reply, quotaLimit: int,
                                today: Date, time: Time)
    requires WellFormedId(methodId) && QuotaCosts.Known(ResourceOf(methodId), MethodOf(methodId))
    requires Sorted(rows) && RunningTotals(rows)
    requires rows != [] && rows[|rows| - 1].date == today && rows[|rows| - 1].time <= time
    requires ExecuteStep(rows, methodId, reply, quotaLimit, today, today, time).invoked
    ensures var st := ExecuteStep(rows, methodId, reply, quotaLimit, today, today, time);
      && RunningTotals(st.rows)
      && st.rows[|rows|].totalQuotaUsed == DayUsage(st.rows, today) <= quotaLimit
  {
    var cost := QuotaCosts.Cost(ResourceOf(methodId), MethodOf(methodId));
    SameDayAdmission(rows, methodId, reply, quotaLimit, today, today, time);
    UpdateTotalsDay(rows, MethodOf(methodId), today, time, cost);
    UpdateKeepsRunningTotals(rows, MethodOf(methodId), today, time, cost);
  }

  // ---------------------------------------------------------------------------
  // Worked cases (a limit of 500 units; day 20 is today)
  // ---------------------------------------------------------------------------

  /** No ledger: a `search.list` call (100 units) runs and starts the ledger with a total of 100. */
  lemma FirstCallStartsLedger(methodId: string, time: Time)
    requires Calls(methodId, "search", "list")
    ensures var st := ExecuteStep([], methodId, Success("ok"), 500, 20, 20, time);
      st == Step(Payload("ok"), [Record("list", 20, time, 100, 100)], true)
  {
  }

  /** 450 units used today: a 100-unit call is refused with 429 and nothing is written. */
  lemma OverLimitIsRefused(methodId: string, time: Time)
    requires Calls(methodId, "search", "list")
    ensures var rows := [Record("list", 20, 10, 450, 450)];
      var st := ExecuteStep(rows, methodId, Success("ok"), 500, 20, 20, time);
      st == Step(StatusCode(429), rows, false)
  {
  }

  /** 450 units used today: a 50-unit `captions.list` call reaches the limit exactly and runs. */
  lemma ReachingLimitIsAdmitted(methodId: string)
    requires Calls(methodId, "captions", "list")
    ensures var rows := [Record("list", 20, 10, 450, 450)];
      var st := ExecuteStep(rows, methodId, Success("ok"), 500, 20, 20, 11);
      st == Step(Payload("ok"), rows + [Record("list", 20, 11, 50, 500)], true)
  {
    var rows := [Record("list", 20, 10, 450, 450)];
    assert QuotaCosts.Cost("captions", "list") == 50;
    UpdateInOrder(rows, "list", 20, 11, 50);
    assert Updated(rows, "list", 20, 11, 50) == rows + [Record("list", 20, 11, 50, 500)];
  }

  /** Yesterday's 9999 units do not count: a 1600-unit `videos.insert` runs and is recorded with 1600. */
  lemma NewDayIgnoresYesterday(methodId: string)
    requires Calls(methodId, "videos", "insert")
    ensures var rows := [Record("insert", 19, 10, 1600, 9999)];
      var st := ExecuteStep(rows, methodId, Success("ok"), 500, 20, 20, 5);
      st == Step(Payload("ok"), rows + [Record("insert", 20, 5, 1600, 1600)], true)
  {
    var rows := [Record("insert", 19, 10, 1600, 9999)];
    assert QuotaCosts.Cost("videos", "insert") == 1600;
    UpdateInOrder(rows, "insert", 20, 5, 1600);
    assert Updated(rows, "insert", 20, 5, 1600) == rows + [Record("insert", 20, 5, 1600, 1600)];
  }

  /**
    The admission test compares with the local date, the record carries the
    Pacific-time date. With the local date already on day 21 while the
    Pacific date is still day 20, 450 units used on day 20 are not looked at:
    a 100-unit call runs and day 20's total becomes 550, over the limit.
   */
  lemma LocalDayAheadSkipsCheck(methodId: string)
    requires Calls(methodId, "search", "list")
    ensures var rows := [Record("list", 20, 10, 450, 450)];
      var st := ExecuteStep(rows, methodId, Success("ok"), 500, 21, 20, 11);
      && st == Step(Payload("ok"), rows + [Record("list", 20, 11, 100, 550)], true)
      && st.rows[1].totalQuotaUsed > 500
  {
    var rows := [Record("list", 20, 10, 450, 450)];
    assert QuotaCosts.Cost("search", "list") == 100;
    UpdateInOrder(rows, "list", 20, 11, 100);
    assert Updated(rows, "list", 20, 11, 100) == rows + [Record("list", 20, 11, 100, 550)];
  }

  /** A call that fails with 403 is still charged, and 403 is returned. */
  lemma FailedCallIsCharged(methodId: string)
    requires Calls(methodId, "search", "list")
    ensures var rows := [Record("list", 20, 10, 100, 100)];
      var st := ExecuteStep(rows, methodId, HttpError(403), 500, 20, 20, 11);
      st == Step(StatusCode(403), rows + [Record("list", 20, 11, 100, 200)], true)
  {
    UpdateInOrder([Record("list", 20, 10, 100, 100)], "list", 20, 11, 100);
  }

  // ---------------------------------------------------------------------------
  // The request and the executor
  // ---------------------------------------------------------------------------

  /**
    A prepared API request. `reply` is what the remote service will answer;
    `invocations` counts how many times the request was sent.
   */
  class Request {
    const methodId: string
    const reply: Reply
    var invocations: nat

    constructor (methodId: string, reply: Reply)
      ensures this.methodId == methodId && this.reply == reply && invocations == 0
    {
      this.methodId := methodId;
      this.reply := reply;
      invocations := 0;
    }

    /** Sends the request to the remote service. */
    method Execute() returns (r: Reply)
      modifies this
      ensures r == reply && invocations == old(invocations) + 1
    {
      r := reply;
      invocations := invocations + 1;
    }
  }

  class Executor {
    const request: Request
    const quotaLimit: int

    constructor (request: Request, quotaLimit: int)
      ensures this.request == request && this.quotaLimit == quotaLimit
    {
      this.request := request;
      this.quotaLimit := quotaLimit;
    }

    /**
      `execute`: admission test against the ledger `log`, then the request,
      then one ledger update on success and on HTTP error alike. `today` is the
      date the admission test compares with, (`date`, `time`) the stamp of the
      new record.
     */
    method Execute(log: QuotaLog, today: Date, date: Date, time: Time) returns (response: Response)
      requires log.Valid()
      requires WellFormedId(request.methodId)
      requires QuotaCosts.Known(ResourceOf(request.methodId), MethodOf(request.methodId))
      modifies log, request
      ensures log.Valid()
      ensures var st := ExecuteStep(old(log.rows), request.methodId, request.reply, quotaLimit, today, date, time);
        && response == st.response
        && log.rows == st.rows
        && request.invocations == old(request.invocations) + (if st.invoked then 1 else 0)
    {
      var parts := Split(request.methodId, '.');
      var resource, operation := parts[1], parts[2];
      var cost := QuotaCosts.Cost(resource, operation);
      var last := LastRow(log.rows);
      if last.Some? && last.value.date == today {
        var potential := cost + last.value.totalQuotaUsed;
        if potential > quotaLimit {
          return StatusCode(TooManyRequests);
        }
      }
      var reply := request.Execute();
      log.Update(operation, date, time, cost);
      match reply
      case HttpError(code) =>
        response := StatusCode(code);
      case Success(payload) =>
        response := Payload(payload);
    }
  }
}
