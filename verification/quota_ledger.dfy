/**
  The quota ledger: the persisted table of usage records, one per call that
  reached the remote service, kept in ascending (date, time) order, whose
  `totalQuotaUsed` column carries the running sum of quota used on each day.

  The persisted file is modelled as the sequence of its rows. The ledger file
  is only ever written with at least one row, so "the file does not exist"
  is the empty sequence.
 */
module QuotaLedger {

  /** A calendar date, as a day number; only its order matters. */
  type Date = int
  /** A time of day; only its order within a date matters. */
  type Time = int

  datatype Option<T> = None | Some(value: T)

  /** One ledger row: the method called, when, its cost and the day's total so far. */
  datatype Record = Record(methodName: string, date: Date, time: Time, usedQuota: nat, totalQuotaUsed: nat)

  /** `a` sorts strictly before `b` by (date, time). */
  predicate Before(a: Record, b: Record) {
    a.date < b.date || (a.date == b.date && a.time < b.time)
  }

  /** Ascending by (date, time); ties in any order. */
  predicate Sorted(rows: seq<Record>) {
    forall i, j :: 0 <= i < j < |rows| ==> !Before(rows[j], rows[i])
  }

  /** The row a new call writes before the running total is applied: its total is its own cost. */
  function NewRecord(methodName: string, date: Date, time: Time, quota: nat): (r: Record)
    ensures r.usedQuota == r.totalQuotaUsed == quota
    ensures r.date == date && r.time == time && r.methodName == methodName
  {
    Record(methodName, date, time, quota, quota)
  }

  /** The last row of the ledger, or None when there is no ledger yet; in a sorted ledger, the latest row. */
  function LastRow(rows: seq<Record>): (last: Option<Record>)
    ensures last.None? <==> rows == []
    ensures last.Some? ==> last.value in rows
    ensures last.Some? && Sorted(rows) ==> forall r :: r in rows ==> !Before(last.value, r)
  {
    if rows == [] then None else Some(rows[|rows| - 1])
  }

  /**
    Where a stable sort by (date, time) puts `x` when it is appended to the
    sorted `rows`: after every row it does not sort before.
   */
  function Position(rows: seq<Record>, x: Record): (k: nat)
    ensures k <= |rows|
    ensures forall j :: k <= j < |rows| ==> Before(x, rows[j])
    ensures 0 < k ==> !Before(x, rows[k - 1])
  {
    if rows == [] || !Before(x, rows[|rows| - 1]) then |rows|
    else Position(rows[..|rows| - 1], x)
  }

  /** Dropping a last row that `x` sorts before does not move `x`'s position. */
  lemma PositionStep(rows: seq<Record>, k: nat, x: Record)
    requires 0 < k <= |rows| && Before(x, rows[k - 1])
    ensures Position(rows[..k], x) == Position(rows[..k - 1], x)
  {
    assert rows[..k][..k - 1] == rows[..k - 1];
  }

  /**
    The result of appending `x` to the sorted `rows` and sorting by (date, time)
    again: the old rows and `x`, nothing lost and nothing duplicated.
   */
  function Insert(rows: seq<Record>, x: Record): (r: seq<Record>)
    ensures |r| == |rows| + 1
    ensures multiset(r) == multiset(rows) + multiset{x}
  {
    var k := Position(rows, x);
    var front, back := rows[..k], rows[k..];
    assert rows == front + back;
    assert multiset(front + [x] + back) == multiset(front) + multiset{x} + multiset(back);
    front + [x] + back
  }

  /**
    The rows after one `update_quota_log(date, quota, method)` call. With no
    ledger, the new record alone. Otherwise the record is appended, the table
    re-sorted, and when the second-to-last row has the new record's date the
    last row's total is increased by the second-to-last row's total.
   */
  function Updated(rows: seq<Record>, methodName: string, date: Date, time: Time, quota: nat): (t: seq<Record>)
    ensures |t| == |rows| + 1
  {
    var x := NewRecord(methodName, date, time, quota);
    if rows == [] then [x]
    else
      var s := Insert(rows, x);
      var n := |s|;
      if s[n - 2].date != date then s
      else s[n - 1 := s[n - 1].(totalQuotaUsed := s[n - 1].totalQuotaUsed + s[n - 2].totalQuotaUsed)]
  }

  /** The re-sort of a sorted table leaves it sorted by (date, time). */
  lemma InsertSorted(rows: seq<Record>, x: Record)
    requires Sorted(rows)
    ensures Sorted(Insert(rows, x))
  {
    var k := Position(rows, x);
    var front, back := rows[..k], rows[k..];
    assert rows == front + back;
    NotBeforeFront(rows, x);
    SortedAround(front, x, back);
  }

  /** In a sorted table, `x` sorts before none of the rows ahead of its position. */
  lemma NotBeforeFront(rows: seq<Record>, x: Record)
    requires Sorted(rows)
    ensures forall i :: 0 <= i < Position(rows, x) ==> !Before(x, rows[i])
  {
    var k := Position(rows, x);
    forall i | 0 <= i < k
      ensures !Before(x, rows[i])
    {
      if i < k - 1 {
        assert !Before(rows[k - 1], rows[i]);
      }
    }
  }

  /** Splicing `x` between two sorted halves it sorts between yields a sorted table. */
  lemma SortedAround(front: seq<Record>, x: Record, back: seq<Record>)
    requires Sorted(front + back)
    requires forall i :: 0 <= i < |front| ==> !Before(x, front[i])
    requires forall j :: 0 <= j < |back| ==> Before(x, back[j])
    ensures Sorted(front + [x] + back)
  {
    var rows := front + back;
    var s := front + [x] + back;
    var k := |front|;
    forall i, j | 0 <= i < j < |s|
      ensures !Before(s[j], s[i])
    {
      if j < k {
        assert s[i] == rows[i] && s[j] == rows[j];
      } else if i > k {
        assert s[i] == rows[i - 1] && s[j] == rows[j - 1];
      } else if i < k && j == k {
        assert s[i] == front[i] && s[j] == x;
      } else if i < k {
        assert s[i] == rows[i] && s[j] == back[j - k - 1];
      } else {
        assert s[i] == x && s[j] == back[j - k - 1];
      }
    }
  }

  /** The new record becomes the last row exactly when no row sorts after it. */
  lemma InsertAtEnd(rows: seq<Record>, x: Record)
    requires rows != []
    ensures Insert(rows, x)[|rows|] == x <==> !Before(x, rows[|rows| - 1])
    ensures !Before(x, rows[|rows| - 1]) ==> Insert(rows, x) == rows + [x]
  {
    var k := Position(rows, x);
    if !Before(x, rows[|rows| - 1]) {
      assert k == |rows|;
    } else {
      assert k < |rows|;
      assert Insert(rows, x)[|rows|] == rows[|rows| - 1];
    }
  }

  /** With no ledger, the update writes exactly the new record, whose total is its own cost. */
  lemma FirstUpdate(methodName: string, date: Date, time: Time, quota: nat)
    ensures var t := Updated([], methodName, date, time, quota);
      t == [Record(methodName, date, time, quota, quota)] && t[0].totalQuotaUsed == t[0].usedQuota
  {
  }

  /**
    An update of an existing ledger keeps it sorted, holds the old rows and the
    new record and nothing else (up to the last row's total), and leaves every
    row but the last exactly as the re-sort placed it.
   */
  lemma UpdateShape(rows: seq<Record>, methodName: string, date: Date, time: Time, quota: nat)
    requires Sorted(rows) && rows != []
    ensures var x := NewRecord(methodName, date, time, quota);
      var t := Updated(rows, methodName, date, time, quota);
      && Sorted(t)
      && t[..|rows|] == Insert(rows, x)[..|rows|]
      && t[|rows|] == Insert(rows, x)[|rows|].(totalQuotaUsed := t[|rows|].totalQuotaUsed)
      && multiset(t[..|rows|]) + multiset{t[|rows|].(totalQuotaUsed := Insert(rows, x)[|rows|].totalQuotaUsed)}
         == multiset(rows) + multiset{x}
  {
    var x := NewRecord(methodName, date, time, quota);
    var s := Insert(rows, x);
    var t := Updated(rows, methodName, date, time, quota);
    InsertSorted(rows, x);
    var n := |s|;
    assert s == s[..n - 1] + [s[n - 1]];
    assert t[..n - 1] == s[..n - 1];
    var last := t[n - 1].(totalQuotaUsed := s[n - 1].totalQuotaUsed);
    assert last == s[n - 1];
    assert multiset(s) == multiset(s[..n - 1]) + multiset{s[n - 1]} by {
      assert s == s[..n - 1] + [s[n - 1]];
    }
    forall i, j | 0 <= i < j < |t|
      ensures !Before(t[j], t[i])
    {
      assert !Before(s[j], s[i]);
    }
  }

  /**
    Any update of a sorted ledger, first write included: the result is sorted,
    holds a row for the call with its stamp and cost, and consists of the old
    rows and the new record as the re-sort placed them, only the last row's
    total changed.
   */
  lemma UpdateRecordsCall(rows: seq<Record>, methodName: string, date: Date, time: Time, quota: nat)
    requires Sorted(rows)
    ensures var x := NewRecord(methodName, date, time, quota);
      var t := Updated(rows, methodName, date, time, quota);
      && Sorted(t)
      && (exists i :: 0 <= i < |t| && t[i].methodName == methodName
            && t[i].date == date && t[i].time == time && t[i].usedQuota == quota)
      && multiset(t[..|rows|]) + multiset{Insert(rows, x)[|rows|]} == multiset(rows) + multiset{x}
      && t[|rows|] == Insert(rows, x)[|rows|].(totalQuotaUsed := t[|rows|].totalQuotaUsed)
  {
    var x := NewRecord(methodName, date, time, quota);
    var t := Updated(rows, methodName, date, time, quota);
    var s := Insert(rows, x);
    if rows == [] {
      assert t == [x] == s;
      assert t[0] == x;
    } else {
      UpdateShape(rows, methodName, date, time, quota);
      assert t[|rows|].(totalQuotaUsed := s[|rows|].totalQuotaUsed) == s[|rows|];
      assert x in multiset(s);
      var i :| 0 <= i < |s| && s[i] == x;
      if i < |rows| {
        assert t[..|rows|][i] == s[..|rows|][i];
      }
    }
  }

  /**
    When the new record does not sort before the current last row, it becomes
    the last row and the old rows stay untouched. Its total is its own cost
    when the previous row is from another day (the first call of a new day),
    and its cost plus the previous row's total otherwise.
   */
  lemma UpdateInOrder(rows: seq<Record>, methodName: string, date: Date, time: Time, quota: nat)
    requires rows != []
    requires !Before(NewRecord(methodName, date, time, quota), rows[|rows| - 1])
    ensures var t := Updated(rows, methodName, date, time, quota);
      && t[..|rows|] == rows
      && t[|rows|].methodName == methodName && t[|rows|].date == date && t[|rows|].time == time
      && t[|rows|].usedQuota == quota
      && t[|rows|].totalQuotaUsed
         == quota + (if rows[|rows| - 1].date == date then rows[|rows| - 1].totalQuotaUsed else 0)
  {
    var x := NewRecord(methodName, date, time, quota);
    InsertAtEnd(rows, x);
    var s := Insert(rows, x);
    assert s[..|rows|] == rows;
  }

  /** Each row's total is its cost plus the total of the row before it, when that row is from the same day. */
  predicate RunningTotals(rows: seq<Record>) {
    forall i :: 0 <= i < |rows| ==>
      rows[i].totalQuotaUsed
      == rows[i].usedQuota + (if 0 < i && rows[i - 1].date == rows[i].date then rows[i - 1].totalQuotaUsed else 0)
  }

  /** The quota used on day `d` by the rows of `rows`. */
  function DayUsage(rows: seq<Record>, d: Date): nat {
    if rows == [] then 0
    else DayUsage(rows[..|rows| - 1], d) + (if rows[|rows| - 1].date == d then rows[|rows| - 1].usedQuota else 0)
  }

  lemma {:induction false} DayUsageOtherDays(rows: seq<Record>, d: Date)
    requires forall j :: 0 <= j < |rows| ==> rows[j].date != d
    ensures DayUsage(rows, d) == 0
  {
    if rows != [] {
      DayUsageOtherDays(rows[..|rows| - 1], d);
    }
  }

  /**
    In a sorted ledger whose totals are running totals, the total of each row
    is the sum of the costs of that day's calls up to and including it.
   */
  lemma {:induction false} RunningTotalIsDayUsage(rows: seq<Record>, i: nat)
    requires Sorted(rows) && RunningTotals(rows)
    requires i < |rows|
    ensures rows[i].totalQuotaUsed == DayUsage(rows[..i + 1], rows[i].date)
  {
    var d := rows[i].date;
    assert rows[..i + 1][..i] == rows[..i];
    if 0 < i && rows[i - 1].date == d {
      RunningTotalIsDayUsage(rows, i - 1);
      assert rows[..i] == rows[..i - 1 + 1];
    } else {
      forall j | 0 <= j < |rows[..i]|
        ensures rows[..i][j].date != d
      {
        assert !Before(rows[i], rows[j]) && !Before(rows[i - 1], rows[j]);
      }
      DayUsageOtherDays(rows[..i], d);
    }
  }

  /** An update that does not go back in time keeps the totals running totals. */
  lemma UpdateKeepsRunningTotals(rows: seq<Record>, methodName: string, date: Date, time: Time, quota: nat)
    requires RunningTotals(rows)
    requires rows != [] ==> !Before(NewRecord(methodName, date, time, quota), rows[|rows| - 1])
    ensures RunningTotals(Updated(rows, methodName, date, time, quota))
  {
    if rows != [] {
      UpdateInOrder(rows, methodName, date, time, quota);
      var t := Updated(rows, methodName, date, time, quota);
      forall i | 0 <= i < |t|
        ensures t[i].totalQuotaUsed
                == t[i].usedQuota + (if 0 < i && t[i - 1].date == t[i].date then t[i - 1].totalQuotaUsed else 0)
      {
        if i < |rows| {
          assert t[..|rows|][i] == rows[i] == t[i];
          if 0 < i { assert t[..|rows|][i - 1] == rows[i - 1] == t[i - 1]; }
          var r := rows[i];
          assert r.totalQuotaUsed
            == r.usedQuota + (if 0 < i && rows[i - 1].date == r.date then rows[i - 1].totalQuotaUsed else 0);
        } else {
          assert i == |rows|;
          assert t[..|rows|][i - 1] == rows[|rows| - 1];
          assert t[i].date == date && t[i].usedQuota == quota;
        }
      }
    }
  }

  /**
    Same-day calls recorded in time order: after the update the last total is
    the whole day's usage, the new cost included.
   */
  lemma UpdateTotalsDay(rows: seq<Record>, methodName: string, date: Date, time: Time, quota: nat)
    requires Sorted(rows) && RunningTotals(rows)
    requires rows != [] ==> !Before(NewRecord(methodName, date, time, quota), rows[|rows| - 1])
    ensures var t := Updated(rows, methodName, date, time, quota);
      t[|t| - 1].totalQuotaUsed == DayUsage(t, date) == DayUsage(rows, date) + quota
  {
    var t := Updated(rows, methodName, date, time, quota);
    var x := NewRecord(methodName, date, time, quota);
    UpdateKeepsRunningTotals(rows, methodName, date, time, quota);
    if rows == [] {
      assert DayUsage(t, date) == DayUsage(t[..0], date) + quota;
    } else {
      UpdateShape(rows, methodName, date, time, quota);
      UpdateInOrder(rows, methodName, date, time, quota);
      RunningTotalIsDayUsage(t, |rows|);
      assert t[..|rows| + 1] == t;
      assert t[..|t| - 1] == rows;
    }
  }

  /**
    The update assumes the new record sorts last. A record stamped before the
    two last rows of its day (a time of day that went backwards) is charged to
    neither: the last total then misses its cost.
   */
  lemma OutOfOrderUpdateUndercounts()
    ensures var rows := [Record("list", 7, 100, 4, 4), Record("list", 7, 140, 1, 5), Record("list", 7, 150, 1, 6)];
      var t := Updated(rows, "insert", 7, 110, 100);
      && Sorted(rows) && RunningTotals(rows)
      && t[|t| - 1].totalQuotaUsed == 11
      && DayUsage(t, 7) == 106
  {
    var rows := [Record("list", 7, 100, 4, 4), Record("list", 7, 140, 1, 5), Record("list", 7, 150, 1, 6)];
    var x := NewRecord("insert", 7, 110, 100);
    assert Position(rows, x) == 1 by {
      assert rows[..2] == [rows[0], rows[1]];
      assert rows[..2][..1] == [rows[0]];
      assert Position(rows[..2], x) == Position(rows[..2][..1], x);
    }
    var t := Updated(rows, "insert", 7, 110, 100);
    assert t == [rows[0], x, rows[1], rows[2].(totalQuotaUsed := 11)];
    assert t[..3] == [rows[0], x, rows[1]];
    assert t[..3][..2] == [rows[0], x];
    assert t[..3][..2][..1] == [rows[0]];
    assert DayUsage([rows[0]], 7) == 4 by {
      assert [rows[0]][..0] == [];
    }
    assert DayUsage([rows[0], x], 7) == 104;
    assert DayUsage([rows[0], x, rows[1]], 7) == 105;
  }

  /**
    The persisted ledger file. `rows` is its content; the empty sequence
    stands for a file that has not been created yet.
   */
  class QuotaLog {
    var rows: seq<Record>

    ghost predicate Valid()
      reads this
    {
      Sorted(rows)
    }

    /** No ledger file yet. */
    constructor ()
      ensures Valid() && rows == []
    {
      rows := [];
    }

    /**
      Re-sorts the table after `x` was appended to the sorted `rows`, as a
      stable sort by (date, time) does: `x` moves before every row it sorts before.
     */
    static method Resort(rows: seq<Record>, x: Record) returns (s: seq<Record>)
      requires Sorted(rows)
      ensures s == Insert(rows, x)
      ensures Sorted(s) && multiset(s) == multiset(rows + [x])
    {
      var k := |rows|;
      assert rows[..k] == rows;
      while 0 < k && Before(x, rows[k - 1])
        invariant 0 <= k <= |rows|
        invariant Position(rows, x) == Position(rows[..k], x)
        decreases k
      {
        PositionStep(rows, k, x);
        k := k - 1;
      }
      s := rows[..k] + [x] + rows[k..];
      assert k == Position(rows, x);
      InsertSorted(rows, x);
      assert multiset(rows + [x]) == multiset(rows) + multiset{x};
    }

    /**
      `update_quota_log`: append one record for a call of `methodName` costing
      `quota` made at (`date`, `time`) and apply the running total.
     */
    method Update(methodName: string, date: Date, time: Time, quota: nat)
      requires Valid()
      modifies this
      ensures Valid()
      ensures rows == Updated(old(rows), methodName, date, time, quota)
    {
      var x := NewRecord(methodName, date, time, quota);
      if rows == [] {
        rows := [x];
      } else {
        UpdateShape(rows, methodName, date, time, quota);
        var table := Resort(rows, x);
        var n := |table|;
        if table[n - 2].date != date {
          rows := table;
        } else {
          var previousTotal := table[n - 2].totalQuotaUsed;
          table := table[n - 1 := table[n - 1].(totalQuotaUsed := table[n - 1].totalQuotaUsed + previousTotal)];
          rows := table;
        }
      }
    }
  }
}
