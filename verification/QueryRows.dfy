/**
 What one row of the dashboard (metrics_query.go) says, by the operations that were
 recorded: its name, its sums and its percentiles.
 */
module QueryRows {
  import opened Text
  import opened AttemptTable
  import opened TickLog
  import opened Ring
  import P = Percentile

  // ----- the name -----

  /** Entry `j` is one of `k` in a minute of lo < minute <= hi. */
  predicate Within(log: seq<Entry>, k: Key, lo: int, hi: int, j: int) {
    0 <= j < |log| && log[j].event.key == k && lo < log[j].minute <= hi
  }

  /** Entry `j` is the first of `k` in the newest minute of the window that has any. */
  predicate Names(log: seq<Entry>, k: Key, lo: int, hi: int, j: int) {
    && Within(log, k, lo, hi, j)
    && (forall i :: 0 <= i < |log| && Within(log, k, lo, hi, i) ==>
          log[i].minute < log[j].minute || (log[i].minute == log[j].minute && j <= i))
  }

  lemma {:induction false} FirstNameAt(log: seq<Entry>, k: Key, lo: int, minute: int)
    requires minute == lo + 1
    ensures FirstName(log, k, minute).None? ==> forall i :: !Within(log, k, lo, minute, i)
    ensures FirstName(log, k, minute).Some? ==>
              exists j :: Names(log, k, lo, minute, j) && log[j].event.endpoint == FirstName(log, k, minute).value
    decreases |log|
  {
    if log != [] {
      var n := |log| - 1;
      var before := log[..n];
      FirstNameAt(before, k, lo, minute);
      assert forall i :: 0 <= i < n ==> (Within(log, k, lo, minute, i) <==> Within(before, k, lo, minute, i));
      if FirstName(before, k, minute).Some? {
        var j :| Names(before, k, lo, minute, j) && before[j].event.endpoint == FirstName(before, k, minute).value;
        assert Names(log, k, lo, minute, j);
      } else if log[n].minute == minute && log[n].event.key == k {
        assert Names(log, k, lo, minute, n);
      }
    }
  }

  lemma {:induction false} LogNameAt(log: seq<Entry>, k: Key, lo: int, hi: int)
    ensures LogName(log, k, lo, hi).None? ==> forall i :: !Within(log, k, lo, hi, i)
    ensures LogName(log, k, lo, hi).Some? ==>
              exists j :: Names(log, k, lo, hi, j) && log[j].event.endpoint == LogName(log, k, lo, hi).value
    decreases hi - lo
  {
    if lo < hi {
      LogNameAt(log, k, lo + 1, hi);
      FirstNameAt(log, k, lo, lo + 1);
      assert forall i :: Within(log, k, lo, hi, i) <==> Within(log, k, lo + 1, hi, i) || Within(log, k, lo, lo + 1, i);
      if LogName(log, k, lo + 1, hi).Some? {
        var j :| Names(log, k, lo + 1, hi, j) && log[j].event.endpoint == LogName(log, k, lo + 1, hi).value;
        assert Names(log, k, lo, hi, j);
      } else if FirstName(log, k, lo + 1).Some? {
        var j :| Names(log, k, lo, lo + 1, j) && log[j].event.endpoint == FirstName(log, k, lo + 1).value;
        assert Names(log, k, lo, hi, j);
      }
    }
  }

  lemma {:induction false} EntriesNamed(start: int, ops: seq<Ring.Op>)
    ensures forall j :: 0 <= j < |LogOf(start, ops)| ==> LogOf(start, ops)[j].event.endpoint != ""
    decreases |ops|
  {
    if ops != [] {
      EntriesNamed(start, ops[..|ops| - 1]);
    }
  }

  // ----- the row -----

  /** The counters of a row are sums over the operations made in the window. */
  ghost predicate SumsUp(a: Agg, start: int, ops: seq<Ring.Op>, k: Key, lo: int, hi: int, slots: nat) {
    && a.attempts == GivenSum(start, ops, k, Attempts, lo, hi)
    && a.failures == GivenSum(start, ops, k, Failures, lo, hi)
    && a.latency == GivenSum(start, ops, k, Latency, lo, hi)
    && a.tokens == GivenSum(start, ops, k, TokenCount, lo, hi)
    && |a.hist| == (if a.attempts == 0 then 0 else slots)
    && (forall j :: 0 <= j < |a.hist| ==> a.hist[j] == GivenSum(start, ops, k, Slot(j), lo, hi))
  }

  lemma SameSums(log: seq<Entry>, start: int, ops: seq<Ring.Op>, k: Key, lo: int, hi: int, slots: nat)
    requires forall m: Measure :: LogSum(log, k, m, lo, hi) == GivenSum(start, ops, k, m, lo, hi)
    ensures SumsUp(LogAgg(log, k, lo, hi, slots), start, ops, k, lo, hi, slots)
  {
  }

  lemma AggSumsUp(start: int, ops: seq<Ring.Op>, k: Key, lo: int, hi: int, slots: nat)
    ensures SumsUp(LogAgg(LogOf(start, ops), k, lo, hi, slots), start, ops, k, lo, hi, slots)
  {
    forall m: Measure
      ensures LogSum(LogOf(start, ops), k, m, lo, hi) == GivenSum(start, ops, k, m, lo, hi)
    {
      LogSumIsGiven(start, ops, k, m, lo, hi);
    }
    SameSums(LogOf(start, ops), start, ops, k, lo, hi, slots);
  }

  /**
   A row of the dashboard, whenever its rows tell the log: the endpoint named first in the newest
   minute, the sums of what was recorded in the window, and percentiles once there was an attempt.
   */
  lemma RowSays(rows: map<Key, Line>, start: int, ops: seq<Ring.Op>, k: Key, lo: int, hi: int, bounds: seq<real>, slots: nat)
    requires Tells(rows, k, LogOf(start, ops), lo, hi, bounds, slots) && k in rows
    ensures exists j :: Names(LogOf(start, ops), k, lo, hi, j)
                        && rows[k].endpoint == LogOf(start, ops)[j].event.endpoint != ""
    ensures SumsUp(rows[k].agg, start, ops, k, lo, hi, slots)
    ensures rows[k].agg.active == |ActiveMinutes(LogOf(start, ops), k, lo, hi)|
    ensures |rows[k].agg.hist| > 0 ==> rows[k].percentiles == P.PercentilesOf(rows[k].agg.hist, bounds)
    ensures |rows[k].agg.hist| == 0 ==> rows[k].percentiles == P.Percentiles(0.0, 0.0, 0.0)
  {
    var log := LogOf(start, ops);
    AggSumsUp(start, ops, k, lo, hi, slots);
    EntriesNamed(start, ops);
    LogNameAt(log, k, lo, hi);
    var i :| 0 <= i < |log| && lo < log[i].minute <= hi && log[i].event.key == k;
    assert Within(log, k, lo, hi, i);
    var j :| Names(log, k, lo, hi, j) && log[j].event.endpoint == LogName(log, k, lo, hi).value;
  }
}
