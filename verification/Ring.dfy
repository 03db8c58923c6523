/**
 The attempt ring (metrics_ring.go) and the dashboard query over it
 (metrics_query.go): a circular buffer of one-minute ticks that stands for an
 unbounded history, read back over a window.
 */
module Ring {
  import opened Text
  import opened AttemptTable
  import opened TickLog
  import opened Journal
  import P = Percentile

  // ----- the unbounded history -----

  /** Every minute's tick, and the minute being filled. */
  datatype History = History(ticks: map<int, Tick>, minute: int) {
    function TickIn(t: int): Option<Tick> { if t in ticks then Some(ticks[t]) else None }
  }

  /** What happens to the ring: an observation of Attempt, the tokens of a response, or the end of a minute. */
  datatype Op =
    | Observe(key: Key, endpoint: string, ns: nat, failed: bool, slot: nat)
    | Tokens(key: Key, endpoint: string, tokens: int)
    | Advance

  /** What is recorded, if anything: neither an empty endpoint nor a count that is not positive. */
  function EventOf(op: Op): Option<Event> {
    match op
    case Observe(key, endpoint, ns, failed, slot) =>
      if endpoint == "" then None else Some(Attempted(key, endpoint, ns, failed, slot))
    case Tokens(key, endpoint, tokens) =>
      if endpoint == "" || tokens <= 0 then None else Some(Answered(key, endpoint, tokens))
    case Advance => None
  }

  function Filled(t: Option<Tick>, e: Event, slots: nat): Tick {
    RecordIn(if t.Some? then t.value else FRESH_TICK, e, slots)
  }

  function Next(h: History, op: Op, slots: nat): History {
    if op.Advance? then h.(minute := h.minute + 1)
    else
      match EventOf(op)
      case None => h
      case Some(e) => h.(ticks := h.ticks[h.minute := Filled(h.TickIn(h.minute), e, slots)])
  }

  function Run(h: History, ops: seq<Op>, slots: nat): History {
    if ops == [] then h else Next(Run(h, ops[..|ops| - 1], slots), ops[|ops| - 1], slots)
  }

  /** The log of a run: each recorded event with the minute it fell in. */
  function LogOf(start: int, ops: seq<Op>): seq<Entry> {
    if ops == [] then []
    else
      var n := |ops| - 1;
      LogOf(start, ops[..n]) + LogStep(MinuteAfter(start, ops[..n]), ops[n])
  }

  function MinuteAfter(start: int, ops: seq<Op>): int {
    if ops == [] then start
    else MinuteAfter(start, ops[..|ops| - 1]) + if ops[|ops| - 1].Advance? then 1 else 0
  }

  predicate WFOps(ops: seq<Op>, slots: nat) {
    forall i :: 0 <= i < |ops| && ops[i].Observe? ==> ops[i].slot < slots
  }

  /** From an empty history, every minute's tick is the one its log entries make. */
  lemma {:induction false} HistoryIsLog(start: int, ops: seq<Op>, t: int, slots: nat)
    ensures Run(History(map[], start), ops, slots).minute == MinuteAfter(start, ops)
    ensures Run(History(map[], start), ops, slots).TickIn(t) == TickAt(LogOf(start, ops), t, slots)
    decreases |ops|
  {
    if ops != [] {
      var n := |ops| - 1;
      HistoryIsLog(start, ops[..n], t, slots);
      HistoryStep(Run(History(map[], start), ops[..n], slots), LogOf(start, ops[..n]), ops[n], t, slots);
    }
  }

  /** What one step adds to the log. */
  function LogStep(minute: int, op: Op): seq<Entry> {
    match EventOf(op)
    case None => []
    case Some(e) => [Entry(minute, e)]
  }

  lemma HistoryStep(h: History, log: seq<Entry>, op: Op, t: int, slots: nat)
    requires h.TickIn(t) == TickAt(log, t, slots)
    ensures Next(h, op, slots).TickIn(t) == TickAt(log + LogStep(h.minute, op), t, slots)
  {
    var more := log + LogStep(h.minute, op);
    if EventOf(op).None? {
      assert more == log;
    } else {
      assert more[..|more| - 1] == log;
    }
  }

  lemma {:induction false} LogWF(start: int, ops: seq<Op>, slots: nat)
    requires WFOps(ops, slots)
    ensures WFLog(LogOf(start, ops), slots)
    decreases |ops|
  {
    if ops != [] {
      LogWF(start, ops[..|ops| - 1], slots);
    }
  }

  // ----- the log, by the operations -----

  /** What one operation adds to a counter of `k`. */
  function Given(op: Op, k: Key, m: Measure): nat {
    match op
    case Observe(key, endpoint, ns, failed, slot) =>
      if key != k || endpoint == "" then 0
      else
        (match m
         case Attempts => 1
         case Failures => if failed then 1 else 0
         case Latency => ns
         case TokenCount => 0
         case Slot(j) => if slot == j then 1 else 0)
    case Tokens(key, endpoint, tokens) =>
      if key == k && endpoint != "" && tokens > 0 && m == TokenCount then tokens else 0
    case Advance => 0
  }

  /** The sum over the operations made in a minute of lo < minute <= hi. */
  function GivenSum(start: int, ops: seq<Op>, k: Key, m: Measure, lo: int, hi: int): nat {
    if ops == [] then 0
    else
      var n := |ops| - 1;
      GivenSum(start, ops[..n], k, m, lo, hi) +
      if lo < MinuteAfter(start, ops[..n]) <= hi then Given(ops[n], k, m) else 0
  }

  lemma LogSumStep(log: seq<Entry>, minute: int, op: Op, k: Key, m: Measure, lo: int, hi: int)
    ensures LogSum(log + LogStep(minute, op), k, m, lo, hi) ==
            LogSum(log, k, m, lo, hi) + if lo < minute <= hi then Given(op, k, m) else 0
  {
    var more := log + LogStep(minute, op);
    if EventOf(op).None? {
      assert more == log;
    } else {
      assert more[..|more| - 1] == log;
    }
  }

  /** The sums over the log are sums over the operations themselves. */
  lemma {:induction false} LogSumIsGiven(start: int, ops: seq<Op>, k: Key, m: Measure, lo: int, hi: int)
    ensures LogSum(LogOf(start, ops), k, m, lo, hi) == GivenSum(start, ops, k, m, lo, hi)
    decreases |ops|
  {
    if ops != [] {
      var n := |ops| - 1;
      LogSumIsGiven(start, ops[..n], k, m, lo, hi);
      LogSumStep(LogOf(start, ops[..n]), MinuteAfter(start, ops[..n]), ops[n], k, m, lo, hi);
    }
  }

  // ----- aggregating ticks -----

  /** dashboardEndpointAgg, before its percentiles; an empty histogram is none. */
  datatype Agg = Agg(attempts: nat, failures: nat, latency: nat, tokens: nat, active: nat, hist: seq<nat>)

  const ZERO := Agg(0, 0, 0, 0, 0, [])

  function AddVec(a: seq<nat>, v: seq<nat>): (c: seq<nat>)
    ensures |c| == |v|
  {
    seq(|v|, i requires 0 <= i < |v| => Nth(a, i) + v[i])
  }

  function AddTick(a: Agg, t: Option<Tick>, k: Key): Agg {
    match t
    case None => a
    case Some(t) =>
      Agg(a.attempts + Get(t.attempts, k), a.failures + Get(t.failures, k), a.latency + Get(t.latency, k),
          a.tokens + Get(t.tokens, k), a.active + Get(t.active, k),
          if k in t.hist then AddVec(a.hist, t.hist[k]) else a.hist)
  }

  /** The aggregate of `k` over the ticks, in the order they are walked. */
  function Total(ticks: seq<Option<Tick>>, k: Key): Agg {
    if ticks == [] then ZERO else AddTick(Total(ticks[..|ticks| - 1], k), ticks[|ticks| - 1], k)
  }

  predicate Seen(ticks: seq<Option<Tick>>, k: Key) {
    exists i :: 0 <= i < |ticks| && ticks[i].Some? && Touched(ticks[i].value, k)
  }

  /** The name shown for `k`: the first one met on the walk back. */
  function NameOf(ticks: seq<Option<Tick>>, k: Key): Option<string> {
    if ticks == [] then None
    else if ticks[0].Some? && k in ticks[0].value.endpoints then Some(ticks[0].value.endpoints[k])
    else NameOf(ticks[1..], k)
  }

  function AggRead(m: Measure, a: Agg): nat {
    match m
    case Attempts => a.attempts
    case Failures => a.failures
    case Latency => a.latency
    case TokenCount => a.tokens
    case Slot(j) => Nth(a.hist, j)
  }

  predicate WFTicks(ticks: seq<Option<Tick>>, slots: nat) {
    forall i :: 0 <= i < |ticks| && ticks[i].Some? ==> WFTick(ticks[i].value, slots)
  }

  lemma {:induction false} TotalHist(ticks: seq<Option<Tick>>, k: Key, slots: nat)
    requires WFTicks(ticks, slots)
    ensures Total(ticks, k).hist == [] || |Total(ticks, k).hist| == slots
    decreases |ticks|
  {
    if ticks != [] {
      TotalHist(ticks[..|ticks| - 1], k, slots);
    }
  }

  lemma AddTickReads(m: Measure, a: Agg, t: Option<Tick>, k: Key, slots: nat)
    requires a.hist == [] || |a.hist| == slots
    requires t.Some? ==> WFTick(t.value, slots)
    ensures AggRead(m, AddTick(a, t, k)) == AggRead(m, a) + ReadAt(m, t, k)
  {
  }

  // ----- the window -----

  /** The ticks of the history, newest first. */
  function Back(h: History, n: nat): (ticks: seq<Option<Tick>>)
    ensures |ticks| == n
    ensures forall i :: 0 <= i < n ==> ticks[i] == h.TickIn(h.minute - i)
  {
    seq(n, i requires 0 <= i < n => h.TickIn(h.minute - i))
  }

  lemma BackMore(h: History, n: nat)
    requires n > 0
    ensures Back(h, n)[..n - 1] == Back(h, n - 1) && Back(h, n)[n - 1] == h.TickIn(h.minute - (n - 1))
  {
  }

  /** Over a history that sums a log, the aggregate of a key is the sum of its log entries in the window. */
  lemma {:induction false} TotalIsLog(h: History, log: seq<Entry>, k: Key, m: Measure, n: nat, slots: nat)
    requires WFLog(log, slots) && forall t :: h.TickIn(t) == TickAt(log, t, slots)
    ensures AggRead(m, Total(Back(h, n), k)) == TicksSum(log, k, m, h.minute, n, slots)
    decreases n
  {
    if n > 0 {
      BackMore(h, n);
      TotalIsLog(h, log, k, m, n - 1, slots);
      HistoryWF(h, log, n - 1, slots);
      TotalHist(Back(h, n - 1), k, slots);
      TickAtWF(log, h.minute - (n - 1), slots);
      AddTickReads(m, Total(Back(h, n - 1), k), h.TickIn(h.minute - (n - 1)), k, slots);
    }
  }

  lemma HistoryWF(h: History, log: seq<Entry>, n: nat, slots: nat)
    requires WFLog(log, slots) && forall t :: h.TickIn(t) == TickAt(log, t, slots)
    ensures WFTicks(Back(h, n), slots)
  {
    forall i | 0 <= i < n && Back(h, n)[i].Some?
      ensures WFTick(Back(h, n)[i].value, slots)
    {
      TickAtWF(log, h.minute - i, slots);
    }
  }

  lemma {:induction false} ActiveIsLog(h: History, log: seq<Entry>, k: Key, n: nat, slots: nat)
    requires forall t :: h.TickIn(t) == TickAt(log, t, slots)
    ensures Total(Back(h, n), k).active == ActiveSum(log, k, h.minute, n, slots)
    decreases n
  {
    if n > 0 {
      BackMore(h, n);
      ActiveIsLog(h, log, k, n - 1, slots);
    }
  }

  lemma SeenIsLogged(h: History, log: seq<Entry>, k: Key, n: nat, slots: nat)
    requires forall t :: h.TickIn(t) == TickAt(log, t, slots)
    ensures Seen(Back(h, n), k) <==> Logged(log, k, h.minute - n, h.minute)
  {
    if Seen(Back(h, n), k) {
      var i :| 0 <= i < n && Back(h, n)[i].Some? && Touched(Back(h, n)[i].value, k);
      TouchedIsLogged(log, k, h.minute - i, slots);
    }
    if Logged(log, k, h.minute - n, h.minute) {
      var j :| 0 <= j < |log| && h.minute - n < log[j].minute <= h.minute && log[j].event.key == k;
      TouchedIsLogged(log, k, log[j].minute, slots);
      var i := h.minute - log[j].minute;
      assert Back(h, n)[i] == h.TickIn(h.minute - i);
    }
  }

  // ----- windows -----

  datatype Window = OneDay | SevenDays | ThirtyDays | Unknown

  function WindowSeconds(w: Window): nat {
    match w
    case OneDay => 24 * 60 * 60
    case SevenDays => 7 * 24 * 60 * 60
    case ThirtyDays => 30 * 24 * 60 * 60
    case Unknown => 0
  }

  /** How many ticks a window covers: never more than the ring holds. */
  function WindowTicks(w: Window): (n: nat)
    ensures n <= RING_LEN
    ensures n == 0 <==> w.Unknown?
  {
    var ticks := WindowSeconds(w) / TICK_SECONDS;
    if w.Unknown? then 0 else if ticks > RING_LEN then RING_LEN else ticks
  }

  /** A day, a week, and for thirty days the whole ring: a week and the minute being filled. */
  lemma WindowLengths()
    ensures WindowTicks(OneDay) == 1440 && WindowTicks(SevenDays) == 10080 && WindowTicks(ThirtyDays) == 10081
    ensures RING_LEN == 7 * 24 * 60 + 1
  {
  }

  datatype Line = Line(endpoint: string, agg: Agg, percentiles: P.Percentiles)

  function MakeLine(k: Key, name: Option<string>, agg: Agg, bounds: seq<real>): Line {
    Line(if name.None? || name.value == "" then k else name.value, agg,
         if |agg.hist| > 0 then P.PercentilesOf(agg.hist, bounds) else P.NONE)
  }

  function LineFor(ticks: seq<Option<Tick>>, k: Key, bounds: seq<real>): Line {
    MakeLine(k, NameOf(ticks, k), Total(ticks, k), bounds)
  }

  /** What DashboardQuery must return: a row for every key seen in the window. */
  ghost predicate Answers(rows: map<Key, Line>, ticks: seq<Option<Tick>>, bounds: seq<real>) {
    && (forall k :: k in rows <==> Seen(ticks, k))
    && (forall k :: k in rows ==> rows[k] == LineFor(ticks, k, bounds))
  }

  // ----- the row that the log asks for, over lo < minute <= hi -----

  /** The name of the newest minute that has one. */
  function LogName(log: seq<Entry>, k: Key, lo: int, hi: int): Option<string>
    decreases hi - lo
  {
    if hi <= lo then None
    else
      var newer := LogName(log, k, lo + 1, hi);
      if newer.Some? then newer else FirstName(log, k, lo + 1)
  }

  function LogHist(log: seq<Entry>, k: Key, lo: int, hi: int, slots: nat): (hist: seq<nat>)
    ensures |hist| == slots
  {
    seq(slots, j requires 0 <= j < slots => LogSum(log, k, Slot(j), lo, hi))
  }

  /** Sums, distinct active minutes, and the histogram once there was an attempt. */
  ghost function LogAgg(log: seq<Entry>, k: Key, lo: int, hi: int, slots: nat): Agg {
    Agg(LogSum(log, k, Attempts, lo, hi), LogSum(log, k, Failures, lo, hi), LogSum(log, k, Latency, lo, hi),
        LogSum(log, k, TokenCount, lo, hi), |ActiveMinutes(log, k, lo, hi)|,
        if LogSum(log, k, Attempts, lo, hi) == 0 then [] else LogHist(log, k, lo, hi, slots))
  }

  ghost function LogLine(log: seq<Entry>, k: Key, lo: int, hi: int, bounds: seq<real>, slots: nat): Line {
    MakeLine(k, LogName(log, k, lo, hi), LogAgg(log, k, lo, hi, slots), bounds)
  }

  /** The rows have `k` exactly when the log does, with the name, counters and percentiles of the log. */
  ghost predicate Tells(rows: map<Key, Line>, k: Key, log: seq<Entry>, lo: int, hi: int, bounds: seq<real>, slots: nat) {
    && (k in rows <==> Logged(log, k, lo, hi))
    && (k in rows ==> rows[k] == LogLine(log, k, lo, hi, bounds, slots))
  }

  /** The dashboard's rows are the log's, over the window. */
  lemma QueryIsLog(start: int, ops: seq<Op>, w: Window, rows: map<Key, Line>, bounds: seq<real>, slots: nat, k: Key)
    requires WFOps(ops, slots)
    requires Answers(rows, Back(Run(History(map[], start), ops, slots), WindowTicks(w)), bounds)
    ensures Tells(rows, k, LogOf(start, ops), MinuteAfter(start, ops) - WindowTicks(w), MinuteAfter(start, ops), bounds,
                  slots)
  {
    RunLine(start, ops, k, WindowTicks(w), bounds, slots);
  }

  lemma RunLine(start: int, ops: seq<Op>, k: Key, n: nat, bounds: seq<real>, slots: nat)
    requires WFOps(ops, slots)
    ensures var ticks, log, now := Back(Run(History(map[], start), ops, slots), n), LogOf(start, ops),
                                   MinuteAfter(start, ops);
            && (Seen(ticks, k) <==> Logged(log, k, now - n, now))
            && LineFor(ticks, k, bounds) == LogLine(log, k, now - n, now, bounds, slots)
  {
    RunIsLog(start, ops, slots);
    LineIsLog(Run(History(map[], start), ops, slots), MinuteAfter(start, ops), LogOf(start, ops), k, n, bounds, slots);
  }

  /** The row made of the ticks back in a history that sums a log. */
  lemma LineIsLog(h: History, now: int, log: seq<Entry>, k: Key, n: nat, bounds: seq<real>, slots: nat)
    requires WFLog(log, slots) && h.minute == now && forall t :: h.TickIn(t) == TickAt(log, t, slots)
    ensures Seen(Back(h, n), k) <==> Logged(log, k, now - n, now)
    ensures LineFor(Back(h, n), k, bounds) == LogLine(log, k, now - n, now, bounds, slots)
  {
    SeenIsLogged(h, log, k, n, slots);
    NamesAreLog(h, log, k, n, slots);
    TotalIsLogAgg(h, log, k, n, slots);
  }

  lemma TotalIsLogAgg(h: History, log: seq<Entry>, k: Key, n: nat, slots: nat)
    requires WFLog(log, slots) && forall t :: h.TickIn(t) == TickAt(log, t, slots)
    ensures Total(Back(h, n), k) == LogAgg(log, k, h.minute - n, h.minute, slots)
  {
    AggIsLog(h, log, k, n, slots);
    HistWhenAttempted(h, log, k, n, slots);
    var a, b := Total(Back(h, n), k), LogHist(log, k, h.minute - n, h.minute, slots);
    if a.attempts > 0 {
      forall j: nat | j < slots
        ensures a.hist[j] == b[j]
      {
        assert Nth(a.hist, j) == LogSum(log, k, Slot(j), h.minute - n, h.minute);
      }
    }
  }

  /** A tick has a histogram for exactly the keys attempted in it. */
  lemma {:induction false} TickHist(log: seq<Entry>, k: Key, minute: int, slots: nat)
    ensures var t := TickAt(log, minute, slots); t.Some? ==> (k in t.value.hist <==> Get(t.value.attempts, k) > 0)
    decreases |log|
  {
    if log != [] {
      TickHist(log[..|log| - 1], k, minute, slots);
    }
  }

  /** A row has a histogram, of all the slots, exactly when it has an attempt. */
  lemma {:induction false} HistWhenAttempted(h: History, log: seq<Entry>, k: Key, n: nat, slots: nat)
    requires WFLog(log, slots) && forall t :: h.TickIn(t) == TickAt(log, t, slots)
    ensures var a := Total(Back(h, n), k); if a.attempts == 0 then a.hist == [] else |a.hist| == slots
    decreases n
  {
    if n > 0 {
      BackMore(h, n);
      HistWhenAttempted(h, log, k, n - 1, slots);
      TickHist(log, k, h.minute - (n - 1), slots);
      TickAtWF(log, h.minute - (n - 1), slots);
    }
  }

  lemma {:induction false} NamesAreLog(h: History, log: seq<Entry>, k: Key, n: nat, slots: nat)
    requires forall t :: h.TickIn(t) == TickAt(log, t, slots)
    ensures NameOf(Back(h, n), k) == LogName(log, k, h.minute - n, h.minute)
    decreases n
  {
    if n > 0 {
      NamesAreLog(h, log, k, n - 1, slots);
      BackSplit(h, n - 1);
      NameOfMore(Back(h, n - 1), h.TickIn(h.minute - (n - 1)), k);
      NameIsFirst(log, k, h.minute - (n - 1), slots);
    }
  }

  /** Every field of an aggregate is a sum over the log. */
  lemma AggIsLog(h: History, log: seq<Entry>, k: Key, n: nat, slots: nat)
    requires WFLog(log, slots) && forall t :: h.TickIn(t) == TickAt(log, t, slots)
    ensures var a, now := Total(Back(h, n), k), h.minute;
            && a.attempts == LogSum(log, k, Attempts, now - n, now)
            && a.failures == LogSum(log, k, Failures, now - n, now)
            && a.latency == LogSum(log, k, Latency, now - n, now)
            && a.tokens == LogSum(log, k, TokenCount, now - n, now)
            && a.active == |ActiveMinutes(log, k, now - n, now)|
    ensures forall j: nat :: Nth(Total(Back(h, n), k).hist, j) == LogSum(log, k, Slot(j), h.minute - n, h.minute)
  {
    MeasureIsLog(h, log, k, Attempts, n, slots);
    MeasureIsLog(h, log, k, Failures, n, slots);
    MeasureIsLog(h, log, k, Latency, n, slots);
    MeasureIsLog(h, log, k, TokenCount, n, slots);
    ActiveIsLog(h, log, k, n, slots);
    ActiveAreMinutes(log, k, h.minute, n, slots);
    forall j: nat
      ensures Nth(Total(Back(h, n), k).hist, j) == LogSum(log, k, Slot(j), h.minute - n, h.minute)
    {
      MeasureIsLog(h, log, k, Slot(j), n, slots);
    }
  }

  lemma RunIsLog(start: int, ops: seq<Op>, slots: nat)
    requires WFOps(ops, slots)
    ensures WFLog(LogOf(start, ops), slots)
    ensures Run(History(map[], start), ops, slots).minute == MinuteAfter(start, ops)
    ensures forall t :: Run(History(map[], start), ops, slots).TickIn(t) == TickAt(LogOf(start, ops), t, slots)
  {
    LogWF(start, ops, slots);
    HistoryIsLog(start, ops, start, slots);
    forall t
      ensures Run(History(map[], start), ops, slots).TickIn(t) == TickAt(LogOf(start, ops), t, slots)
    {
      HistoryIsLog(start, ops, t, slots);
    }
  }

  lemma MeasureIsLog(h: History, log: seq<Entry>, k: Key, m: Measure, n: nat, slots: nat)
    requires WFLog(log, slots) && forall t :: h.TickIn(t) == TickAt(log, t, slots)
    ensures AggRead(m, Total(Back(h, n), k)) == LogSum(log, k, m, h.minute - n, h.minute)
  {
    TotalIsLog(h, log, k, m, n, slots);
    TicksAreLog(log, k, m, h.minute, n, slots);
  }

  // ----- merging one tick into the aggregates -----

  function Of(agg: map<Key, Agg>, k: Key): Agg { if k in agg then agg[k] else ZERO }

  lemma {:induction false} UnseenIsZero(ticks: seq<Option<Tick>>, k: Key)
    requires !Seen(ticks, k)
    ensures Total(ticks, k) == ZERO
    decreases |ticks|
  {
    if ticks != [] {
      var n := |ticks| - 1;
      assert forall i :: 0 <= i < n ==> ticks[..n][i] == ticks[i];
      UnseenIsZero(ticks[..n], k);
      if ticks[n].Some? {
        assert !Touched(ticks[n].value, k);
        UntouchedSame(ZERO, ticks[n].value, k);
      }
    }
  }

  lemma UntouchedSame(a: Agg, t: Tick, k: Key)
    requires !Touched(t, k)
    ensures AddTick(a, Some(t), k) == a
  {
  }

  lemma {:induction false} NameOfMore(ticks: seq<Option<Tick>>, t: Option<Tick>, k: Key)
    ensures NameOf(ticks + [t], k) ==
            if NameOf(ticks, k).Some? then NameOf(ticks, k)
            else if t.Some? && k in t.value.endpoints then Some(t.value.endpoints[k]) else None
    decreases |ticks|
  {
    if ticks == [] {
      assert NameOf(([t])[1..], k) == None;
      assert ticks + [t] == [t];
    } else {
      assert (ticks + [t])[1..] == ticks[1..] + [t];
      NameOfMore(ticks[1..], t, k);
    }
  }

  lemma SeenMore(ticks: seq<Option<Tick>>, t: Option<Tick>, k: Key)
    ensures Seen(ticks + [t], k) <==> Seen(ticks, k) || (t.Some? && Touched(t.value, k))
  {
    var more := ticks + [t];
    if Seen(ticks, k) {
      var i :| 0 <= i < |ticks| && ticks[i].Some? && Touched(ticks[i].value, k);
      assert more[i] == ticks[i];
    }
    if t.Some? && Touched(t.value, k) {
      assert more[|ticks|] == t;
    }
    if i :| 0 <= i < |more| && more[i].Some? && Touched(more[i].value, k) && i < |ticks| {
      assert ticks[i] == more[i];
    }
  }

  /** The five counters of an aggregate. */
  datatype Counter = CAttempts | CFailures | CLatency | CTokens | CActive

  function Plus(a: Agg, c: Counter, v: nat): Agg {
    match c
    case CAttempts => a.(attempts := a.attempts + v)
    case CFailures => a.(failures := a.failures + v)
    case CLatency => a.(latency := a.latency + v)
    case CTokens => a.(tokens := a.tokens + v)
    case CActive => a.(active := a.active + v)
  }

  /** `r` is `agg` with the counts added under `c`. */
  ghost predicate Added(agg: map<Key, Agg>, c: Counter, counts: map<Key, nat>, r: map<Key, Agg>) {
    && (forall k :: k in r <==> k in agg || k in counts)
    && (forall k :: Of(r, k) == Plus(Of(agg, k), c, Get(counts, k)))
  }

  /** One of the five counter loops. */
  method MergeCounts(agg: map<Key, Agg>, c: Counter, counts: map<Key, nat>) returns (r: map<Key, Agg>)
    ensures Added(agg, c, counts, r)
  {
    r := agg;
    var todo := counts.Keys;
    while todo != {}
      invariant todo <= counts.Keys
      invariant forall k :: k in r <==> k in agg || (k in counts && k !in todo)
      invariant forall k :: Of(r, k) == Plus(Of(agg, k), c, if k in todo then 0 else Get(counts, k))
      decreases |todo|
    {
      var k :| k in todo;
      r := r[k := Plus(Of(r, k), c, counts[k])];
      todo := todo - {k};
    }
  }

  /** `r` is `agg` with the histograms added. */
  ghost predicate HistsIn(agg: map<Key, Agg>, hists: map<Key, seq<nat>>, r: map<Key, Agg>) {
    && (forall k :: k in r <==> k in agg || k in hists)
    && (forall k :: k in r ==>
          r[k] == if k in hists then Of(agg, k).(hist := AddVec(Of(agg, k).hist, hists[k])) else agg[k])
  }

  /** The histogram loop. */
  method MergeHists(agg: map<Key, Agg>, hists: map<Key, seq<nat>>) returns (r: map<Key, Agg>)
    ensures HistsIn(agg, hists, r)
  {
    r := agg;
    var todo := hists.Keys;
    while todo != {}
      invariant todo <= hists.Keys
      invariant forall k :: k in r <==> k in agg || (k in hists && k !in todo)
      invariant forall k :: k in r ==>
                  r[k] == if k in hists && k !in todo then Of(agg, k).(hist := AddVec(Of(agg, k).hist, hists[k]))
                          else agg[k]
      decreases |todo|
    {
      var k :| k in todo;
      r := r[k := Of(r, k).(hist := AddVec(Of(r, k).hist, hists[k]))];
      todo := todo - {k};
    }
  }

  /** The endpoint loop: the first name met stays. */
  method MergeNames(names: map<Key, string>, more: map<Key, string>) returns (r: map<Key, string>)
    ensures forall k :: k in r <==> k in names || k in more
    ensures forall k :: k in r ==> r[k] == if k in names then names[k] else more[k]
  {
    r := names;
    var todo := more.Keys;
    while todo != {}
      invariant todo <= more.Keys
      invariant forall k :: k in r <==> k in names || (k in more && k !in todo)
      invariant forall k :: k in r ==> r[k] == if k in names then names[k] else more[k]
      decreases |todo|
    {
      var k :| k in todo;
      if k !in r {
        r := r[k := more[k]];
      }
      todo := todo - {k};
    }
  }

  lemma CountersAdded(agg: map<Key, Agg>, t: Tick, r1: map<Key, Agg>, r2: map<Key, Agg>, r3: map<Key, Agg>,
                      r4: map<Key, Agg>, r5: map<Key, Agg>, k: Key)
    requires Added(agg, CAttempts, t.attempts, r1) && Added(r1, CFailures, t.failures, r2)
    requires Added(r2, CLatency, t.latency, r3) && Added(r3, CTokens, t.tokens, r4)
    requires Added(r4, CActive, t.active, r5)
    ensures k in r5 <==> k in agg || Touched(t.(hist := map[]), k)
    ensures Of(r5, k) == AddTick(Of(agg, k), Some(t.(hist := map[])), k)
  {
    assert Of(r1, k) == Plus(Of(agg, k), CAttempts, Get(t.attempts, k));
    assert Of(r2, k) == Plus(Of(r1, k), CFailures, Get(t.failures, k));
    assert Of(r3, k) == Plus(Of(r2, k), CLatency, Get(t.latency, k));
    assert Of(r4, k) == Plus(Of(r3, k), CTokens, Get(t.tokens, k));
    assert Of(r5, k) == Plus(Of(r4, k), CActive, Get(t.active, k));
  }

  /** `r` is `agg` with the counters of the tick added. */
  ghost predicate CountersIn(agg: map<Key, Agg>, t: Tick, r: map<Key, Agg>) {
    forall k :: (k in r <==> k in agg || Touched(t.(hist := map[]), k)) &&
                Of(r, k) == AddTick(Of(agg, k), Some(t.(hist := map[])), k)
  }

  lemma AllCounters(agg: map<Key, Agg>, t: Tick, r1: map<Key, Agg>, r2: map<Key, Agg>, r3: map<Key, Agg>,
                    r4: map<Key, Agg>, r5: map<Key, Agg>)
    requires Added(agg, CAttempts, t.attempts, r1) && Added(r1, CFailures, t.failures, r2)
    requires Added(r2, CLatency, t.latency, r3) && Added(r3, CTokens, t.tokens, r4)
    requires Added(r4, CActive, t.active, r5)
    ensures CountersIn(agg, t, r5)
  {
    forall k
      ensures k in r5 <==> k in agg || Touched(t.(hist := map[]), k)
      ensures Of(r5, k) == AddTick(Of(agg, k), Some(t.(hist := map[])), k)
    {
      CountersAdded(agg, t, r1, r2, r3, r4, r5, k);
    }
  }

  /** The five counter loops over one tick. */
  method MergeCounters(agg: map<Key, Agg>, t: Tick) returns (r: map<Key, Agg>)
    ensures CountersIn(agg, t, r)
  {
    var r1 := MergeCounts(agg, CAttempts, t.attempts);
    var r2 := MergeCounts(r1, CFailures, t.failures);
    var r3 := MergeCounts(r2, CLatency, t.latency);
    var r4 := MergeCounts(r3, CTokens, t.tokens);
    r := MergeCounts(r4, CActive, t.active);
    AllCounters(agg, t, r1, r2, r3, r4, r);
  }

  lemma TickMerged(agg: map<Key, Agg>, t: Tick, counted: map<Key, Agg>, r: map<Key, Agg>, k: Key)
    requires CountersIn(agg, t, counted) && HistsIn(counted, t.hist, r)
    ensures k in r <==> k in agg || Touched(t, k)
    ensures k in r ==> r[k] == AddTick(Of(agg, k), Some(t), k)
  {
    assert k in r <==> k in counted || k in t.hist;
    assert Of(counted, k) == AddTick(Of(agg, k), Some(t.(hist := map[])), k);
  }

  /** All six aggregate loops over one tick. */
  method MergeTick(agg: map<Key, Agg>, t: Tick) returns (r: map<Key, Agg>)
    ensures forall k :: k in r <==> k in agg || Touched(t, k)
    ensures forall k :: k in r ==> r[k] == AddTick(Of(agg, k), Some(t), k)
  {
    var counted := MergeCounters(agg, t);
    r := MergeHists(counted, t.hist);
    forall k
      ensures k in r <==> k in agg || Touched(t, k)
      ensures k in r ==> r[k] == AddTick(Of(agg, k), Some(t), k)
    {
      TickMerged(agg, t, counted, r, k);
    }
  }

  /** The first `n` ticks back are in the aggregates. */
  ghost predicate Merged(h: History, agg: map<Key, Agg>, names: map<Key, string>, n: nat) {
    && (forall k :: k in agg <==> Seen(Back(h, n), k))
    && (forall k :: Of(agg, k) == Total(Back(h, n), k))
    && (forall k :: NameOf(Back(h, n), k) == if k in names then Some(names[k]) else None)
  }

  lemma BackSplit(h: History, n: nat)
    ensures Back(h, n + 1) == Back(h, n) + [h.TickIn(h.minute - n)]
    ensures Back(h, n + 1)[..n] == Back(h, n)
  {
  }

  lemma MergeNothing(h: History, agg: map<Key, Agg>, names: map<Key, string>, n: nat)
    requires Merged(h, agg, names, n) && h.TickIn(h.minute - n).None?
    ensures Merged(h, agg, names, n + 1)
  {
    BackSplit(h, n);
    forall k
      ensures Seen(Back(h, n + 1), k) <==> Seen(Back(h, n), k)
      ensures Total(Back(h, n + 1), k) == Total(Back(h, n), k)
      ensures NameOf(Back(h, n + 1), k) == NameOf(Back(h, n), k)
    {
      SeenMore(Back(h, n), None, k);
      NameOfMore(Back(h, n), None, k);
    }
  }

  lemma MergeOne(h: History, agg0: map<Key, Agg>, names0: map<Key, string>, n: nat, t: Tick,
                 agg: map<Key, Agg>, names: map<Key, string>)
    requires Merged(h, agg0, names0, n) && h.TickIn(h.minute - n) == Some(t)
    requires forall k :: k in agg <==> k in agg0 || Touched(t, k)
    requires forall k :: k in agg ==> agg[k] == AddTick(Of(agg0, k), Some(t), k)
    requires forall k :: k in names <==> k in names0 || k in t.endpoints
    requires forall k :: k in names ==> names[k] == if k in names0 then names0[k] else t.endpoints[k]
    ensures Merged(h, agg, names, n + 1)
  {
    BackSplit(h, n);
    forall k
      ensures k in agg <==> Seen(Back(h, n + 1), k)
      ensures Of(agg, k) == Total(Back(h, n + 1), k)
      ensures NameOf(Back(h, n + 1), k) == if k in names then Some(names[k]) else None
    {
      SeenMore(Back(h, n), Some(t), k);
      NameOfMore(Back(h, n), Some(t), k);
      if k !in agg {
        UntouchedSame(ZERO, t, k);
      }
    }
  }

  /** The last loop: name and percentiles of one row. */
  function FinishLine(a: Agg, names: map<Key, string>, k: Key, bounds: seq<real>): Line {
    MakeLine(k, if k in names then Some(names[k]) else None, a, bounds)
  }

  lemma RowsAnswer(h: History, agg: map<Key, Agg>, names: map<Key, string>, n: nat, bounds: seq<real>)
    requires Merged(h, agg, names, n)
    ensures Answers(map k | k in agg :: FinishLine(agg[k], names, k, bounds), Back(h, n), bounds)
  {
    forall k | k in agg
      ensures FinishLine(agg[k], names, k, bounds) == LineFor(Back(h, n), k, bounds)
    {
      assert Of(agg, k) == Total(Back(h, n), k);
      assert NameOf(Back(h, n), k) == if k in names then Some(names[k]) else None;
    }
  }

  // ----- the ring -----

  /** The slot i ticks back from the write position. */
  function SlotBack(now: nat, i: nat): (slot: nat)
    requires now < RING_LEN && i < RING_LEN
    ensures slot < RING_LEN
    ensures slot == (now - i + RING_LEN) % RING_LEN
  {
    if i <= now then now - i else now - i + RING_LEN
  }

  /** The tick restored for a minute; one before the epoch has no slot. */
  function KeptTick(kept: map<int, JournalLine>, minute: int): Option<Tick> {
    if minute in kept && minute >= 0 then Some(kept[minute].tick) else None
  }

  /** What reads back for a minute after a restore: the restored tick, or what was in its slot. */
  function Overlaid(kept: map<int, JournalLine>, was: seq<Option<Tick>>, now: int, minute: int): Option<Tick>
    requires |was| == RING_LEN && now >= 0
  {
    if !InWindow(minute, now) then None
    else if KeptTick(kept, minute).Some? then KeptTick(kept, minute)
    else was[SlotBack(JournalSlot(now), now - minute)]
  }

  ghost function OverlaidHistory(kept: map<int, JournalLine>, was: seq<Option<Tick>>, now: int): (h: History)
    requires |was| == RING_LEN && now >= 0
    ensures h.minute == now && (forall t :: t in h.ticks ==> t <= now)
    ensures forall m :: h.TickIn(m) == Overlaid(kept, was, now, m)
  {
    History(map m | now - RING_LEN < m <= now && Overlaid(kept, was, now, m).Some? :: Overlaid(kept, was, now, m).value,
            now)
  }

  /** Over an empty ring only the journal reads back. */
  lemma OverlaidOnEmpty(lines: Lines, was: seq<Option<Tick>>, now: int)
    requires |was| == RING_LEN && now >= 0 && forall s :: 0 <= s < RING_LEN ==> was[s].None?
    ensures OverlaidHistory(Replay(lines, now), was, now) == Restored(lines, now)
  {
    var kept := Replay(lines, now);
    var h := OverlaidHistory(kept, was, now);
    ReplayKept(lines, now);
    forall m
      ensures h.TickIn(m) == Restored(lines, now).TickIn(m)
    {
      assert h.TickIn(m) == Overlaid(kept, was, now, m);
    }
    SameTicks(h.ticks, Restored(lines, now).ticks, now);
  }

  lemma SameTicks(a: map<int, Tick>, b: map<int, Tick>, now: int)
    requires forall m :: History(a, now).TickIn(m) == History(b, now).TickIn(m)
    ensures a == b
  {
    forall m
      ensures m in a <==> m in b
      ensures m in a ==> a[m] == b[m]
    {
      assert History(a, now).TickIn(m) == History(b, now).TickIn(m);
    }
  }

  /** The history a restart finds in the journal. */
  function Restored(lines: Lines, now: int): History {
    var kept := Replay(lines, now);
    History(map m | m in kept && m >= 0 :: kept[m].tick, now)
  }

  /** A minute of the window has the slot its distance back leads to, and no other distance does. */
  lemma OnlySlot(now: nat, minute: nat)
    requires InWindow(minute, now)
    ensures JournalSlot(minute) == SlotBack(JournalSlot(now), now - minute)
    ensures forall i :: 0 <= i < RING_LEN && i != now - minute ==> SlotBack(JournalSlot(now), i) != JournalSlot(minute)
  {
    SlotWalksBack(now, now - minute);
  }

  // ----- a restart -----

  /** The line a completed tick is journaled as: its minute's boundary, and its maps. */
  function LineOf(minute: int, t: Tick): JournalLine { JournalLine(minute * TICK_SECONDS, t) }

  /** The journal a run appends: each tick that holds anything, when its minute is over. */
  function JournalOf(start: int, ops: seq<Op>, slots: nat): Lines {
    if ops == [] then []
    else
      var n := |ops| - 1;
      var before := Run(History(map[], start), ops[..n], slots);
      var done := before.TickIn(before.minute);
      JournalOf(start, ops[..n], slots) +
      if ops[n].Advance? && done.Some? then [Some(LineOf(before.minute, done.value))] else []
  }

  lemma LastLineMore(lines: Lines, l: JournalLine, minute: int)
    ensures LastLine(lines + [Some(l)], minute) == if MinuteOf(l) == minute then Some(l) else LastLine(lines, minute)
  {
    assert (lines + [Some(l)])[..|lines|] == lines;
  }

  lemma {:induction false} NoFuture(start: int, ops: seq<Op>, slots: nat, t: int)
    ensures var h := Run(History(map[], start), ops, slots); t > h.minute ==> h.TickIn(t).None?
    decreases |ops|
  {
    if ops != [] {
      NoFuture(start, ops[..|ops| - 1], slots, t);
    }
  }

  /** The journal holds every completed tick, once, and not the one being filled. */
  lemma {:induction false} JournalHolds(start: int, ops: seq<Op>, slots: nat, t: int)
    ensures var h := Run(History(map[], start), ops, slots);
            LastLine(JournalOf(start, ops, slots), t) ==
            if t < h.minute && h.TickIn(t).Some? then Some(LineOf(t, h.TickIn(t).value)) else None
    decreases |ops|
  {
    if ops != [] {
      var n := |ops| - 1;
      var before := Run(History(map[], start), ops[..n], slots);
      JournalHolds(start, ops[..n], slots, t);
      var done := before.TickIn(before.minute);
      if ops[n].Advance? && done.Some? {
        MinuteRoundTrip(before.minute);
        LastLineMore(JournalOf(start, ops[..n], slots), LineOf(before.minute, done.value), t);
      } else {
        assert JournalOf(start, ops[..n], slots) + [] == JournalOf(start, ops[..n], slots);
      }
    }
  }

  /** After a restart every completed tick of the window is where it would have been; only the tick being filled is lost. */
  lemma RestartKeepsWindow(start: int, ops: seq<Op>, now: int, slots: nat, t: int)
    requires 0 <= t && InWindow(t, now)
    ensures var h := Run(History(map[], start), ops, slots);
            Restored(JournalOf(start, ops, slots), now).TickIn(t) == if t < h.minute then h.TickIn(t) else None
  {
    JournalHolds(start, ops, slots, t);
    NoFuture(start, ops, slots, t);
    ReplayIsLast(JournalOf(start, ops, slots), now, t);
  }

  // ----- the query after a restart -----

  /** The entries of lo < minute <= hi. */
  function Between(log: seq<Entry>, lo: int, hi: int): seq<Entry> {
    if log == [] then []
    else
      var n := |log| - 1;
      Between(log[..n], lo, hi) + if lo < log[n].minute <= hi then [log[n]] else []
  }

  lemma BetweenMore(log: seq<Entry>, lo: int, hi: int)
    requires log != [] && lo < log[|log| - 1].minute <= hi
    ensures var part := Between(log, lo, hi);
            && part != [] && part[|part| - 1] == log[|log| - 1]
            && part[..|part| - 1] == Between(log[..|log| - 1], lo, hi)
  {
  }

  lemma BetweenSame(log: seq<Entry>, lo: int, hi: int)
    requires log != [] && !(lo < log[|log| - 1].minute <= hi)
    ensures Between(log, lo, hi) == Between(log[..|log| - 1], lo, hi)
  {
  }

  lemma {:induction false} BetweenTick(log: seq<Entry>, lo: int, hi: int, minute: int, slots: nat)
    ensures TickAt(Between(log, lo, hi), minute, slots) == if lo < minute <= hi then TickAt(log, minute, slots) else None
    decreases |log|
  {
    if log != [] {
      var n := |log| - 1;
      BetweenTick(log[..n], lo, hi, minute, slots);
      if lo < log[n].minute <= hi {
        BetweenMore(log, lo, hi);
      } else {
        BetweenSame(log, lo, hi);
      }
    }
  }

  lemma {:induction false} BetweenSum(log: seq<Entry>, lo: int, hi: int, k: Key, m: Measure, from: int, to: int)
    requires lo <= from && hi <= to
    ensures LogSum(Between(log, lo, hi), k, m, from, to) == LogSum(log, k, m, from, hi)
    decreases |log|
  {
    if log != [] {
      var n := |log| - 1;
      BetweenSum(log[..n], lo, hi, k, m, from, to);
      if lo < log[n].minute <= hi {
        BetweenMore(log, lo, hi);
      } else {
        BetweenSame(log, lo, hi);
      }
    }
  }

  lemma {:induction false} BetweenIn(log: seq<Entry>, lo: int, hi: int, e: Entry)
    ensures e in Between(log, lo, hi) <==> e in log && lo < e.minute <= hi
    decreases |log|
  {
    if log != [] {
      var n := |log| - 1;
      BetweenIn(log[..n], lo, hi, e);
      assert log == log[..n] + [log[n]];
    }
  }

  lemma BetweenAttempted(log: seq<Entry>, lo: int, hi: int, k: Key, minute: int)
    ensures AttemptedIn(Between(log, lo, hi), k, minute) <==> lo < minute <= hi && AttemptedIn(log, k, minute)
  {
    var part := Between(log, lo, hi);
    if AttemptedIn(part, k, minute) {
      var i :| 0 <= i < |part| && part[i].minute == minute && part[i].event.key == k && part[i].event.Attempted?;
      BetweenIn(log, lo, hi, part[i]);
      var j :| 0 <= j < |log| && log[j] == part[i];
    }
    if lo < minute <= hi && AttemptedIn(log, k, minute) {
      var i :| 0 <= i < |log| && log[i].minute == minute && log[i].event.key == k && log[i].event.Attempted?;
      BetweenIn(log, lo, hi, log[i]);
      var j :| 0 <= j < |part| && part[j] == log[i];
    }
  }

  lemma BetweenLogged(log: seq<Entry>, lo: int, hi: int, k: Key, from: int, to: int)
    requires lo <= from && hi <= to
    ensures Logged(Between(log, lo, hi), k, from, to) <==> Logged(log, k, from, hi)
  {
    var part := Between(log, lo, hi);
    if Logged(part, k, from, to) {
      var i :| 0 <= i < |part| && from < part[i].minute <= to && part[i].event.key == k;
      BetweenIn(log, lo, hi, part[i]);
      var j :| 0 <= j < |log| && log[j] == part[i];
    }
    if Logged(log, k, from, hi) {
      var i :| 0 <= i < |log| && from < log[i].minute <= hi && log[i].event.key == k;
      BetweenIn(log, lo, hi, log[i]);
      var j :| 0 <= j < |part| && part[j] == log[i];
    }
  }

  lemma BetweenActive(log: seq<Entry>, lo: int, hi: int, k: Key, from: int, to: int)
    requires lo <= from && hi <= to
    ensures ActiveMinutes(Between(log, lo, hi), k, from, to) == ActiveMinutes(log, k, from, hi)
  {
    forall t
      ensures AttemptedIn(Between(log, lo, hi), k, t) <==> lo < t <= hi && AttemptedIn(log, k, t)
    {
      BetweenAttempted(log, lo, hi, k, t);
    }
  }

  lemma {:induction false} BetweenWF(log: seq<Entry>, lo: int, hi: int, slots: nat)
    requires WFLog(log, slots)
    ensures WFLog(Between(log, lo, hi), slots)
    decreases |log|
  {
    if log != [] {
      BetweenWF(log[..|log| - 1], lo, hi, slots);
    }
  }

  /** No tick is older than the start of the run. */
  lemma {:induction false} NoPast(start: int, ops: seq<Op>, slots: nat, t: int)
    requires t < start
    ensures var h := Run(History(map[], start), ops, slots); h.minute >= start && h.TickIn(t).None?
    decreases |ops|
  {
    if ops != [] {
      NoPast(start, ops[..|ops| - 1], slots, t);
    }
  }

  /** The last minute that is complete before `minute`, no later than now. */
  function LastComplete(minute: int, now: int): int { if now < minute then now else minute - 1 }

  /** What a restart restores is the part of the log that is complete and in the window of the ring. */
  lemma RestoredIsLog(start: nat, ops: seq<Op>, now: int, slots: nat, t: int)
    ensures Restored(JournalOf(start, ops, slots), now).TickIn(t) ==
            TickAt(Between(LogOf(start, ops), now - RING_LEN, LastComplete(MinuteAfter(start, ops), now)), t, slots)
  {
    var hi := LastComplete(MinuteAfter(start, ops), now);
    BetweenTick(LogOf(start, ops), now - RING_LEN, hi, t, slots);
    HistoryIsLog(start, ops, t, slots);
    if t < 0 {
      NoPast(start, ops, slots, t);
    } else if InWindow(t, now) {
      RestartKeepsWindow(start, ops, now, slots, t);
    } else {
      ReplayIsLast(JournalOf(start, ops, slots), now, t);
    }
  }

  /**
   After a restart the dashboard's numbers are the log's sums over the minutes that were complete: what the
   query over the restored ring returns, for every run before it and every window.
   */
  lemma RestartQueryIsLog(start: nat, ops: seq<Op>, now: int, w: Window, rows: map<Key, Line>, bounds: seq<real>,
                          slots: nat, k: Key)
    requires WFOps(ops, slots)
    requires Answers(rows, Back(Restored(JournalOf(start, ops, slots), now), WindowTicks(w)), bounds)
    ensures Tells(rows, k, LogOf(start, ops), now - WindowTicks(w), LastComplete(MinuteAfter(start, ops), now), bounds,
                  slots)
  {
    RestoredLine(start, ops, now, k, WindowTicks(w), bounds, slots);
  }

  lemma RestoredLine(start: nat, ops: seq<Op>, now: int, k: Key, n: nat, bounds: seq<real>, slots: nat)
    requires WFOps(ops, slots) && n <= RING_LEN
    ensures var ticks, log, hi := Back(Restored(JournalOf(start, ops, slots), now), n), LogOf(start, ops),
                                  LastComplete(MinuteAfter(start, ops), now);
            && (Seen(ticks, k) <==> Logged(log, k, now - n, hi))
            && LineFor(ticks, k, bounds) == LogLine(log, k, now - n, hi, bounds, slots)
  {
    LogWF(start, ops, slots);
    RestoredAll(start, ops, now, slots);
    HeldLine(Restored(JournalOf(start, ops, slots), now), now, LogOf(start, ops),
             LastComplete(MinuteAfter(start, ops), now), k, n, bounds, slots);
  }

  /** The row of a history that holds the part of a log up to `hi`. */
  lemma HeldLine(h: History, now: int, log: seq<Entry>, hi: int, k: Key, n: nat, bounds: seq<real>, slots: nat)
    requires WFLog(log, slots) && h.minute == now && hi <= now && n <= RING_LEN
    requires forall t :: h.TickIn(t) == TickAt(Between(log, now - RING_LEN, hi), t, slots)
    ensures Seen(Back(h, n), k) <==> Logged(log, k, now - n, hi)
    ensures LineFor(Back(h, n), k, bounds) == LogLine(log, k, now - n, hi, bounds, slots)
  {
    BetweenWF(log, now - RING_LEN, hi, slots);
    LineIsLog(h, now, Between(log, now - RING_LEN, hi), k, n, bounds, slots);
    PartLine(log, now - RING_LEN, hi, k, now - n, now, bounds, slots);
  }

  lemma RestoredAll(start: nat, ops: seq<Op>, now: int, slots: nat)
    ensures forall t ::
              Restored(JournalOf(start, ops, slots), now).TickIn(t) ==
              TickAt(Between(LogOf(start, ops), now - RING_LEN, LastComplete(MinuteAfter(start, ops), now)), t, slots)
  {
    forall t
      ensures Restored(JournalOf(start, ops, slots), now).TickIn(t) ==
              TickAt(Between(LogOf(start, ops), now - RING_LEN, LastComplete(MinuteAfter(start, ops), now)), t, slots)
    {
      RestoredIsLog(start, ops, now, slots, t);
    }
  }

  lemma PartLine(log: seq<Entry>, lo: int, hi: int, k: Key, from: int, to: int, bounds: seq<real>, slots: nat)
    requires lo <= from && hi <= to
    ensures Logged(Between(log, lo, hi), k, from, to) <==> Logged(log, k, from, hi)
    ensures LogLine(Between(log, lo, hi), k, from, to, bounds, slots) == LogLine(log, k, from, hi, bounds, slots)
  {
    PartSums(log, lo, hi, k, from, to);
    BetweenNames(log, lo, hi, k, from, to);
    assert LogHist(Between(log, lo, hi), k, from, to, slots) == LogHist(log, k, from, hi, slots);
  }

  lemma {:induction false} BetweenFirst(log: seq<Entry>, lo: int, hi: int, k: Key, minute: int)
    ensures FirstName(Between(log, lo, hi), k, minute) == if lo < minute <= hi then FirstName(log, k, minute) else None
    decreases |log|
  {
    if log != [] {
      var n := |log| - 1;
      BetweenFirst(log[..n], lo, hi, k, minute);
      if lo < log[n].minute <= hi {
        BetweenMore(log, lo, hi);
      } else {
        BetweenSame(log, lo, hi);
      }
    }
  }

  lemma {:induction false} BetweenNames(log: seq<Entry>, lo: int, hi: int, k: Key, from: int, until: int)
    requires lo <= from && hi <= until
    ensures LogName(Between(log, lo, hi), k, from, until) == LogName(log, k, from, hi)
    decreases until - from
  {
    if from < until {
      BetweenNames(log, lo, hi, k, from + 1, until);
      BetweenFirst(log, lo, hi, k, from + 1);
    }
  }

  lemma PartSums(log: seq<Entry>, lo: int, hi: int, k: Key, from: int, to: int)
    requires lo <= from && hi <= to
    ensures Logged(Between(log, lo, hi), k, from, to) <==> Logged(log, k, from, hi)
    ensures ActiveMinutes(Between(log, lo, hi), k, from, to) == ActiveMinutes(log, k, from, hi)
    ensures forall m :: LogSum(Between(log, lo, hi), k, m, from, to) == LogSum(log, k, m, from, hi)
  {
    BetweenLogged(log, lo, hi, k, from, to);
    BetweenActive(log, lo, hi, k, from, to);
    forall m
      ensures LogSum(Between(log, lo, hi), k, m, from, to) == LogSum(log, k, m, from, hi)
    {
      BetweenSum(log, lo, hi, k, m, from, to);
    }
  }

  class AttemptRing {
    const ring: array<Option<Tick>>
    const bounds: seq<real>
    var now: nat
    ghost var history: History

    function Slots(): nat { |bounds| + 1 }

    /** Reading i slots back reads the history i minutes back. */
    ghost predicate Valid()
      reads this, ring
    {
      && ring.Length == RING_LEN && now < RING_LEN
      && (forall t :: t in history.ticks ==> t <= history.minute)
      && (forall i :: 0 <= i < RING_LEN ==> ring[SlotBack(now, i)] == history.TickIn(history.minute - i))
    }

    constructor (bounds: seq<real>, ghost minute: int)
      ensures Valid() && fresh(ring) && history == History(map[], minute) && this.bounds == bounds
    {
      this.bounds := bounds;
      ring := new Option<Tick>[RING_LEN](_ => None);
      now := 0;
      history := History(map[], minute);
    }

    /** attemptTickForLocked, then the writes to the tick of the current minute. */
    method RecordEvent(e: Event)
      requires Valid()
      modifies this, ring
      ensures Valid() && history.minute == old(history).minute
      ensures history.ticks ==
              old(history).ticks[history.minute := Filled(old(history).TickIn(history.minute), e, Slots())]
    {
      var t := if ring[now].Some? then ring[now].value else FRESH_TICK;
      assert SlotBack(now, 0) == now;
      history := history.(ticks := history.ticks[history.minute := Filled(history.TickIn(history.minute), e, Slots())]);
      ring[now] := Some(RecordIn(t, e, Slots()));
    }

    /** Attempt's guard, and recordRingAttemptLocked. */
    method RecordAttempt(key: Key, endpoint: string, ns: nat, failed: bool, slot: nat)
      requires Valid()
      modifies this, ring
      ensures Valid() && history == Next(old(history), Op.Observe(key, endpoint, ns, failed, slot), Slots())
    {
      if endpoint == "" {
        return;
      }
      RecordEvent(Attempted(key, endpoint, ns, failed, slot));
    }

    method RecordDashboardTokens(key: Key, endpoint: string, tokens: int)
      requires Valid()
      modifies this, ring
      ensures Valid() && history == Next(old(history), Op.Tokens(key, endpoint, tokens), Slots())
    {
      if endpoint == "" || tokens <= 0 {
        return;
      }
      RecordEvent(Answered(key, endpoint, tokens));
    }

    /** advanceRingTickLocked; the completed tick goes to the journal. */
    method AdvanceTick() returns (completed: Option<Tick>)
      requires Valid()
      modifies this, ring
      ensures Valid() && history == Next(old(history), Op.Advance, Slots())
      ensures completed == old(history).TickIn(old(history).minute)
    {
      assert SlotBack(now, 0) == now;
      completed := ring[now];
      ghost var was := now;
      now := (now + 1) % RING_LEN;
      ring[now] := None;
      history := Next(history, Op.Advance, Slots());
      forall i | 0 <= i < RING_LEN
        ensures ring[SlotBack(now, i)] == history.TickIn(history.minute - i)
      {
        if i > 0 {
          assert SlotBack(now, i) == SlotBack(was, i - 1) && SlotBack(now, i) != now;
        }
      }
    }

    /** DashboardQuery; the rows come as a map, for the order of the source's slice is not determined. */
    method DashboardQuery(w: Window) returns (rows: map<Key, Line>)
      requires Valid()
      ensures Answers(rows, Back(history, WindowTicks(w)), bounds)
    {
      var seconds := WindowSeconds(w);
      if seconds <= 0 {
        return map[];
      }
      var ticks := seconds / TICK_SECONDS;
      if ticks <= 0 {
        ticks := 1;
      }
      if ticks > RING_LEN {
        ticks := RING_LEN;
      }
      var agg: map<Key, Agg>, names: map<Key, string> := map[], map[];
      for i := 0 to ticks
        invariant Merged(history, agg, names, i)
      {
        var t := ring[(now - i + RING_LEN) % RING_LEN];
        assert t == ring[SlotBack(now, i)];
        if t.None? {
          MergeNothing(history, agg, names, i);
          continue;
        }
        ghost var agg0, names0 := agg, names;
        agg := MergeTick(agg, t.value);
        names := MergeNames(names, t.value.endpoints);
        MergeOne(history, agg0, names0, i, t.value, agg, names);
      }
      rows := map k | k in agg :: FinishLine(agg[k], names, k, bounds);
      RowsAnswer(history, agg, names, ticks, bounds);
    }

    /** The loop of the restore: each kept minute goes to its slot. */
    method PlaceTicks(kept: map<int, JournalLine>, nowMinute: nat)
      requires ring.Length == RING_LEN && Kept(kept, nowMinute)
      modifies ring
      ensures forall i :: 0 <= i < RING_LEN ==>
                ring[SlotBack(JournalSlot(nowMinute), i)] == Overlaid(kept, old(ring[..]), nowMinute, nowMinute - i)
    {
      ghost var was := ring[..];
      var base: nat := JournalSlot(nowMinute);
      var todo := kept.Keys;
      while todo != {}
        invariant todo <= kept.Keys && ring.Length == RING_LEN
        invariant forall i :: 0 <= i < RING_LEN ==>
                    ring[SlotBack(base, i)] == if nowMinute - i in todo then was[SlotBack(base, i)]
                                               else Overlaid(kept, was, nowMinute, nowMinute - i)
        decreases |todo|
      {
        SomeMinute(todo);
        var minute :| minute in todo;
        todo := todo - {minute};
        var slot := JournalSlot(minute);
        if slot < 0 || slot >= RING_LEN {
          continue;
        }
        OnlySlot(nowMinute, minute);
        ring[slot] := Some(kept[minute].tick);
      }
    }

    lemma NothingRecorded()
      requires Valid() && history.ticks == map[]
      ensures forall s :: 0 <= s < RING_LEN ==> ring[s].None?
    {
      forall s | 0 <= s < RING_LEN
        ensures ring[s].None?
      {
        assert SlotBack(now, SlotBack(now, s)) == s;
      }
    }

    /** restoreDashboardJournalLocked: restored ticks take their slots, and whatever is in the others stays there. */
    method RestoreJournal(lines: Lines, nowSeconds: nat) returns (restored: nat)
      requires Valid()
      modifies this, ring
      ensures Valid()
      ensures var minute := JournalMinute(nowSeconds);
              history == OverlaidHistory(Replay(lines, minute), old(ring[..]), minute)
      ensures old(history).ticks == map[] ==> history == Restored(lines, JournalMinute(nowSeconds))
      ensures restored == |Replay(lines, JournalMinute(nowSeconds))|
    {
      restored := RestoreMinutes(lines, JournalMinute(nowSeconds));
    }

    method RestoreMinutes(lines: Lines, nowMinute: nat) returns (restored: nat)
      requires Valid()
      modifies this, ring
      ensures Valid() && history == OverlaidHistory(Replay(lines, nowMinute), old(ring[..]), nowMinute)
      ensures old(history).ticks == map[] ==> history == Restored(lines, nowMinute)
      ensures restored == |Replay(lines, nowMinute)|
    {
      var kept := ReplayDashboardJournal(lines, nowMinute);
      ReplayKept(lines, nowMinute);
      if history.ticks == map[] {
        NothingRecorded();
        OverlaidOnEmpty(lines, ring[..], nowMinute);
      }
      ghost var after := OverlaidHistory(kept, ring[..], nowMinute);
      PlaceTicks(kept, nowMinute);
      now := JournalSlot(nowMinute);
      history := after;
      restored := |kept|;
    }
  }
}
