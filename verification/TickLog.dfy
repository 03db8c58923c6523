/**
 One minute of attempt telemetry (attemptTick of metrics_ring.go), and the
 unbounded log it sums up: every counter of a tick is the sum of the log entries
 of its minute, and sums over ticks are sums over the log.
 */
module TickLog {
  import opened Text
  import opened AttemptTable

  /** A week of one-minute ticks, and the one being filled. */
  const RING_LEN: nat := 10081
  const TICK_SECONDS: nat := 60

  datatype Tick = Tick(
    attempts: map<Key, nat>,
    failures: map<Key, nat>,
    latency: map<Key, nat>,
    tokens: map<Key, nat>,
    active: map<Key, nat>,
    hist: map<Key, seq<nat>>,
    endpoints: map<Key, string>)

  const FRESH_TICK := Tick(map[], map[], map[], map[], map[], map[], map[])

  /** What reaches the ring: an attempt under its stored key, or the tokens of a response. */
  datatype Event =
    | Attempted(key: Key, endpoint: string, ns: nat, failed: bool, slot: nat)
    | Answered(key: Key, endpoint: string, tokens: nat)

  function AddTo(m: map<Key, nat>, key: Key, n: nat): map<Key, nat> { m[key := Get(m, key) + n] }

  function NameIn(m: map<Key, string>, key: Key, endpoint: string): map<Key, string> {
    if key in m then m else m[key := endpoint]
  }

  function HistOf(t: Tick, key: Key, slots: nat): seq<nat> { if key in t.hist then t.hist[key] else Zeros(slots) }

  /** recordRingAttemptLocked and RecordDashboardTokens, on one tick */
  function RecordIn(t: Tick, e: Event, slots: nat): Tick {
    match e
    case Attempted(key, endpoint, ns, failed, slot) =>
      Tick(AddTo(t.attempts, key, 1),
           if failed then AddTo(t.failures, key, 1) else t.failures,
           AddTo(t.latency, key, ns),
           t.tokens,
           t.active[key := 1],
           t.hist[key := Bump(HistOf(t, key, slots), slot)],
           NameIn(t.endpoints, key, endpoint))
    case Answered(key, endpoint, tokens) =>
      t.(tokens := AddTo(t.tokens, key, tokens), endpoints := NameIn(t.endpoints, key, endpoint))
  }

  predicate WFTick(t: Tick, slots: nat) { forall k :: k in t.hist ==> |t.hist[k]| == slots }

  predicate WFEvent(e: Event, slots: nat) { e.Attempted? ==> e.slot < slots }

  // ----- measures -----

  /** What a tick counts for a key, and what one event adds to it. */
  datatype Measure = Attempts | Failures | Latency | TokenCount | Slot(j: nat)

  function Weight(m: Measure, e: Event): nat {
    match m
    case Attempts => if e.Attempted? then 1 else 0
    case Failures => if e.Attempted? && e.failed then 1 else 0
    case Latency => if e.Attempted? then e.ns else 0
    case TokenCount => if e.Answered? then e.tokens else 0
    case Slot(j) => if e.Attempted? && e.slot == j then 1 else 0
  }

  function Nth(hist: seq<nat>, j: nat): nat { if j < |hist| then hist[j] else 0 }

  function Read(m: Measure, t: Tick, k: Key): nat {
    match m
    case Attempts => Get(t.attempts, k)
    case Failures => Get(t.failures, k)
    case Latency => Get(t.latency, k)
    case TokenCount => Get(t.tokens, k)
    case Slot(j) => if k in t.hist then Nth(t.hist[k], j) else 0
  }

  function ReadAt(m: Measure, t: Option<Tick>, k: Key): nat { if t.Some? then Read(m, t.value, k) else 0 }

  lemma RecordReads(m: Measure, t: Tick, e: Event, k: Key, slots: nat)
    requires WFTick(t, slots) && WFEvent(e, slots)
    ensures Read(m, RecordIn(t, e, slots), k) == Read(m, t, k) + if e.key == k then Weight(m, e) else 0
  {
  }

  lemma RecordActive(t: Tick, e: Event, k: Key, slots: nat)
    ensures Get(RecordIn(t, e, slots).active, k) == if e.key == k && e.Attempted? then 1 else Get(t.active, k)
  {
  }

  // ----- the log -----

  datatype Entry = Entry(minute: int, event: Event)

  predicate WFLog(log: seq<Entry>, slots: nat) { forall i :: 0 <= i < |log| ==> WFEvent(log[i].event, slots) }

  /** The tick a minute's entries make. */
  function TickAt(log: seq<Entry>, minute: int, slots: nat): Option<Tick> {
    if log == [] then None
    else
      var n := |log| - 1;
      var before := TickAt(log[..n], minute, slots);
      if log[n].minute != minute then before
      else Some(RecordIn(if before.Some? then before.value else FRESH_TICK, log[n].event, slots))
  }

  /** The sum over the entries of `k` with lo < minute <= hi. */
  function LogSum(log: seq<Entry>, k: Key, m: Measure, lo: int, hi: int): nat {
    if log == [] then 0
    else
      var n := |log| - 1;
      var e := log[n];
      LogSum(log[..n], k, m, lo, hi) + if lo < e.minute <= hi && e.event.key == k then Weight(m, e.event) else 0
  }

  lemma {:induction false} TickAtWF(log: seq<Entry>, minute: int, slots: nat)
    requires WFLog(log, slots)
    ensures TickAt(log, minute, slots).Some? ==> WFTick(TickAt(log, minute, slots).value, slots)
    decreases |log|
  {
    if log != [] {
      TickAtWF(log[..|log| - 1], minute, slots);
    }
  }

  /** Each counter of a tick is the sum of its minute's entries. */
  lemma {:induction false} TickReads(log: seq<Entry>, k: Key, m: Measure, minute: int, slots: nat)
    requires WFLog(log, slots)
    ensures ReadAt(m, TickAt(log, minute, slots), k) == LogSum(log, k, m, minute - 1, minute)
    decreases |log|
  {
    if log != [] {
      var n := |log| - 1;
      TickReads(log[..n], k, m, minute, slots);
      TickAtWF(log[..n], minute, slots);
      var before := TickAt(log[..n], minute, slots);
      RecordReads(m, if before.Some? then before.value else FRESH_TICK, log[n].event, k, slots);
    }
  }

  lemma {:induction false} SumSplits(log: seq<Entry>, k: Key, m: Measure, lo: int, mid: int, hi: int)
    requires lo <= mid <= hi
    ensures LogSum(log, k, m, lo, hi) == LogSum(log, k, m, lo, mid) + LogSum(log, k, m, mid, hi)
    decreases |log|
  {
    if log != [] {
      SumSplits(log[..|log| - 1], k, m, lo, mid, hi);
    }
  }

  /** The sum over the last n minutes, tick by tick. */
  function TicksSum(log: seq<Entry>, k: Key, m: Measure, now: int, n: nat, slots: nat): nat {
    if n == 0 then 0
    else TicksSum(log, k, m, now, n - 1, slots) + ReadAt(m, TickAt(log, now - (n - 1), slots), k)
  }

  lemma {:induction false} EmptyRange(log: seq<Entry>, k: Key, m: Measure, at: int)
    ensures LogSum(log, k, m, at, at) == 0
    decreases |log|
  {
    if log != [] {
      EmptyRange(log[..|log| - 1], k, m, at);
    }
  }

  /** Summing ticks is summing the log. */
  lemma {:induction false} TicksAreLog(log: seq<Entry>, k: Key, m: Measure, now: int, n: nat, slots: nat)
    requires WFLog(log, slots)
    ensures TicksSum(log, k, m, now, n, slots) == LogSum(log, k, m, now - n, now)
    decreases n
  {
    if n == 0 {
      EmptyRange(log, k, m, now);
    } else {
      TicksAreLog(log, k, m, now, n - 1, slots);
      TickReads(log, k, m, now - (n - 1), slots);
      SumSplits(log, k, m, now - n, now - (n - 1), now);
    }
  }

  // ----- active minutes -----

  predicate AttemptedIn(log: seq<Entry>, k: Key, minute: int) {
    exists i :: 0 <= i < |log| && log[i].minute == minute && log[i].event.key == k && log[i].event.Attempted?
  }

  /** The minutes in which `k` was attempted. */
  function ActiveMinutes(log: seq<Entry>, k: Key, lo: int, hi: int): set<int> {
    set t | lo < t <= hi && AttemptedIn(log, k, t)
  }

  lemma AttemptedMore(log: seq<Entry>, k: Key, minute: int)
    requires log != []
    ensures var n := |log| - 1;
            AttemptedIn(log, k, minute) <==>
            AttemptedIn(log[..n], k, minute) ||
            (log[n].minute == minute && log[n].event.key == k && log[n].event.Attempted?)
  {
    var n := |log| - 1;
    if AttemptedIn(log[..n], k, minute) {
      var i :| 0 <= i < n && log[..n][i].minute == minute && log[..n][i].event.key == k && log[..n][i].event.Attempted?;
      assert log[i] == log[..n][i];
    }
    if i :| 0 <= i < n && log[i].minute == minute && log[i].event.key == k && log[i].event.Attempted? {
      assert log[..n][i] == log[i];
    }
  }

  lemma {:induction false} ActiveReads(log: seq<Entry>, k: Key, minute: int, slots: nat)
    ensures (if TickAt(log, minute, slots).Some? then Get(TickAt(log, minute, slots).value.active, k) else 0) ==
            if AttemptedIn(log, k, minute) then 1 else 0
    decreases |log|
  {
    if log != [] {
      var n := |log| - 1;
      ActiveReads(log[..n], k, minute, slots);
      AttemptedMore(log, k, minute);
      var before := TickAt(log[..n], minute, slots);
      RecordActive(if before.Some? then before.value else FRESH_TICK, log[n].event, k, slots);
    }
  }

  function ActiveSum(log: seq<Entry>, k: Key, now: int, n: nat, slots: nat): nat {
    if n == 0 then 0
    else
      var t := TickAt(log, now - (n - 1), slots);
      ActiveSum(log, k, now, n - 1, slots) + if t.Some? then Get(t.value.active, k) else 0
  }

  /** The active ticks are the distinct minutes with an attempt. */
  lemma {:induction false} ActiveAreMinutes(log: seq<Entry>, k: Key, now: int, n: nat, slots: nat)
    ensures ActiveSum(log, k, now, n, slots) == |ActiveMinutes(log, k, now - n, now)|
    decreases n
  {
    if n == 0 {
      assert ActiveMinutes(log, k, now, now) == {};
    } else {
      var t := now - (n - 1);
      ActiveAreMinutes(log, k, now, n - 1, slots);
      ActiveReads(log, k, t, slots);
      var rest := ActiveMinutes(log, k, now - (n - 1), now);
      assert ActiveMinutes(log, k, now - n, now) == if AttemptedIn(log, k, t) then rest + {t} else rest;
    }
  }

  // ----- which keys appear, and under which name -----

  predicate Touched(t: Tick, k: Key) {
    k in t.attempts || k in t.failures || k in t.latency || k in t.tokens || k in t.active || k in t.hist
  }

  predicate Logged(log: seq<Entry>, k: Key, lo: int, hi: int) {
    exists i :: 0 <= i < |log| && lo < log[i].minute <= hi && log[i].event.key == k
  }

  lemma {:induction false} TouchedIsLogged(log: seq<Entry>, k: Key, minute: int, slots: nat)
    ensures (TickAt(log, minute, slots).Some? && Touched(TickAt(log, minute, slots).value, k)) <==>
            Logged(log, k, minute - 1, minute)
    decreases |log|
  {
    if log != [] {
      var n := |log| - 1;
      TouchedIsLogged(log[..n], k, minute, slots);
      if Logged(log[..n], k, minute - 1, minute) {
        var i :| 0 <= i < n && minute - 1 < log[..n][i].minute <= minute && log[..n][i].event.key == k;
        assert log[i] == log[..n][i];
      }
      if Logged(log, k, minute - 1, minute) && !(log[n].minute == minute && log[n].event.key == k) {
        var i :| 0 <= i < |log| && minute - 1 < log[i].minute <= minute && log[i].event.key == k;
        assert i < n && log[..n][i] == log[i];
      }
    }
  }

  /** The name of `k` in a minute: the endpoint of its first entry there. */
  function FirstName(log: seq<Entry>, k: Key, minute: int): Option<string> {
    if log == [] then None
    else
      var n := |log| - 1;
      var before := FirstName(log[..n], k, minute);
      if before.None? && log[n].minute == minute && log[n].event.key == k then Some(log[n].event.endpoint) else before
  }

  lemma {:induction false} NameIsFirst(log: seq<Entry>, k: Key, minute: int, slots: nat)
    ensures (var t := TickAt(log, minute, slots);
             if t.Some? && k in t.value.endpoints then Some(t.value.endpoints[k]) else None) ==
            FirstName(log, k, minute)
    decreases |log|
  {
    if log != [] {
      NameIsFirst(log[..|log| - 1], k, minute, slots);
    }
  }
}
