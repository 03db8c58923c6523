/**
 What the bounded attempt registry of metrics.go keeps: the named rows in
 admission order, and one overflow bucket that takes over what is evicted.
 The class in Registry.dfy is proved to act like this table; the theorems about
 runs (bound, conservation, order of eviction) are here.
 */
module AttemptTable {
  import opened Text

  type Key = string

  const OVERFLOW: Key := "endpoint=\"__overflow__\""
  const MIN_LABELS := 16
  const MAX_LABELS := 65536
  const DEFAULT_LABELS := 512

  datatype Row = Row(key: Key, attempts: nat, failures: nat, latency: nat, hist: seq<nat>)

  /** The rows oldest first, the bucket once something was evicted, and the cap. */
  datatype Table = Table(rows: seq<Row>, bucket: Option<Row>, cap: nat) {
    function Size(): nat { |rows| + if bucket.Some? then 1 else 0 }

    /** A slot is free for the bucket, so the map can never pass the cap. */
    predicate Reserved() { Size() <= cap && (bucket.None? ==> |rows| < cap) }
  }

  /** One attempt: the label key, nanoseconds, whether it failed, and its histogram slot. */
  datatype Observation = Observation(key: Key, ns: nat, failed: bool, slot: nat)

  // ----- one attempt -----

  function Zeros(n: nat): (s: seq<nat>)
    ensures |s| == n
  {
    seq(n, _ => 0)
  }

  function Get(m: map<Key, nat>, key: Key): nat { if key in m then m[key] else 0 }

  function NewRow(key: Key, slots: nat): Row { Row(key, 0, 0, 0, Zeros(slots)) }

  function Bump(hist: seq<nat>, slot: nat): (h: seq<nat>)
    ensures |h| == |hist|
  {
    if slot < |hist| then hist[slot := hist[slot] + 1] else hist
  }

  function Add(r: Row, o: Observation): Row {
    Row(r.key, r.attempts + 1, r.failures + (if o.failed then 1 else 0), r.latency + o.ns, Bump(r.hist, o.slot))
  }

  /** Counters fold into the bucket; its histogram keeps only what was recorded against it. */
  function Merge(bucket: Row, victim: Row): Row {
    Row(bucket.key, bucket.attempts + victim.attempts, bucket.failures + victim.failures,
        bucket.latency + victim.latency, bucket.hist)
  }

  function IndexOf(rows: seq<Row>, key: Key): (r: Option<nat>)
    ensures r.Some? ==> r.value < |rows| && rows[r.value].key == key
    ensures r.None? ==> forall k :: 0 <= k < |rows| ==> rows[k].key != key
  {
    if rows == [] then None
    else if rows[0].key == key then Some(0)
    else match IndexOf(rows[1..], key) case None => None case Some(k) => Some(k + 1)
  }

  function BucketOf(t: Table, slots: nat): Row {
    if t.bucket.Some? then t.bucket.value else NewRow(OVERFLOW, slots)
  }

  /** The oldest row is folded into the bucket. */
  function EvictOldest(t: Table, slots: nat): Table
    requires t.rows != []
  {
    t.(rows := t.rows[1..], bucket := Some(Merge(BucketOf(t, slots), t.rows[0])))
  }

  /** The same for any row. */
  function EvictAt(t: Table, i: nat, slots: nat): Table
    requires i < |t.rows|
  {
    t.(rows := t.rows[..i] + t.rows[i + 1..], bucket := Some(Merge(BucketOf(t, slots), t.rows[i])))
  }

  /** Whether `key` needs a row or bucket of its own. */
  predicate Tracked(t: Table, key: Key) {
    if key == OVERFLOW then t.bucket.Some? else IndexOf(t.rows, key).Some?
  }

  /** All slots but the one for the bucket are taken, and `key` is not among them. */
  predicate Full(t: Table, key: Key) { !Tracked(t, key) && key != OVERFLOW && t.Size() >= t.cap - 1 }

  /** A row for `key`, evicting the oldest one when the window is full; without any, the bucket has to do. */
  function Admit(t: Table, key: Key, slots: nat): Table {
    if key == OVERFLOW then t.(bucket := Some(BucketOf(t, slots)))
    else if Tracked(t, key) then t
    else if !Full(t, key) then Append(t, key, slots)
    else Recycle(t, key, slots)
  }

  function Append(t: Table, key: Key, slots: nat): Table { t.(rows := t.rows + [NewRow(key, slots)]) }

  function Recycle(t: Table, key: Key, slots: nat): Table {
    if t.rows == [] then t.(bucket := Some(BucketOf(t, slots)))
    else Append(EvictOldest(t, slots), key, slots)
  }

  /** The key the observation is stored under. */
  function StoredKey(t: Table, key: Key): Key { if Full(t, key) && t.rows == [] then OVERFLOW else key }

  function Count(t: Table, o: Observation): Table {
    if o.key == OVERFLOW then
      (if t.bucket.Some? then t.(bucket := Some(Add(t.bucket.value, o))) else t)
    else
      match IndexOf(t.rows, o.key)
      case None => t
      case Some(k) => t.(rows := t.rows[k := Add(t.rows[k], o)])
  }

  function Record(t: Table, o: Observation, slots: nat): Table {
    Count(Admit(t, o.key, slots), o.(key := StoredKey(t, o.key)))
  }

  // ----- changing the cap -----

  /** Evict until the table fits; the first eviction may create the bucket and free nothing. */
  function Shrink(t: Table, slots: nat): (s: Table)
    ensures s.cap == t.cap && (s.rows == [] || s.Size() <= s.cap)
    decreases |t.rows|
  {
    if t.rows == [] || t.Size() <= t.cap then t else Shrink(EvictOldest(t, slots), slots)
  }

  function Resize(t: Table, n: int, slots: nat): Table {
    if n < MIN_LABELS || n > MAX_LABELS || n == t.cap then t else Shrink(t.(cap := n), slots)
  }

  // ----- runs -----

  datatype Op = Attempt(o: Observation) | SetCap(n: int)

  function Step(t: Table, op: Op, slots: nat): Table {
    match op
    case Attempt(o) => Record(t, o, slots)
    case SetCap(n) => Resize(t, n, slots)
  }

  function Run(t: Table, ops: seq<Op>, slots: nat): Table {
    if ops == [] then t else Step(Run(t, ops[..|ops| - 1], slots), ops[|ops| - 1], slots)
  }

  const EMPTY := Table([], None, DEFAULT_LABELS)

  // ----- what every run keeps -----

  function Sum(hist: seq<nat>): nat {
    if hist == [] then 0 else Sum(hist[..|hist| - 1]) + hist[|hist| - 1]
  }

  /** The histogram of a named row accounts for each of its attempts. */
  predicate Accounted(r: Row, slots: nat) { |r.hist| == slots && Sum(r.hist) == r.attempts }

  predicate WF(t: Table, slots: nat) {
    && MIN_LABELS <= t.cap <= MAX_LABELS
    && |t.rows| <= t.cap
    && (forall i :: 0 <= i < |t.rows| ==> t.rows[i].key != OVERFLOW && Accounted(t.rows[i], slots))
    && (forall i, j :: 0 <= i < j < |t.rows| ==> t.rows[i].key != t.rows[j].key)
    && (t.bucket.Some? ==> t.bucket.value.key == OVERFLOW && |t.bucket.value.hist| == slots)
  }

  lemma {:induction false} SumZeros(n: nat)
    ensures Sum(Zeros(n)) == 0
  {
    if n > 0 {
      assert Zeros(n)[..n - 1] == Zeros(n - 1);
      SumZeros(n - 1);
    }
  }

  lemma {:induction false} SumBump(hist: seq<nat>, slot: nat)
    requires slot < |hist|
    ensures Sum(Bump(hist, slot)) == Sum(hist) + 1
  {
    var n := |hist| - 1;
    if slot < n {
      assert Bump(hist, slot)[..n] == Bump(hist[..n], slot);
      SumBump(hist[..n], slot);
    } else {
      assert Bump(hist, slot)[..n] == hist[..n];
    }
  }

  lemma NewRowAccounted(key: Key, slots: nat)
    ensures Accounted(NewRow(key, slots), slots)
  {
    SumZeros(slots);
  }

  lemma AdmitKeeps(t: Table, key: Key, slots: nat)
    requires WF(t, slots)
    ensures WF(Admit(t, key, slots), slots)
    ensures t.Reserved() ==> Admit(t, key, slots).Reserved()
    ensures key == OVERFLOW ==> Admit(t, key, slots).bucket.Some?
    ensures key != OVERFLOW ==> IndexOf(Admit(t, key, slots).rows, key).Some?
  {
    NewRowAccounted(key, slots);
    var rows := Admit(t, key, slots).rows;
    if key != OVERFLOW && IndexOf(t.rows, key).None? {
      assert rows[|rows| - 1].key == key;
    }
  }

  lemma CountKeeps(t: Table, o: Observation, slots: nat)
    requires WF(t, slots) && o.slot < slots
    ensures WF(Count(t, o), slots)
    ensures Count(t, o).Reserved() <==> t.Reserved()
    ensures Count(t, o).Size() == t.Size()
  {
    if o.key != OVERFLOW && IndexOf(t.rows, o.key).Some? {
      SumBump(t.rows[IndexOf(t.rows, o.key).value].hist, o.slot);
    }
  }

  /** The collapse branch is unreachable: a full table has a row to evict. */
  lemma NeverCollapses(t: Table, key: Key, slots: nat)
    requires WF(t, slots)
    ensures StoredKey(t, key) == key
    ensures Full(t, key) ==> t.rows != []
  {
  }

  lemma RecordKeeps(t: Table, o: Observation, slots: nat)
    requires WF(t, slots) && o.slot < slots
    ensures WF(Record(t, o, slots), slots)
    ensures t.Reserved() ==> Record(t, o, slots).Reserved()
  {
    AdmitKeeps(t, o.key, slots);
    CountKeeps(Admit(t, o.key, slots), o, slots);
  }

  lemma EvictKeeps(t: Table, slots: nat)
    requires WF(t, slots) && t.rows != []
    ensures WF(EvictOldest(t, slots), slots)
  {
  }

  lemma {:induction false} ShrinkKeeps(t: Table, slots: nat)
    requires MIN_LABELS <= t.cap <= MAX_LABELS && WF(t.(cap := MAX_LABELS), slots)
    ensures WF(Shrink(t, slots), slots) && Shrink(t, slots).Size() <= t.cap
    decreases |t.rows|
  {
    if t.rows != [] && t.Size() > t.cap {
      EvictKeeps(t.(cap := MAX_LABELS), slots);
      ShrinkKeeps(EvictOldest(t, slots), slots);
    }
  }

  /** The first eviction makes the bucket, so from there on every eviction frees a slot. */
  lemma {:induction false} ShrinkReserves(t: Table, slots: nat)
    requires t.cap >= MIN_LABELS && t.bucket.Some?
    ensures Shrink(t, slots).Reserved()
    decreases |t.rows|
  {
    if t.rows != [] && t.Size() > t.cap {
      ShrinkReserves(EvictOldest(t, slots), slots);
    }
  }

  /** The cap change that leaves no room for the bucket: as many rows as the new cap, and no bucket yet. */
  predicate FillsExactly(t: Table, n: int) {
    MIN_LABELS <= n <= MAX_LABELS && n != t.cap && t.bucket.None? && |t.rows| == n
  }

  lemma ResizeKeeps(t: Table, n: int, slots: nat)
    requires WF(t, slots)
    ensures WF(Resize(t, n, slots), slots)
    ensures MIN_LABELS <= n <= MAX_LABELS && n != t.cap ==> Resize(t, n, slots).Size() <= n
  {
    if MIN_LABELS <= n <= MAX_LABELS {
      ShrinkKeeps(t.(cap := n), slots);
    }
  }

  /** SetLabelCap keeps the reserved slot exactly when it does not fill the window to the brim. */
  lemma ResizeReserves(t: Table, n: int, slots: nat)
    requires WF(t, slots) && t.Reserved()
    ensures Resize(t, n, slots).Reserved() <==> !FillsExactly(t, n)
  {
    if MIN_LABELS <= n <= MAX_LABELS && n != t.cap {
      var u := t.(cap := n);
      if u.Size() > n {
        if u.rows != [] {
          ShrinkReserves(EvictOldest(u, slots), slots);
        }
      }
    }
  }

  /** And then the next new label takes the map past the cap: n rows and the bucket. */
  lemma FilledThenExceeds(t: Table, n: int, o: Observation, slots: nat)
    requires WF(t, slots) && FillsExactly(t, n) && o.slot < slots
    requires o.key != OVERFLOW && IndexOf(t.rows, o.key).None?
    ensures Record(Resize(t, n, slots), o, slots).Size() == n + 1 > Resize(t, n, slots).cap
  {
    var full := Resize(t, n, slots);
    assert full == t.(cap := n);
    AdmitKeeps(full, o.key, slots);
    CountKeeps(Admit(full, o.key, slots), o, slots);
  }

  predicate GoodOps(ops: seq<Op>, slots: nat) {
    forall i :: 0 <= i < |ops| && ops[i].Attempt? ==> ops[i].o.slot < slots
  }

  // ----- a run that gets there -----

  /** One quick attempt against each label. */
  function Visits(labels: seq<Key>): (ops: seq<Op>)
    ensures |ops| == |labels|
  {
    seq(|labels|, i requires 0 <= i < |labels| => Attempt(Observation(labels[i], 0, false, 0)))
  }

  predicate AllNamed(labels: seq<Key>) {
    && (forall i :: 0 <= i < |labels| ==> labels[i] != OVERFLOW)
    && (forall i, j :: 0 <= i < j < |labels| ==> labels[i] != labels[j])
  }

  /** Visit each label but the last, set the cap to their number, and visit the last. */
  function Overfilling(labels: seq<Key>): seq<Op>
    requires labels != []
  {
    var n := |labels| - 1;
    Visits(labels[..n]) + [SetCap(n)] + Visits([labels[n]])
  }

  lemma VisitRow(t: Table, key: Key, slots: nat)
    requires WF(t, slots) && t.bucket.None? && |t.rows| < t.cap - 1 && slots > 0
    requires key != OVERFLOW && IndexOf(t.rows, key).None?
    ensures var u := Record(t, Observation(key, 0, false, 0), slots);
            && u.bucket.None? && u.cap == t.cap && |u.rows| == |t.rows| + 1 && u.rows[|t.rows|].key == key
            && forall i :: 0 <= i < |t.rows| ==> u.rows[i].key == t.rows[i].key
  {
    var admitted := Admit(t, key, slots);
    assert admitted == Append(t, key, slots);
    assert IndexOf(admitted.rows, key).Some? by {
      assert admitted.rows[|t.rows|].key == key;
    }
  }

  lemma {:induction false} VisitsFill(labels: seq<Key>, slots: nat)
    requires AllNamed(labels) && |labels| < DEFAULT_LABELS && slots > 0
    ensures var t := Run(EMPTY, Visits(labels), slots);
            && WF(t, slots) && t.bucket.None? && t.cap == DEFAULT_LABELS && |t.rows| == |labels|
            && forall i :: 0 <= i < |labels| ==> t.rows[i].key == labels[i]
    decreases |labels|
  {
    if labels != [] {
      var n := |labels| - 1;
      VisitsFill(labels[..n], slots);
      assert Visits(labels)[..n] == Visits(labels[..n]);
      var before := Run(EMPTY, Visits(labels[..n]), slots);
      VisitRow(before, labels[n], slots);
      RecordKeeps(before, Observation(labels[n], 0, false, 0), slots);
    }
  }

  lemma RunTwoMore(t: Table, ops: seq<Op>, a: Op, b: Op, slots: nat)
    ensures Run(t, ops + [a] + [b], slots) == Step(Step(Run(t, ops, slots), a, slots), b, slots)
  {
    var all := ops + [a] + [b];
    assert all[..|all| - 1] == ops + [a] && (ops + [a])[..|ops|] == ops;
  }

  /** From the start: n labels, the cap set to n, and one label more make n + 1 entries, one over the cap. */
  lemma OverfillingExceeds(labels: seq<Key>, slots: nat)
    requires AllNamed(labels) && MIN_LABELS < |labels| <= DEFAULT_LABELS && slots > 0
    ensures var t := Run(EMPTY, Overfilling(labels), slots);
            t.Size() == |labels| && t.cap == |labels| - 1
  {
    var n := |labels| - 1;
    VisitsFill(labels[..n], slots);
    CapThenOneMore(Run(EMPTY, Visits(labels[..n]), slots), labels, slots);
    RunTwoMore(EMPTY, Visits(labels[..n]), SetCap(n), Attempt(Observation(labels[n], 0, false, 0)), slots);
    assert Visits([labels[n]]) == [Attempt(Observation(labels[n], 0, false, 0))];
  }

  lemma CapThenOneMore(t: Table, labels: seq<Key>, slots: nat)
    requires AllNamed(labels) && MIN_LABELS < |labels| <= MAX_LABELS && slots > 0
    requires WF(t, slots) && t.bucket.None? && |t.rows| == |labels| - 1 != t.cap
    requires forall i :: 0 <= i < |t.rows| ==> t.rows[i].key == labels[i]
    ensures var n := |labels| - 1;
            var u := Step(Step(t, SetCap(n), slots), Attempt(Observation(labels[n], 0, false, 0)), slots);
            u.Size() == |labels| && u.cap == n
  {
    var n := |labels| - 1;
    var o := Observation(labels[n], 0, false, 0);
    FilledThenExceeds(t, n, o, slots);
    RecordCap(Resize(t, n, slots), o, slots);
  }

  lemma RecordCap(t: Table, o: Observation, slots: nat)
    ensures Record(t, o, slots).cap == t.cap
  {
  }

  /** Labels of the endpoints `e`, `ee`, `eee` and so on. */
  function Labels(n: nat): (labels: seq<Key>)
    ensures |labels| == n && AllNamed(labels)
  {
    var labels := seq(n, i requires 0 <= i < n => LongLabel(i + 1));
    assert forall i :: 0 <= i < n ==> |labels[i]| == i + 12 && labels[i][10] == 'e' && OVERFLOW[10] == '_';
    labels
  }

  function LongLabel(n: nat): (s: Key)
    requires n > 0
    ensures |s| == n + 11 && s[10] == 'e'
  {
    "endpoint=\"" + seq(n, _ => 'e') + "\""
  }

  /** Sixteen labels, a cap of sixteen and a seventeenth label: seventeen entries. */
  lemma SixteenAndOneMore()
    ensures Run(EMPTY, Visits(Labels(17)[..16]) + [SetCap(16)] + Visits([Labels(17)[16]]), 1).Size() == 17
    ensures Run(EMPTY, Visits(Labels(17)[..16]) + [SetCap(16)] + Visits([Labels(17)[16]]), 1).cap == 16
  {
    OverfillingExceeds(Labels(17), 1);
  }

  /** No cap change of the run fills the window to the brim. */
  predicate NeverFills(t: Table, ops: seq<Op>, slots: nat) {
    forall i :: 0 <= i < |ops| && ops[i].SetCap? ==> !FillsExactly(Run(t, ops[..i], slots), ops[i].n)
  }

  /** Over every run of attempts and cap changes the table stays well formed, at most one over its cap. */
  lemma {:induction false} RunKeeps(t: Table, ops: seq<Op>, slots: nat)
    requires WF(t, slots) && GoodOps(ops, slots)
    ensures WF(Run(t, ops, slots), slots)
    ensures Run(t, ops, slots).Size() <= Run(t, ops, slots).cap + 1
    decreases |ops|
  {
    if ops != [] {
      var n := |ops| - 1;
      RunKeeps(t, ops[..n], slots);
      match ops[n] {
        case Attempt(o) => RecordKeeps(Run(t, ops[..n], slots), o, slots);
        case SetCap(k) => ResizeKeeps(Run(t, ops[..n], slots), k, slots);
      }
    }
  }

  /** The slot for the bucket stays reserved through the whole run, and so the map within its cap. */
  lemma {:induction false} RunReserves(t: Table, ops: seq<Op>, slots: nat)
    requires WF(t, slots) && t.Reserved() && GoodOps(ops, slots) && NeverFills(t, ops, slots)
    ensures Run(t, ops, slots).Reserved() && Run(t, ops, slots).Size() <= Run(t, ops, slots).cap
    decreases |ops|
  {
    if ops != [] {
      var n := |ops| - 1;
      var init := ops[..n];
      RunKeeps(t, init, slots);
      forall i | 0 <= i < n && init[i].SetCap?
        ensures !FillsExactly(Run(t, init[..i], slots), init[i].n)
      {
        assert init[..i] == ops[..i];
      }
      RunReserves(t, init, slots);
      match ops[n] {
        case Attempt(o) => RecordKeeps(Run(t, init, slots), o, slots);
        case SetCap(k) => ResizeReserves(Run(t, init, slots), k, slots);
      }
    }
  }

  /** With the cap fixed, nothing can fill it: the map never exceeds the cap. */
  lemma FixedCapBounded(ops: seq<Op>, slots: nat)
    requires GoodOps(ops, slots) && forall i :: 0 <= i < |ops| ==> ops[i].Attempt?
    ensures Run(EMPTY, ops, slots).Size() <= Run(EMPTY, ops, slots).cap
  {
    RunReserves(EMPTY, ops, slots);
  }

  // ----- nothing is lost -----

  datatype Totals = Totals(attempts: nat, failures: nat, latency: nat) {
    function Plus(other: Totals): Totals {
      Totals(attempts + other.attempts, failures + other.failures, latency + other.latency)
    }
  }

  function RowTotals(r: Row): Totals { Totals(r.attempts, r.failures, r.latency) }

  function RowsTotals(rows: seq<Row>): Totals {
    if rows == [] then Totals(0, 0, 0) else RowTotals(rows[0]).Plus(RowsTotals(rows[1..]))
  }

  /** Summed over all keys, the bucket included. */
  function TableTotals(t: Table): Totals {
    RowsTotals(t.rows).Plus(if t.bucket.Some? then RowTotals(t.bucket.value) else Totals(0, 0, 0))
  }

  function OpTotals(op: Op): Totals {
    match op
    case Attempt(o) => Totals(1, if o.failed then 1 else 0, o.ns)
    case SetCap(_) => Totals(0, 0, 0)
  }

  function Recorded(ops: seq<Op>): Totals {
    if ops == [] then Totals(0, 0, 0) else Recorded(ops[..|ops| - 1]).Plus(OpTotals(ops[|ops| - 1]))
  }

  lemma {:induction false} TotalsAppend(rows: seq<Row>, r: Row)
    ensures RowsTotals(rows + [r]) == RowsTotals(rows).Plus(RowTotals(r))
  {
    if rows == [] {
      assert [] + [r] == [r];
      assert RowsTotals([r][1..]) == Totals(0, 0, 0);
    } else {
      assert (rows + [r])[1..] == rows[1..] + [r];
      TotalsAppend(rows[1..], r);
    }
  }

  lemma {:induction false} TotalsUpdate(rows: seq<Row>, k: nat, o: Observation)
    requires k < |rows|
    ensures RowsTotals(rows[k := Add(rows[k], o)]) == RowsTotals(rows).Plus(OpTotals(Attempt(o)))
  {
    var now := rows[k := Add(rows[k], o)];
    if k == 0 {
      assert now[1..] == rows[1..];
    } else {
      assert now[1..] == rows[1..][k - 1 := Add(rows[1..][k - 1], o)];
      TotalsUpdate(rows[1..], k - 1, o);
    }
  }

  lemma EvictConserves(t: Table, slots: nat)
    requires t.rows != []
    ensures TableTotals(EvictOldest(t, slots)) == TableTotals(t)
  {
  }

  lemma AppendedTotals(t: Table, u: Table, r: Row)
    requires u.rows == t.rows + [r] && u.bucket == t.bucket && RowTotals(r) == Totals(0, 0, 0)
    ensures TableTotals(u) == TableTotals(t)
  {
    TotalsAppend(t.rows, r);
  }

  lemma AppendConserves(t: Table, key: Key, slots: nat)
    ensures TableTotals(Append(t, key, slots)) == TableTotals(t)
  {
    AppendedTotals(t, Append(t, key, slots), NewRow(key, slots));
  }

  lemma AdmitConserves(t: Table, key: Key, slots: nat)
    ensures TableTotals(Admit(t, key, slots)) == TableTotals(t)
  {
    if key == OVERFLOW || IndexOf(t.rows, key).Some? {
    } else if !Full(t, key) {
      AppendConserves(t, key, slots);
    } else if t.rows != [] {
      EvictConserves(t, slots);
      AppendConserves(EvictOldest(t, slots), key, slots);
    }
  }

  lemma CountConserves(t: Table, o: Observation)
    requires if o.key == OVERFLOW then t.bucket.Some? else IndexOf(t.rows, o.key).Some?
    ensures TableTotals(Count(t, o)) == TableTotals(t).Plus(OpTotals(Attempt(o)))
  {
    if o.key != OVERFLOW {
      TotalsUpdate(t.rows, IndexOf(t.rows, o.key).value, o);
    }
  }

  lemma {:induction false} ShrinkConserves(t: Table, slots: nat)
    ensures TableTotals(Shrink(t, slots)) == TableTotals(t)
    decreases |t.rows|
  {
    if t.rows != [] && t.Size() > t.cap {
      EvictConserves(t, slots);
      ShrinkConserves(EvictOldest(t, slots), slots);
    }
  }

  lemma RecordIs(t: Table, o: Observation, slots: nat)
    requires WF(t, slots)
    ensures Record(t, o, slots) == Count(Admit(t, o.key, slots), o)
  {
    NeverCollapses(t, o.key, slots);
  }

  lemma CountedTotals(t: Table, u: Table, r: Table, o: Observation)
    requires TableTotals(u) == TableTotals(t) && r == Count(u, o) && Tracked(u, o.key)
    ensures TableTotals(r) == TableTotals(t).Plus(OpTotals(Attempt(o)))
  {
    CountConserves(u, o);
  }

  lemma RecordConserves(t: Table, o: Observation, slots: nat)
    requires WF(t, slots) && o.slot < slots
    ensures TableTotals(Record(t, o, slots)) == TableTotals(t).Plus(OpTotals(Attempt(o)))
  {
    RecordIs(t, o, slots);
    AdmitKeeps(t, o.key, slots);
    AdmitConserves(t, o.key, slots);
    CountedTotals(t, Admit(t, o.key, slots), Record(t, o, slots), o);
  }

  lemma CapIgnored(t: Table, u: Table, r: Table, slots: nat)
    requires u.rows == t.rows && u.bucket == t.bucket && r == Shrink(u, slots)
    ensures TableTotals(r) == TableTotals(t)
  {
    ShrinkConserves(u, slots);
  }

  lemma ResizeConserves(t: Table, n: int, slots: nat)
    ensures TableTotals(Resize(t, n, slots)) == TableTotals(t)
  {
    if MIN_LABELS <= n <= MAX_LABELS && n != t.cap {
      ResizeShrinks(t, n, slots);
      CapIgnored(t, t.(cap := n), Resize(t, n, slots), slots);
    }
  }

  lemma ResizeShrinks(t: Table, n: nat, slots: nat)
    requires MIN_LABELS <= n <= MAX_LABELS && n != t.cap
    ensures Resize(t, n, slots) == Shrink(t.(cap := n), slots)
  {
  }

  lemma StepConserves(t: Table, op: Op, slots: nat)
    requires WF(t, slots) && GoodOps([op], slots)
    ensures TableTotals(Step(t, op, slots)) == TableTotals(t).Plus(OpTotals(op))
  {
    match op {
      case Attempt(o) =>
        assert [op][0].o.slot < slots;
        RecordConserves(t, o, slots);
      case SetCap(n) => ResizeConserves(t, n, slots);
    }
  }

  lemma PlusAssociates(a: Totals, b: Totals, c: Totals)
    ensures a.Plus(b).Plus(c) == a.Plus(b.Plus(c))
    ensures a.Plus(Totals(0, 0, 0)) == a
  {
  }

  lemma StepChain(start: Totals, done: Totals, before: Table, op: Op, after: Table, slots: nat)
    requires WF(before, slots) && GoodOps([op], slots) && after == Step(before, op, slots)
    requires TableTotals(before) == start.Plus(done)
    ensures TableTotals(after) == start.Plus(done.Plus(OpTotals(op)))
  {
    StepConserves(before, op, slots);
    PlusAssociates(start, done, OpTotals(op));
  }

  /** Attempts, failures and latency summed over all keys are the totals ever recorded. */
  lemma {:induction false} RunConserves(t: Table, ops: seq<Op>, slots: nat)
    requires WF(t, slots) && GoodOps(ops, slots)
    ensures TableTotals(Run(t, ops, slots)) == TableTotals(t).Plus(Recorded(ops))
    decreases |ops|
  {
    if ops == [] {
      PlusAssociates(TableTotals(t), Totals(0, 0, 0), Totals(0, 0, 0));
    } else {
      var init, op := ops[..|ops| - 1], ops[|ops| - 1];
      RunConserves(t, init, slots);
      RunKeeps(t, init, slots);
      StepChain(TableTotals(t), Recorded(init), Run(t, init, slots), op, Run(t, ops, slots), slots);
    }
  }

  // ----- first in, first out -----

  function Keys(rows: seq<Row>): (keys: seq<Key>)
    ensures |keys| == |rows|
  {
    seq(|rows|, i requires 0 <= i < |rows| => rows[i].key)
  }

  /** The label the step gives a row, if any. */
  function Admission(t: Table, op: Op): seq<Key> {
    if op.Attempt? && op.o.key != OVERFLOW && IndexOf(t.rows, op.o.key).None? then [op.o.key] else []
  }

  /** The labels given a row by the run, in order; a label may come back after its eviction. */
  function Admissions(t: Table, ops: seq<Op>, slots: nat): seq<Key> {
    if ops == [] then []
    else Admissions(t, ops[..|ops| - 1], slots) + Admission(Run(t, ops[..|ops| - 1], slots), ops[|ops| - 1])
  }

  predicate IsSuffix(s: seq<Key>, all: seq<Key>) { |s| <= |all| && s == all[|all| - |s|..] }

  lemma SuffixMore(s: seq<Key>, all: seq<Key>, more: seq<Key>)
    requires IsSuffix(s, all)
    ensures IsSuffix(s + more, all + more)
  {
  }

  lemma SuffixTail(s: seq<Key>, all: seq<Key>)
    requires IsSuffix(s, all) && s != []
    ensures IsSuffix(s[1..], all)
  {
  }

  lemma {:induction false} ShrinkDropsOldest(t: Table, all: seq<Key>, slots: nat)
    requires IsSuffix(Keys(t.rows), all)
    ensures IsSuffix(Keys(Shrink(t, slots).rows), all)
    decreases |t.rows|
  {
    if t.rows != [] && t.Size() > t.cap {
      SuffixTail(Keys(t.rows), all);
      assert Keys(t.rows[1..]) == Keys(t.rows)[1..];
      ShrinkDropsOldest(EvictOldest(t, slots), all, slots);
    }
  }

  lemma CountSameKeys(t: Table, o: Observation)
    ensures Keys(Count(t, o).rows) == Keys(t.rows)
  {
  }

  lemma RecordKeys(t: Table, o: Observation, all: seq<Key>, slots: nat)
    requires WF(t, slots) && IsSuffix(Keys(t.rows), all)
    ensures IsSuffix(Keys(Record(t, o, slots).rows), all + Admission(t, Attempt(o)))
  {
    var added := Admission(t, Attempt(o));
    RecordIs(t, o, slots);
    CountSameKeys(Admit(t, o.key, slots), o);
    if added == [] {
      assert all + added == all;
    } else if !Full(t, o.key) {
      SuffixMore(Keys(t.rows), all, added);
      assert Keys(Append(t, o.key, slots).rows) == Keys(t.rows) + added;
    } else {
      NeverCollapses(t, o.key, slots);
      SuffixTail(Keys(t.rows), all);
      SuffixMore(Keys(t.rows)[1..], all, added);
      assert Keys(Recycle(t, o.key, slots).rows) == Keys(t.rows)[1..] + added;
    }
  }

  lemma StepKeys(t: Table, op: Op, after: Table, all: seq<Key>, slots: nat)
    requires WF(t, slots) && IsSuffix(Keys(t.rows), all) && after == Step(t, op, slots)
    ensures IsSuffix(Keys(after.rows), all + Admission(t, op))
  {
    match op {
      case Attempt(o) => RecordKeys(t, o, all, slots);
      case SetCap(n) =>
        assert all + [] == all;
        if MIN_LABELS <= n <= MAX_LABELS {
          ShrinkDropsOldest(t.(cap := n), all, slots);
        }
    }
  }

  /** The live labels are always the most recently admitted ones: the victim was the oldest. */
  lemma {:induction false} RunFirstInFirstOut(t: Table, ops: seq<Op>, slots: nat)
    requires WF(t, slots) && GoodOps(ops, slots)
    ensures IsSuffix(Keys(Run(t, ops, slots).rows), Keys(t.rows) + Admissions(t, ops, slots))
    decreases |ops|
  {
    if ops == [] {
      assert Keys(t.rows) + [] == Keys(t.rows);
    } else {
      var init, op := ops[..|ops| - 1], ops[|ops| - 1];
      var past := Keys(t.rows) + Admissions(t, init, slots);
      RunFirstInFirstOut(t, init, slots);
      RunKeeps(t, init, slots);
      StepKeys(Run(t, init, slots), op, Run(t, ops, slots), past, slots);
      assert past + Admission(Run(t, init, slots), op) == Keys(t.rows) + Admissions(t, ops, slots);
    }
  }
}
