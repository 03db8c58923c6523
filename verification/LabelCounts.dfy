/**
 What a single label of the attempt registry of metrics.go has counted: over every run,
 exactly the attempts made under it since it was last admitted.
 */
module LabelCounts {
  import opened Text
  import opened AttemptTable
  import R = Registry

  /** The counters of a row; one of them for each latency slot. */
  datatype Counter = Attempts | Failures | Latency | Slot(n: nat)

  function Read(r: Row, c: Counter): nat {
    match c
    case Attempts => r.attempts
    case Failures => r.failures
    case Latency => r.latency
    case Slot(n) => if n < |r.hist| then r.hist[n] else 0
  }

  /** What one attempt adds to a counter of its label. */
  function Weight(o: Observation, c: Counter): nat {
    match c
    case Attempts => 1
    case Failures => if o.failed then 1 else 0
    case Latency => o.ns
    case Slot(n) => if o.slot == n then 1 else 0
  }

  /** The sum over the attempts against `key` among the operations from `since` on. */
  function Observed(ops: seq<Op>, key: Key, since: nat, c: Counter): nat
    decreases |ops|
  {
    if |ops| <= since then 0
    else Observed(ops[..|ops| - 1], key, since, c) + Share(ops[|ops| - 1], key, c)
  }

  function Share(op: Op, key: Key, c: Counter): nat {
    match op
    case Attempt(o) => if o.key == key then Weight(o, c) else 0
    case SetCap(_) => 0
  }

  predicate Live(t: Table, key: Key) { exists k :: 0 <= k < |t.rows| && t.rows[k].key == key }

  /** The label before operation `j`. */
  predicate LiveAt(ops: seq<Op>, key: Key, slots: nat, j: int) {
    0 <= j <= |ops| && Live(Run(EMPTY, ops[..j], slots), key)
  }

  /** Operation `i` is the attempt that last made the label live. */
  predicate AdmittedBy(ops: seq<Op>, key: Key, slots: nat, i: nat) {
    && i < |ops| && ops[i].Attempt? && ops[i].o.key == key
    && !LiveAt(ops, key, slots, i)
    && (forall j :: i < j <= |ops| ==> LiveAt(ops, key, slots, j))
  }

  // ----- one operation -----

  lemma AddCounts(r: Row, o: Observation, c: Counter)
    requires o.slot < |r.hist|
    ensures Read(Add(r, o), c) == Read(r, c) + Weight(o, c)
  {
  }

  lemma NewCounts(key: Key, o: Observation, slots: nat, c: Counter)
    requires o.slot < slots
    ensures Read(Add(NewRow(key, slots), o), c) == Weight(o, c)
  {
    AddCounts(NewRow(key, slots), o, c);
  }

  /** A row of the table after an operation: where it comes from. */
  predicate Origin(t: Table, op: Op, r: Row, slots: nat) {
    if op.SetCap? || op.o.key != r.key then r in t.rows
    else if Live(t, r.key) then exists k :: 0 <= k < |t.rows| && t.rows[k].key == r.key && r == Add(t.rows[k], op.o)
    else r == Add(NewRow(r.key, slots), op.o)
  }

  lemma {:induction false} ShrinkOrigin(t: Table, r: Row, slots: nat)
    requires r in Shrink(t, slots).rows
    ensures r in t.rows
    decreases |t.rows|
  {
    if t.rows != [] && t.Size() > t.cap {
      ShrinkOrigin(EvictOldest(t, slots), r, slots);
    }
  }

  lemma AdmitOrigin(t: Table, key: Key, r: Row, slots: nat)
    requires r in Admit(t, key, slots).rows
    ensures r in t.rows || (r == NewRow(key, slots) && !Tracked(t, key) && key != OVERFLOW)
  {
  }

  lemma CountOrigin(t: Table, o: Observation, r: Row)
    requires r in Count(t, o).rows && o.key != OVERFLOW
    requires forall i, j :: 0 <= i < j < |t.rows| ==> t.rows[i].key != t.rows[j].key
    ensures r.key != o.key ==> r in t.rows
    ensures r.key == o.key ==> exists k :: 0 <= k < |t.rows| && t.rows[k].key == r.key && r == Add(t.rows[k], o)
  {
  }

  lemma RowKey(t: Table, r: Row, slots: nat)
    requires WF(t, slots) && r in t.rows
    ensures r.key != OVERFLOW && |r.hist| == slots && Live(t, r.key) && IndexOf(t.rows, r.key).Some?
  {
    var k :| 0 <= k < |t.rows| && t.rows[k] == r;
    assert t.rows[k].key == r.key;
  }

  lemma NamedOrigin(t: Table, o: Observation, r: Row, slots: nat)
    requires WF(t, slots) && o.slot < slots && o.key != OVERFLOW
    requires r in Count(Admit(t, o.key, slots), o).rows
    ensures Origin(t, Attempt(o), r, slots)
  {
    var u := Admit(t, o.key, slots);
    AdmitKeeps(t, o.key, slots);
    CountOrigin(u, o, r);
    if r.key != o.key {
      AdmitOrigin(t, o.key, r, slots);
    } else if !Live(t, o.key) {
      var k :| 0 <= k < |u.rows| && u.rows[k].key == r.key && r == Add(u.rows[k], o);
      AdmitOrigin(t, o.key, u.rows[k], slots);
      if u.rows[k] in t.rows {
        RowKey(t, u.rows[k], slots);
      }
    }
  }

  lemma StepOrigin(t: Table, op: Op, r: Row, slots: nat)
    requires WF(t, slots) && (op.Attempt? ==> op.o.slot < slots) && r in Step(t, op, slots).rows
    ensures Origin(t, op, r, slots)
  {
    match op {
      case SetCap(n) =>
        if MIN_LABELS <= n <= MAX_LABELS && n != t.cap {
          ShrinkOrigin(t.(cap := n), r, slots);
        }
      case Attempt(o) =>
        NeverCollapses(t, o.key, slots);
        RecordIs(t, o, slots);
        if o.key == OVERFLOW {
          RowKey(t, r, slots);
        } else {
          NamedOrigin(t, o, r, slots);
        }
    }
  }

  // ----- every run -----

  lemma EmptyWF(slots: nat)
    ensures WF(EMPTY, slots)
  {
  }

  lemma RunWF(ops: seq<Op>, slots: nat)
    requires GoodOps(ops, slots)
    ensures WF(Run(EMPTY, ops, slots), slots)
  {
    EmptyWF(slots);
    RunKeeps(EMPTY, ops, slots);
  }

  lemma SameBefore(ops: seq<Op>, op: Op, key: Key, slots: nat, j: nat)
    requires j <= |ops|
    ensures LiveAt(ops + [op], key, slots, j) <==> LiveAt(ops, key, slots, j)
  {
    assert (ops + [op])[..j] == ops[..j];
  }

  lemma AdmittedStays(ops: seq<Op>, op: Op, key: Key, slots: nat, i: nat)
    requires AdmittedBy(ops, key, slots, i) && LiveAt(ops + [op], key, slots, |ops| + 1)
    ensures AdmittedBy(ops + [op], key, slots, i)
  {
    SameBefore(ops, op, key, slots, i);
    forall j | i < j <= |ops| + 1
      ensures LiveAt(ops + [op], key, slots, j)
    {
      if j <= |ops| {
        SameBefore(ops, op, key, slots, j);
      }
    }
  }

  lemma AdmittedNow(ops: seq<Op>, op: Op, key: Key, slots: nat)
    requires op.Attempt? && op.o.key == key
    requires !LiveAt(ops, key, slots, |ops|) && LiveAt(ops + [op], key, slots, |ops| + 1)
    ensures AdmittedBy(ops + [op], key, slots, |ops|)
  {
    SameBefore(ops, op, key, slots, |ops|);
  }

  lemma ObservedMore(ops: seq<Op>, op: Op, key: Key, since: nat, c: Counter)
    requires since <= |ops|
    ensures Observed(ops + [op], key, since, c) == Observed(ops, key, since, c) + Share(op, key, c)
  {
    assert (ops + [op])[..|ops|] == ops;
  }

  lemma LiveHere(ops: seq<Op>, key: Key, slots: nat)
    ensures LiveAt(ops, key, slots, |ops|) <==> Live(Run(EMPTY, ops, slots), key)
  {
    assert ops[..|ops|] == ops;
  }

  /** Each counter of the row holds exactly what was observed of its label since operation `i`. */
  ghost predicate CountsSince(r: Row, ops: seq<Op>, i: nat) {
    forall c: Counter :: Read(r, c) == Observed(ops, r.key, i, c)
  }

  lemma CountsCarry(r: Row, ops: seq<Op>, op: Op, i: nat)
    requires CountsSince(r, ops, i) && i <= |ops| && (op.SetCap? || op.o.key != r.key)
    ensures CountsSince(r, ops + [op], i)
  {
    forall c: Counter
      ensures Read(r, c) == Observed(ops + [op], r.key, i, c)
    {
      ObservedMore(ops, op, r.key, i, c);
    }
  }

  lemma CountsAdd(r: Row, ops: seq<Op>, o: Observation, i: nat)
    requires CountsSince(r, ops, i) && i <= |ops| && o.key == r.key && o.slot < |r.hist|
    ensures CountsSince(Add(r, o), ops + [Attempt(o)], i)
  {
    forall c: Counter
      ensures Read(Add(r, o), c) == Observed(ops + [Attempt(o)], r.key, i, c)
    {
      AddCounts(r, o, c);
      ObservedMore(ops, Attempt(o), r.key, i, c);
    }
  }

  lemma CountsStart(ops: seq<Op>, o: Observation, slots: nat)
    requires o.slot < slots
    ensures CountsSince(Add(NewRow(o.key, slots), o), ops + [Attempt(o)], |ops|)
  {
    forall c: Counter
      ensures Read(Add(NewRow(o.key, slots), o), c) == Observed(ops + [Attempt(o)], o.key, |ops|, c)
    {
      NewCounts(o.key, o, slots, c);
      ObservedMore(ops, Attempt(o), o.key, |ops|, c);
    }
  }

  lemma RowCountsNext(ops: seq<Op>, op: Op, slots: nat, r: Row, was: Row, i: nat)
    requires AdmittedBy(ops, r.key, slots, i) && CountsSince(was, ops, i) && |was.hist| == slots
    requires LiveAt(ops + [op], r.key, slots, |ops| + 1) && (op.Attempt? ==> op.o.slot < slots)
    requires was.key == r.key && r == if op.Attempt? && op.o.key == r.key then Add(was, op.o) else was
    ensures AdmittedBy(ops + [op], r.key, slots, i) && CountsSince(r, ops + [op], i)
  {
    AdmittedStays(ops, op, r.key, slots, i);
    if op.Attempt? && op.o.key == r.key {
      CountsAdd(was, ops, op.o, i);
    } else {
      CountsCarry(was, ops, op, i);
    }
  }

  /** The row the new one comes from, if the label was live. */
  lemma RowBefore(t: Table, op: Op, r: Row, slots: nat) returns (was: Row)
    requires WF(t, slots) && Origin(t, op, r, slots) && !(op.Attempt? && op.o.key == r.key && !Live(t, r.key))
    ensures was in t.rows && was.key == r.key && |was.hist| == slots
    ensures r == if op.Attempt? && op.o.key == r.key then Add(was, op.o) else was
  {
    was := r;
    if op.Attempt? && op.o.key == r.key {
      var k :| 0 <= k < |t.rows| && t.rows[k].key == r.key && r == Add(t.rows[k], op.o);
      was := t.rows[k];
    }
    RowKey(t, was, slots);
  }

  /**
   Over every run from the empty registry: the row of a live label holds, in each counter, the sum
   over exactly the attempts against that label since the attempt that admitted it last.
   */
  lemma {:induction false} RowCounts(ops: seq<Op>, slots: nat, r: Row)
    requires GoodOps(ops, slots) && r in Run(EMPTY, ops, slots).rows
    ensures |r.hist| == slots
    ensures exists i: nat :: AdmittedBy(ops, r.key, slots, i) && CountsSince(r, ops, i)
    decreases |ops|
  {
    RunWF(ops, slots);
    RowKey(Run(EMPTY, ops, slots), r, slots);
    if ops != [] {
      var init, op := ops[..|ops| - 1], ops[|ops| - 1];
      assert ops == init + [op];
      var t := Run(EMPTY, init, slots);
      RunWF(init, slots);
      LiveHere(ops, r.key, slots);
      LiveHere(init, r.key, slots);
      StepOrigin(t, op, r, slots);
      if op.Attempt? && op.o.key == r.key && !Live(t, r.key) {
        AdmittedNow(init, op, r.key, slots);
        CountsStart(init, op.o, slots);
      } else {
        var was := RowBefore(t, op, r, slots);
        RowCounts(init, slots, was);
        var i: nat :| AdmittedBy(init, was.key, slots, i) && CountsSince(was, init, i);
        RowCountsNext(init, op, slots, r, was, i);
      }
    }
  }

  // ----- the bucket -----

  lemma {:induction false} ShrinkBucket(t: Table, slots: nat)
    ensures t.bucket.Some? ==>
              Shrink(t, slots).bucket.Some? && Shrink(t, slots).bucket.value.hist == t.bucket.value.hist
    ensures t.bucket.None? && Shrink(t, slots).bucket.Some? ==> Shrink(t, slots).bucket.value.hist == Zeros(slots)
    decreases |t.rows|
  {
    if t.rows != [] && t.Size() > t.cap {
      ShrinkBucket(EvictOldest(t, slots), slots);
    }
  }

  /** The histogram of the bucket, empty before there is one. */
  function BucketHist(t: Table, slots: nat): seq<nat> {
    match t.bucket case Some(b) => b.hist case None => Zeros(slots)
  }

  lemma StepBucket(t: Table, op: Op, slots: nat)
    requires WF(t, slots) && (op.Attempt? ==> op.o.slot < slots)
    ensures var u := Step(t, op, slots);
            && (t.bucket.Some? ==> u.bucket.Some?)
            && (op.Attempt? && op.o.key == OVERFLOW ==> u.bucket.Some?)
            && BucketHist(u, slots) ==
               if op.Attempt? && op.o.key == OVERFLOW then Bump(BucketHist(t, slots), op.o.slot)
               else BucketHist(t, slots)
  {
    match op {
      case SetCap(n) =>
        if MIN_LABELS <= n <= MAX_LABELS && n != t.cap {
          ShrinkBucket(t.(cap := n), slots);
        }
      case Attempt(o) =>
        NeverCollapses(t, o.key, slots);
        RecordIs(t, o, slots);
    }
  }

  /** A slot of the bucket counts only attempts recorded under the bucket's own label. */
  lemma {:induction false} BucketCounts(ops: seq<Op>, slots: nat, n: nat)
    requires GoodOps(ops, slots) && n < slots
    ensures |BucketHist(Run(EMPTY, ops, slots), slots)| == slots
    ensures BucketHist(Run(EMPTY, ops, slots), slots)[n] == Observed(ops, OVERFLOW, 0, Slot(n))
    decreases |ops|
  {
    if ops != [] {
      var init, op := ops[..|ops| - 1], ops[|ops| - 1];
      assert ops == init + [op];
      RunWF(init, slots);
      BucketCounts(init, slots, n);
      StepBucket(Run(EMPTY, init, slots), op, slots);
      ObservedMore(init, op, OVERFLOW, 0, Slot(n));
    }
  }

  // ----- the rest -----

  function RowsRead(rows: seq<Row>, c: Counter): nat {
    if rows == [] then 0 else Read(rows[0], c) + RowsRead(rows[1..], c)
  }

  /** The sum over all attempts, whatever their label. */
  function Everything(ops: seq<Op>, c: Counter): nat {
    if ops == [] then 0
    else Everything(ops[..|ops| - 1], c) + match ops[|ops| - 1] case Attempt(o) => Weight(o, c) case SetCap(_) => 0
  }

  function Part(t: Totals, c: Counter): nat {
    match c case Attempts => t.attempts case Failures => t.failures case Latency => t.latency case Slot(_) => 0
  }

  lemma {:induction false} EverythingIs(ops: seq<Op>, c: Counter)
    requires !c.Slot?
    ensures Everything(ops, c) == Part(Recorded(ops), c)
  {
    if ops != [] {
      EverythingIs(ops[..|ops| - 1], c);
    }
  }

  lemma {:induction false} RowsReadIs(rows: seq<Row>, c: Counter)
    requires !c.Slot?
    ensures RowsRead(rows, c) == Part(RowsTotals(rows), c)
  {
    if rows != [] {
      RowsReadIs(rows[1..], c);
    }
  }

  /** All rows and the bucket, if there is one. */
  function TableRead(t: Table, c: Counter): nat {
    RowsRead(t.rows, c) + if t.bucket.Some? then Read(t.bucket.value, c) else 0
  }

  lemma TableReadIs(t: Table, c: Counter)
    requires !c.Slot?
    ensures TableRead(t, c) == Part(TableTotals(t), c)
  {
    RowsReadIs(t.rows, c);
  }

  lemma PartPlus(a: Totals, b: Totals, c: Counter)
    ensures Part(a.Plus(b), c) == Part(a, c) + Part(b, c)
  {
  }

  lemma ReadsRecorded(t: Table, u: Table, recorded: Totals, c: Counter)
    requires !c.Slot? && TableTotals(u) == TableTotals(t).Plus(recorded)
    ensures TableRead(u, c) == TableRead(t, c) + Part(recorded, c)
  {
    TableReadIs(t, c);
    TableReadIs(u, c);
    PartPlus(TableTotals(t), recorded, c);
  }

  /** No attempt, failure or nanosecond is lost: what no live row holds of them is in the bucket. */
  lemma BucketHoldsRest(t: Table, ops: seq<Op>, slots: nat, c: Counter)
    requires WF(t, slots) && GoodOps(ops, slots) && !c.Slot?
    ensures TableRead(Run(t, ops, slots), c) == TableRead(t, c) + Everything(ops, c)
  {
    RunConserves(t, ops, slots);
    ReadsRecorded(t, Run(t, ops, slots), Recorded(ops), c);
    EverythingIs(ops, c);
  }

  // ----- labels -----

  /** Endpoints share a label exactly when their escaped names are equal. */
  lemma LabelKeysDiffer(escape: string -> string, a: string, b: string)
    ensures R.LabelKey(escape, a) == R.LabelKey(escape, b) <==> escape(a) == escape(b)
  {
    var x, y := R.LabelKey(escape, a), R.LabelKey(escape, b);
    var n := |"endpoint=\""|;
    assert x[n..|x| - 1] == escape(a) && y[n..|y| - 1] == escape(b);
  }
}
