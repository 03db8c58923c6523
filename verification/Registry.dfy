/**
 The attempt registry of metrics.go: four maps, a window of labels in admission
 order with their clocks and an index, all changed in place under one lock.
 Every operation is proved to act like the table of AttemptTable.dfy.
 */
module Registry {
  import opened Text
  import opened AttemptTable

  /** The first boundary at or above the duration, or the slot behind the last one. */
  function SlotOf(bounds: seq<real>, secs: real): (k: nat)
    ensures k <= |bounds|
    ensures k < |bounds| ==> secs <= bounds[k]
    ensures forall i :: 0 <= i < k ==> bounds[i] < secs
  {
    if bounds == [] then 0
    else if secs <= bounds[0] then 0
    else 1 + SlotOf(bounds[1..], secs)
  }

  /** One counter map with the victim's entry folded into the bucket's. */
  function Fold(m: map<Key, nat>, victim: Key): map<Key, nat> {
    if victim in m then m[OVERFLOW := Get(m, OVERFLOW) + m[victim]] - {victim} else m
  }

  function Plus(m: map<Key, nat>, key: Key, n: nat): map<Key, nat> { m[key := Get(m, key) + n] }

  predicate Distinct(labels: seq<Key>) {
    forall i, j :: 0 <= i < j < |labels| ==> labels[i] != labels[j]
  }

  predicate Increasing(clocks: seq<nat>) {
    forall i, j :: 0 <= i < j < |clocks| ==> clocks[i] < clocks[j]
  }

  function Without<T>(s: seq<T>, i: nat): (r: seq<T>)
    requires i < |s|
    ensures |r| == |s| - 1
    ensures forall m :: 0 <= m < |r| ==> r[m] == if m < i then s[m] else s[m + 1]
  {
    s[..i] + s[i + 1..]
  }

  lemma WithoutLabel(labels: seq<Key>, i: nat)
    requires Distinct(labels) && i < |labels|
    ensures Distinct(Without(labels, i))
    ensures forall k :: k in Without(labels, i) <==> k in labels && k != labels[i]
  {
    forall k | k in labels && k != labels[i]
      ensures k in Without(labels, i)
    {
      var m :| 0 <= m < |labels| && labels[m] == k;
      assert Without(labels, i)[if m < i then m else m - 1] == k;
    }
  }

  /** singleLabelKey; `escape` stands for labelEscape. */
  function LabelKey(escape: string -> string, endpoint: string): Key { "endpoint=\"" + escape(endpoint) + "\"" }

  // ----- the rows that the maps stand for -----

  /** The four maps at one moment. */
  datatype Counters = Counters(attempts: map<Key, nat>, failures: map<Key, nat>, latency: map<Key, nat>,
                               hist: map<Key, seq<nat>>)

  function HistIn(h: map<Key, seq<nat>>, k: Key, slots: nat): seq<nat> { if k in h then h[k] else Zeros(slots) }

  function RowIn(c: Counters, k: Key, slots: nat): Row {
    Row(k, Get(c.attempts, k), Get(c.failures, k), Get(c.latency, k), HistIn(c.hist, k, slots))
  }

  function RowsIn(c: Counters, labels: seq<Key>, slots: nat): (rows: seq<Row>)
    ensures |rows| == |labels|
    ensures forall i :: 0 <= i < |rows| ==> rows[i] == RowIn(c, labels[i], slots)
  {
    seq(|labels|, i requires 0 <= i < |labels| => RowIn(c, labels[i], slots))
  }

  function BucketIn(c: Counters, slots: nat): Option<Row> {
    if OVERFLOW in c.attempts then Some(RowIn(c, OVERFLOW, slots)) else None
  }

  function TableIn(c: Counters, labels: seq<Key>, cap: nat, slots: nat): Table {
    Table(RowsIn(c, labels, slots), BucketIn(c, slots), cap)
  }

  /** The maps hold nothing for labels that are not live. */
  ghost predicate Consistent(c: Counters, labels: seq<Key>, slots: nat) {
    && OVERFLOW !in labels
    && (forall k :: k != OVERFLOW ==> (k in c.attempts <==> k in labels))
    && (forall k :: k in c.failures ==> k in c.attempts)
    && (forall k :: k in c.latency ==> k in c.attempts)
    && (forall k :: k in c.hist ==> k in c.attempts && |c.hist[k]| == slots)
  }

  lemma {:induction false} IndexOfLabel(c: Counters, labels: seq<Key>, slots: nat, i: nat)
    requires Distinct(labels) && i < |labels|
    ensures IndexOf(RowsIn(c, labels, slots), labels[i]) == Some(i)
  {
    var rows := RowsIn(c, labels, slots);
    var k := IndexOf(rows, labels[i]);
    assert rows[i].key == labels[i];
    assert k.Some? && rows[k.value].key == labels[k.value];
  }

  /** Admitting a label that is not live adds an empty row. */
  lemma AdmitRow(c: Counters, labels: seq<Key>, cap: nat, slots: nat, key: Key)
    requires Consistent(c, labels, slots) && key !in c.attempts && key != OVERFLOW
    ensures var d := c.(attempts := c.attempts[key := 0]);
            && Consistent(d, labels + [key], slots)
            && TableIn(d, labels + [key], cap, slots) ==
               (var t := TableIn(c, labels, cap, slots); t.(rows := t.rows + [NewRow(key, slots)]))
  {
    var d := c.(attempts := c.attempts[key := 0]);
    assert RowsIn(d, labels + [key], slots) == RowsIn(c, labels, slots) + [NewRow(key, slots)];
  }

  /** Admitting the bucket. */
  lemma AdmitBucket(c: Counters, labels: seq<Key>, cap: nat, slots: nat)
    requires Consistent(c, labels, slots) && OVERFLOW !in c.attempts
    ensures var d := c.(attempts := c.attempts[OVERFLOW := 0]);
            && Consistent(d, labels, slots)
            && TableIn(d, labels, cap, slots) ==
               TableIn(c, labels, cap, slots).(bucket := Some(NewRow(OVERFLOW, slots)))
  {
    var d := c.(attempts := c.attempts[OVERFLOW := 0]);
    assert RowsIn(d, labels, slots) == RowsIn(c, labels, slots);
  }

  function FoldAll(c: Counters, victim: Key): Counters
    requires victim != OVERFLOW
  {
    Counters(Fold(c.attempts, victim), Fold(c.failures, victim), Fold(c.latency, victim), c.hist - {victim})
  }

  lemma FoldOther(c: Counters, victim: Key, k: Key, slots: nat)
    requires k != victim && k != OVERFLOW && victim != OVERFLOW
    ensures RowIn(FoldAll(c, victim), k, slots) == RowIn(c, k, slots)
  {
  }

  lemma FoldBucket(c: Counters, victim: Key, slots: nat)
    requires victim != OVERFLOW
    ensures RowIn(FoldAll(c, victim), OVERFLOW, slots) == Merge(RowIn(c, OVERFLOW, slots), RowIn(c, victim, slots))
  {
  }

  lemma FoldConsistent(c: Counters, labels: seq<Key>, slots: nat, i: nat)
    requires Consistent(c, labels, slots) && Distinct(labels) && i < |labels| && OVERFLOW in c.attempts
    ensures labels[i] != OVERFLOW && labels[i] in c.attempts
    ensures Consistent(FoldAll(c, labels[i]), Without(labels, i), slots)
  {
    assert labels[i] in labels;
    WithoutLabel(labels, i);
  }

  lemma FoldRows(c: Counters, labels: seq<Key>, slots: nat, i: nat)
    requires Distinct(labels) && i < |labels| && OVERFLOW !in labels
    ensures labels[i] != OVERFLOW
    ensures RowsIn(FoldAll(c, labels[i]), Without(labels, i), slots) == Without(RowsIn(c, labels, slots), i)
  {
    assert labels[i] in labels;
    var rest := Without(labels, i);
    forall m | 0 <= m < |rest|
      ensures RowIn(FoldAll(c, labels[i]), rest[m], slots) == RowIn(c, rest[m], slots)
    {
      assert (if m < i then labels[m] else labels[m + 1]) in labels;
      FoldOther(c, labels[i], rest[m], slots);
    }
  }

  /** Folding the maps and dropping the label is evicting the row. */
  lemma FoldEvicts(c: Counters, labels: seq<Key>, cap: nat, slots: nat, i: nat)
    requires Consistent(c, labels, slots) && Distinct(labels) && i < |labels| && OVERFLOW in c.attempts
    ensures labels[i] != OVERFLOW
    ensures Consistent(FoldAll(c, labels[i]), Without(labels, i), slots)
    ensures TableIn(FoldAll(c, labels[i]), Without(labels, i), cap, slots) ==
            EvictAt(TableIn(c, labels, cap, slots), i, slots)
  {
    FoldConsistent(c, labels, slots, i);
    FoldRows(c, labels, slots, i);
    FoldBucket(c, labels[i], slots);
  }

  lemma FoldNothing(c: Counters, victim: Key)
    requires victim != OVERFLOW && victim !in c.attempts && victim !in c.failures && victim !in c.latency
    requires victim !in c.hist
    ensures FoldAll(c, victim) == c
  {
    assert c.hist - {victim} == c.hist;
  }

  /** The four maps after one observation of a live label. */
  function CountAll(c: Counters, o: Observation, slots: nat): Counters {
    Counters(Plus(c.attempts, o.key, 1),
             if o.failed then Plus(c.failures, o.key, 1) else c.failures,
             Plus(c.latency, o.key, o.ns),
             c.hist[o.key := Bump(HistIn(c.hist, o.key, slots), o.slot)])
  }

  lemma CountRow(c: Counters, o: Observation, k: Key, slots: nat)
    ensures RowIn(CountAll(c, o, slots), k, slots) ==
            if k == o.key then Add(RowIn(c, k, slots), o) else RowIn(c, k, slots)
  {
  }

  lemma CountRows(c: Counters, labels: seq<Key>, slots: nat, o: Observation)
    requires Distinct(labels)
    ensures RowsIn(CountAll(c, o, slots), labels, slots) ==
            match IndexOf(RowsIn(c, labels, slots), o.key)
            case None => RowsIn(c, labels, slots)
            case Some(i) => RowsIn(c, labels, slots)[i := Add(RowsIn(c, labels, slots)[i], o)]
  {
    forall i | 0 <= i < |labels|
      ensures RowIn(CountAll(c, o, slots), labels[i], slots) ==
              if labels[i] == o.key then Add(RowIn(c, labels[i], slots), o) else RowIn(c, labels[i], slots)
    {
      CountRow(c, o, labels[i], slots);
    }
    var rows := RowsIn(c, labels, slots);
    match IndexOf(rows, o.key) {
      case None => assert forall i :: 0 <= i < |rows| ==> rows[i].key != o.key;
      case Some(i) =>
    }
  }

  lemma CountConsistent(c: Counters, labels: seq<Key>, slots: nat, o: Observation)
    requires Consistent(c, labels, slots) && o.key in c.attempts
    ensures Consistent(CountAll(c, o, slots), labels, slots)
  {
  }

  /** Counting in the maps is counting in the table. */
  lemma CountIsCount(c: Counters, labels: seq<Key>, cap: nat, slots: nat, o: Observation)
    requires Consistent(c, labels, slots) && Distinct(labels) && o.key in c.attempts
    ensures Consistent(CountAll(c, o, slots), labels, slots)
    ensures TableIn(CountAll(c, o, slots), labels, cap, slots) == Count(TableIn(c, labels, cap, slots), o)
  {
    CountConsistent(c, labels, slots, o);
    CountRows(c, labels, slots, o);
    CountRow(c, o, OVERFLOW, slots);
  }

  /** An empty histogram for a live label changes no row. */
  lemma EmptyHist(c: Counters, labels: seq<Key>, cap: nat, slots: nat, key: Key)
    requires Consistent(c, labels, slots) && key in c.attempts && key !in c.hist
    ensures var d := c.(hist := c.hist[key := Zeros(slots)]);
            Consistent(d, labels, slots) && TableIn(d, labels, cap, slots) == TableIn(c, labels, cap, slots)
  {
    var d := c.(hist := c.hist[key := Zeros(slots)]);
    assert RowsIn(d, labels, slots) == RowsIn(c, labels, slots);
  }

  function WithHist(h: map<Key, seq<nat>>, key: Key, bucket: bool, slots: nat): (r: map<Key, seq<nat>>)
    ensures key in r
  {
    var own := if key in h then h else h[key := Zeros(slots)];
    if OVERFLOW !in own && bucket then own[OVERFLOW := Zeros(slots)] else own
  }

  lemma WithHistSame(c: Counters, labels: seq<Key>, cap: nat, slots: nat, key: Key)
    requires Consistent(c, labels, slots) && key in c.attempts
    ensures var d := c.(hist := WithHist(c.hist, key, OVERFLOW in c.attempts, slots));
            Consistent(d, labels, slots) && TableIn(d, labels, cap, slots) == TableIn(c, labels, cap, slots)
  {
    if key !in c.hist {
      EmptyHist(c, labels, cap, slots, key);
    }
    var own := c.(hist := if key in c.hist then c.hist else c.hist[key := Zeros(slots)]);
    if OVERFLOW in c.attempts && OVERFLOW !in own.hist {
      EmptyHist(own, labels, cap, slots, OVERFLOW);
    }
  }

  /** The four maps as Attempt leaves them. */
  function CountedIn(c: Counters, o: Observation, slots: nat): Counters {
    var h := WithHist(c.hist, o.key, OVERFLOW in c.attempts, slots);
    Counters(Plus(c.attempts, o.key, 1),
             if o.failed then Plus(c.failures, o.key, 1) else c.failures,
             Plus(c.latency, o.key, o.ns),
             h[o.key := Bump(h[o.key], o.slot)])
  }

  lemma CountedMaps(c: Counters, labels: seq<Key>, cap: nat, slots: nat, o: Observation)
    requires Consistent(c, labels, slots) && Distinct(labels) && o.key in c.attempts && o.slot < slots
    ensures Consistent(CountedIn(c, o, slots), labels, slots)
    ensures TableIn(CountedIn(c, o, slots), labels, cap, slots) == Count(TableIn(c, labels, cap, slots), o)
  {
    var d := c.(hist := WithHist(c.hist, o.key, OVERFLOW in c.attempts, slots));
    WithHistSame(c, labels, cap, slots, o.key);
    CountIsCount(d, labels, cap, slots, o);
    assert CountAll(d, o, slots) == CountedIn(c, o, slots);
  }

  function LabelSet(labels: seq<Key>): set<Key> { set k | k in labels }

  lemma {:induction false} DistinctCount(labels: seq<Key>)
    requires Distinct(labels)
    ensures |LabelSet(labels)| == |labels|
  {
    if labels != [] {
      var n := |labels| - 1;
      DistinctCount(labels[..n]);
      assert LabelSet(labels) == LabelSet(labels[..n]) + {labels[n]};
    }
  }

  /** The size of the map is the size of the table. */
  lemma SizeIs(c: Counters, labels: seq<Key>, cap: nat, slots: nat)
    requires Consistent(c, labels, slots) && Distinct(labels)
    ensures |c.attempts| == TableIn(c, labels, cap, slots).Size()
  {
    DistinctCount(labels);
    assert c.attempts.Keys == LabelSet(labels) + if OVERFLOW in c.attempts then {OVERFLOW} else {};
    assert |c.attempts| == |c.attempts.Keys|;
  }

  ghost predicate Indexed(labels: seq<Key>, index: map<Key, nat>) {
    && (forall k :: k in index <==> k in labels)
    && (forall i :: 0 <= i < |labels| ==> index[labels[i]] == i)
  }

  ghost predicate Window(labels: seq<Key>, admitted: seq<nat>, index: map<Key, nat>, clock: nat) {
    && Distinct(labels) && Indexed(labels, index)
    && |admitted| == |labels| && Increasing(admitted)
    && (forall i :: 0 <= i < |admitted| ==> admitted[i] <= clock)
  }

  lemma IndexBack(labels: seq<Key>, index: map<Key, nat>, k: Key)
    requires Indexed(labels, index) && k in labels
    ensures k in index && index[k] < |labels| && labels[index[k]] == k
  {
    var i :| 0 <= i < |labels| && labels[i] == k;
  }

  lemma WindowMore(labels: seq<Key>, admitted: seq<nat>, index: map<Key, nat>, clock: nat, key: Key)
    requires Window(labels, admitted, index, clock) && key !in labels
    ensures Window(labels + [key], admitted + [clock + 1], index[key := |labels|], clock + 1)
  {
  }

  /** A label is live exactly when the table tracks it. */
  lemma TrackedIs(c: Counters, labels: seq<Key>, cap: nat, slots: nat, key: Key)
    requires Consistent(c, labels, slots) && Distinct(labels)
    ensures key in c.attempts <==> Tracked(TableIn(c, labels, cap, slots), key)
  {
    if key != OVERFLOW && key in labels {
      var i :| 0 <= i < |labels| && labels[i] == key;
      IndexOfLabel(c, labels, slots, i);
    }
    if key != OVERFLOW && Tracked(TableIn(c, labels, cap, slots), key) {
      var k := IndexOf(RowsIn(c, labels, slots), key).value;
      assert labels[k] in labels;
    }
  }

  lemma EvictFirst(t: Table, slots: nat)
    ensures t.rows != [] ==> EvictAt(t, 0, slots) == EvictOldest(t, slots)
  {
    if t.rows != [] {
      assert t.rows[..0] + t.rows[1..] == t.rows[1..];
    }
  }

  lemma BucketThere(t: Table, slots: nat)
    ensures t.bucket.Some? ==> t.(bucket := Some(BucketOf(t, slots))) == t
  {
  }

  class Metrics {
    const bounds: seq<real>
    var attempts: map<Key, nat>
    var failures: map<Key, nat>
    var latency: map<Key, nat>
    var hist: map<Key, seq<nat>>
    var labels: seq<Key>
    var admitted: seq<nat>
    var index: map<Key, nat>
    var clock: nat
    var cap: nat
    var evicted: nat
    var overflowed: nat

    /** Labels, clocks and index are three views of one window; clocks strictly increase. */
    ghost predicate Aligned()
      reads this
    {
      Window(labels, admitted, index, clock)
    }

    function Slots(): nat { |bounds| + 1 }

    ghost function Maps(): Counters
      reads this
    {
      Counters(attempts, failures, latency, hist)
    }

    ghost predicate Valid()
      reads this
    {
      Aligned() && Consistent(Maps(), labels, Slots())
    }

    /** The table this registry stands for. */
    ghost function Abs(): Table
      reads this
    {
      TableIn(Maps(), labels, cap, Slots())
    }

    constructor (bounds: seq<real>)
      ensures Valid() && Abs() == EMPTY && this.bounds == bounds
    {
      this.bounds := bounds;
      attempts, failures, latency, hist := map[], map[], map[], map[];
      labels, admitted, index, clock := [], [], map[], 0;
      cap := DEFAULT_LABELS;
      evicted, overflowed := 0, 0;
    }

    /** admitLocked */
    method Admit(key: Key)
      requires Valid()
      modifies this
      ensures Valid() && cap == old(cap) && key in attempts
      ensures evicted == old(evicted) && overflowed == old(overflowed)
      ensures key == OVERFLOW ==>
                labels == old(labels) && Abs() == old(Abs()).(bucket := Some(BucketOf(old(Abs()), Slots())))
      ensures key != OVERFLOW && key in old(attempts) ==> Abs() == old(Abs())
      ensures key != OVERFLOW && key !in old(attempts) ==>
                Abs() == old(Abs()).(rows := old(Abs()).rows + [NewRow(key, Slots())])
    {
      if key in attempts {
        BucketThere(Abs(), Slots());
        return;
      }
      if key == OVERFLOW {
        AdmitBucket(Maps(), labels, cap, Slots());
        attempts := attempts[key := 0];
        return;
      }
      AdmitLabel(key);
    }

    /** The part of admitLocked for a new label: the next clock, and the last place of the window. */
    method AdmitLabel(key: Key)
      requires Valid() && key != OVERFLOW && key !in attempts
      modifies this
      ensures Valid() && cap == old(cap) && key in attempts
      ensures evicted == old(evicted) && overflowed == old(overflowed)
      ensures Abs() == old(Abs()).(rows := old(Abs()).rows + [NewRow(key, Slots())])
    {
      assert key !in labels;
      AdmitRow(Maps(), labels, cap, Slots(), key);
      WindowMore(labels, admitted, index, clock, key);
      clock := clock + 1;
      admitted := admitted + [clock];
      labels := labels + [key];
      index := index[key := |labels| - 1];
      attempts := attempts[key := 0];
      assert Maps() == old(Maps()).(attempts := old(attempts)[key := 0]);
    }

    /** compactRingLocked */
    method CompactRing(i: nat)
      requires Aligned() && i < |labels|
      modifies `labels, `admitted, `index
      ensures Aligned()
      ensures labels == Without(old(labels), i) && admitted == Without(old(admitted), i)
    {
      WithoutLabel(labels, i);
      var ep := labels[i];
      index := index - {ep};
      labels := labels[..i] + labels[i + 1..];
      admitted := admitted[..i] + admitted[i + 1..];
      Renumber(i);
    }

    /** The loop that renumbers the index behind a dropped entry. */
    method Renumber(i: nat)
      requires i <= |labels| && Distinct(labels)
      requires forall k :: k in index <==> k in labels
      requires forall m :: 0 <= m < |labels| ==> index[labels[m]] == if m < i then m else m + 1
      modifies `index
      ensures forall k :: k in index <==> k in labels
      ensures forall m :: 0 <= m < |labels| ==> index[labels[m]] == m
    {
      for j := i to |labels|
        invariant forall k :: k in index <==> k in labels
        invariant forall m :: 0 <= m < |labels| ==> index[labels[m]] == if m < j then m else m + 1
      {
        index := index[labels[j] := j];
      }
    }

    /** oldestAdmittedLocked: the first label that is live; stale entries in front of it are dropped. */
    method OldestAdmitted() returns (victim: Option<Key>)
      requires Aligned()
      modifies `labels, `admitted, `index
      ensures Aligned()
      ensures victim.Some? ==> victim.value in labels && victim.value in attempts && victim.value != OVERFLOW
      ensures victim.None? ==> forall k :: k in labels ==> k == OVERFLOW
      ensures old(Valid()) ==>
                && labels == old(labels) && admitted == old(admitted) && index == old(index)
                && Valid() && Abs() == old(Abs())
                && victim == (if labels == [] then None else Some(labels[0]))
      decreases |labels|
    {
      for i := 0 to |labels|
        invariant forall k :: 0 <= k < i ==> labels[k] == OVERFLOW
      {
        var ep := labels[i];
        if ep == OVERFLOW {
          continue;
        }
        if ep !in attempts {
          CompactRing(i);
          victim := OldestAdmitted();
          return;
        }
        return Some(ep);
      }
      return None;
    }

    /** The victim's counters go to the bucket, its histogram is dropped. */
    method FoldCounters(victim: Key)
      requires victim != OVERFLOW
      modifies `attempts, `failures, `latency, `hist
      ensures Maps() == FoldAll(old(Maps()), victim)
    {
      attempts := Fold(attempts, victim);
      failures := Fold(failures, victim);
      latency := Fold(latency, victim);
      hist := hist - {victim};
    }

    /** The victim's series leave the maps and the window. */
    method EvictLabel(victim: Key, i: nat)
      requires Valid() && i < |labels| && labels[i] == victim && OVERFLOW in attempts
      modifies `attempts, `failures, `latency, `hist, `labels, `admitted, `index
      ensures Valid() && labels == Without(old(labels), i)
      ensures Abs() == EvictAt(old(Abs()), i, Slots())
    {
      FoldEvicts(Maps(), labels, cap, Slots(), i);
      FoldCounters(victim);
      CompactRing(i);
    }

    /** rollUpToOverflowLocked */
    method RollUpToOverflow(victim: Key)
      requires Valid()
      modifies this
      ensures Valid() && cap == old(cap) && evicted == old(evicted) && overflowed == old(overflowed)
      ensures victim == OVERFLOW ==> Abs() == old(Abs())
      ensures victim != OVERFLOW && victim !in old(labels) ==>
                Abs() == old(Abs()).(bucket := Some(BucketOf(old(Abs()), Slots())))
      ensures victim in old(labels) ==>
                && old(index)[victim] < |old(labels)|
                && labels == Without(old(labels), old(index)[victim])
                && Abs() == EvictAt(old(Abs()), old(index)[victim], Slots())
    {
      if victim == OVERFLOW {
        return;
      }
      Admit(OVERFLOW);
      if victim in index {
        IndexBack(labels, index, victim);
        EvictLabel(victim, index[victim]);
      } else {
        FoldNothing(Maps(), victim);
        FoldCounters(victim);
      }
    }

    /** The oldest label is rolled up and counted; `done` when there is none. */
    method EvictOne() returns (done: bool)
      requires Valid()
      modifies this
      ensures Valid() && cap == old(cap) && overflowed == old(overflowed)
      ensures done == (old(labels) == [])
      ensures labels == if done then [] else old(labels)[1..]
      ensures Abs() == if done then old(Abs()) else EvictOldest(old(Abs()), Slots())
      ensures evicted == old(evicted) + (if done then 0 else 1)
    {
      var victim := OldestAdmitted();
      if victim.None? {
        return true;
      }
      assert index[victim.value] == 0;
      RollUpToOverflow(victim.value);
      evicted := evicted + 1;
      EvictFirst(old(Abs()), Slots());
      return false;
    }

    /** The window is full: the oldest label makes room, or the bucket stands in when there is none. */
    method RecycleSlot(key: Key) returns (stored: Key)
      requires Valid() && key !in labels && key != OVERFLOW
      modifies this
      ensures Valid() && cap == old(cap) && stored in attempts
      ensures stored == if old(labels) == [] then OVERFLOW else key
      ensures Abs() == Recycle(old(Abs()), key, Slots())
      ensures evicted == old(evicted) + if old(labels) != [] then 1 else 0
      ensures overflowed == old(overflowed) + if old(labels) == [] then 1 else 0
    {
      var none := EvictOne();
      if none {
        overflowed := overflowed + 1;
        Admit(OVERFLOW);
        return OVERFLOW;
      }
      Admit(key);
      return key;
    }

    /** boundedAttemptKeyLocked */
    method BoundedAttemptKey(key: Key) returns (stored: Key)
      requires Valid()
      modifies this
      ensures Valid() && cap == old(cap) && stored in attempts
      ensures stored == StoredKey(old(Abs()), key)
      ensures Abs() == AttemptTable.Admit(old(Abs()), key, Slots())
      ensures evicted == old(evicted) + if Full(old(Abs()), key) && old(labels) != [] then 1 else 0
      ensures overflowed == old(overflowed) + if stored != key then 1 else 0
    {
      TrackedIs(Maps(), labels, cap, Slots(), key);
      SizeIs(Maps(), labels, cap, Slots());
      if key in attempts {
        BucketThere(Abs(), Slots());
        return key;
      }
      if |attempts| < cap - 1 {
        Admit(key);
        return key;
      }
      if key == OVERFLOW {
        Admit(key);
        return key;
      }
      stored := RecycleSlot(key);
    }

    /** Histograms are created with the first count, the bucket's with the bucket. */
    method EnsureHist(key: Key)
      modifies `hist
      ensures hist == WithHist(old(hist), key, OVERFLOW in attempts, Slots())
    {
      if key !in hist {
        hist := hist[key := Zeros(Slots())];
      }
      if OVERFLOW !in hist && OVERFLOW in attempts {
        hist := hist[OVERFLOW := Zeros(Slots())];
      }
    }

    method CountScalars(key: Key, ns: nat, failed: bool)
      requires key in attempts
      modifies `attempts, `failures, `latency
      ensures attempts == Plus(old(attempts), key, 1) && (OVERFLOW in attempts <==> OVERFLOW in old(attempts))
      ensures failures == if failed then Plus(old(failures), key, 1) else old(failures)
      ensures latency == Plus(old(latency), key, ns)
    {
      attempts := Plus(attempts, key, 1);
      if failed {
        failures := Plus(failures, key, 1);
      }
      latency := Plus(latency, key, ns);
    }

    /** The counting half of Attempt: the four maps under the stored key. */
    method CountAttempt(key: Key, ns: nat, failed: bool, slot: nat)
      requires Valid() && key in attempts && slot < Slots()
      modifies `attempts, `failures, `latency, `hist
      ensures Valid()
      ensures Abs() == Count(old(Abs()), Observation(key, ns, failed, slot))
    {
      ghost var c, o := Maps(), Observation(key, ns, failed, slot);
      CountedMaps(c, labels, cap, Slots(), o);
      CountMaps(key, ns, failed, slot);
    }

    method CountMaps(key: Key, ns: nat, failed: bool, slot: nat)
      requires key in attempts
      modifies `attempts, `failures, `latency, `hist
      ensures Maps() == CountedIn(old(Maps()), Observation(key, ns, failed, slot), Slots())
    {
      CountScalars(key, ns, failed);
      EnsureHist(key);
      hist := hist[key := Bump(hist[key], slot)];
    }

    /** The loop that picks the histogram slot. */
    method PickSlot(secs: real) returns (slot: nat)
      ensures slot == SlotOf(bounds, secs)
    {
      slot := |bounds|;
      for i := 0 to |bounds|
        invariant slot == |bounds| && SlotOf(bounds, secs) == i + SlotOf(bounds[i..], secs)
      {
        if secs <= bounds[i] {
          return i;
        }
      }
    }

    /** Attempt: `d` is the duration in nanoseconds. */
    method Attempt(escape: string -> string, endpoint: string, d: int, ok: bool)
      requires Valid()
      modifies this
      ensures Valid()
      ensures endpoint == "" ==> Abs() == old(Abs())
      ensures endpoint != "" ==>
                Abs() == Record(old(Abs()),
                                Observation(LabelKey(escape, endpoint), if d < 0 then 0 else d, !ok,
                                            SlotOf(bounds, d as real / 1000000000.0)),
                                Slots())
    {
      if endpoint == "" {
        return;
      }
      var ns: nat := if d < 0 then 0 else d;
      var slot := PickSlot(d as real / 1000000000.0);
      var key := BoundedAttemptKey(LabelKey(escape, endpoint));
      CountAttempt(key, ns, !ok, slot);
    }

    /** syncRingLocked: entries whose label is not live are dropped; there are none. */
    method SyncRing()
      requires Aligned()
      modifies `labels, `admitted, `index
      ensures Aligned() && forall k :: k in labels ==> k in attempts && k != OVERFLOW
      ensures old(Valid()) ==> labels == old(labels) && admitted == old(admitted) && index == old(index)
    {
      var i := 0;
      while i < |labels|
        invariant i <= |labels| && Aligned()
        invariant forall k :: 0 <= k < i ==> labels[k] in attempts && labels[k] != OVERFLOW
        invariant old(Valid()) ==> labels == old(labels) && admitted == old(admitted) && index == old(index)
        decreases |labels| - i
      {
        if labels[i] in attempts && labels[i] != OVERFLOW {
          i := i + 1;
          continue;
        }
        CompactRing(i);
      }
    }

    /** SetLabelCap; the loop ends because every turn takes one named label, whatever the map's size does. */
    method SetLabelCap(n: int)
      requires Valid()
      modifies this
      ensures Valid()
      ensures Abs() == Resize(old(Abs()), n, Slots())
      ensures evicted == old(evicted) + (|old(labels)| - |labels|)
    {
      if n < MIN_LABELS || n > MAX_LABELS {
        return;
      }
      if n == cap {
        return;
      }
      cap := n;
      ShrinkToCap();
      SyncRing();
    }

    /** The loop of SetLabelCap, by the number of named labels. */
    method ShrinkToCap()
      requires Valid()
      modifies this
      ensures Valid() && cap == old(cap)
      ensures Abs() == Shrink(old(Abs()), Slots())
      ensures evicted == old(evicted) + (|old(labels)| - |labels|)
    {
      ghost var start := Abs();
      SizeIs(Maps(), labels, cap, Slots());
      while |attempts| > cap
        invariant Valid() && cap == old(cap)
        invariant Shrink(Abs(), Slots()) == Shrink(start, Slots())
        invariant |attempts| == Abs().Size()
        invariant evicted == old(evicted) + (|old(labels)| - |labels|)
        decreases |labels|
      {
        var done := EvictOne();
        if done {
          break;
        }
        SizeIs(Maps(), labels, cap, Slots());
      }
    }
  }
}
