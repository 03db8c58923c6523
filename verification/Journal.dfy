/**
 The dashboard journal (metrics_journal.go) as operations on its lines: a line is
 one completed tick, or unreadable.  Replaying keeps the window, the last line of
 a minute wins; pruning rewrites the journal to what a replay keeps.
 */
module Journal {
  import opened Text
  import opened TickLog

  datatype JournalLine = JournalLine(start: int, tick: Tick)

  /** A line that does not parse is None. */
  type Lines = seq<Option<JournalLine>>

  // ----- minutes and slots -----

  /** Go's integer division and remainder: both truncate toward zero. */
  function TruncDiv(a: int, b: int): int
    requires b > 0
  {
    if a >= 0 then a / b else -((-a) / b)
  }

  function TruncMod(a: int, b: int): int
    requires b > 0
  {
    a - b * TruncDiv(a, b)
  }

  /** The minute of a time in Unix seconds. */
  function JournalMinute(seconds: int): int { TruncDiv(seconds, TICK_SECONDS) }

  function JournalSlot(minute: int): int { TruncMod(minute, RING_LEN) }

  function MinuteOf(l: JournalLine): int { JournalMinute(l.start) }

  lemma MinuteRoundTrip(minute: int)
    ensures JournalMinute(minute * TICK_SECONDS) == minute
  {
  }

  predicate InWindow(minute: int, now: int) { now - RING_LEN < minute <= now }

  /** Two different minutes of the window never share a slot. */
  lemma SlotsDistinct(now: int, m: int, n: int)
    requires InWindow(m, now) && InWindow(n, now) && m >= 0 && n >= 0 && m != n
    ensures 0 <= JournalSlot(m) < RING_LEN && JournalSlot(m) != JournalSlot(n)
  {
    var q, r := m / RING_LEN, n / RING_LEN;
    assert m == RING_LEN * q + JournalSlot(m) && n == RING_LEN * r + JournalSlot(n);
  }

  /** The slot of the minute i back from now is i slots back, around the ring. */
  lemma SlotWalksBack(now: int, i: nat)
    requires i < RING_LEN && now >= i
    ensures JournalSlot(now - i) == (JournalSlot(now) - i + RING_LEN) % RING_LEN
  {
    var q, r := now / RING_LEN, (now - i) / RING_LEN;
    assert now == RING_LEN * q + JournalSlot(now) && now - i == RING_LEN * r + JournalSlot(now - i);
  }

  // ----- replay -----

  /** The last readable line of a minute. */
  function LastLine(lines: Lines, minute: int): Option<JournalLine> {
    if lines == [] then None
    else
      var last := lines[|lines| - 1];
      if last.Some? && MinuteOf(last.value) == minute then last else LastLine(lines[..|lines| - 1], minute)
  }

  function Replay(lines: Lines, now: int): map<int, JournalLine> {
    if lines == [] then map[]
    else
      var before := Replay(lines[..|lines| - 1], now);
      var last := lines[|lines| - 1];
      if last.None? || !InWindow(MinuteOf(last.value), now) then before
      else before[MinuteOf(last.value) := last.value]
  }

  function Lookup(m: map<int, JournalLine>, minute: int): Option<JournalLine> {
    if minute in m then Some(m[minute]) else None
  }

  method ReplayDashboardJournal(lines: Lines, now: int) returns (kept: map<int, JournalLine>)
    ensures kept == Replay(lines, now)
  {
    kept := map[];
    for i := 0 to |lines|
      invariant kept == Replay(lines[..i], now)
    {
      assert lines[..i + 1][..i] == lines[..i];
      if lines[i].None? {
        continue;
      }
      var minute := JournalMinute(lines[i].value.start);
      if minute > now || minute <= now - RING_LEN {
        continue;
      }
      kept := kept[minute := lines[i].value];
    }
    assert lines[..|lines|] == lines;
  }

  /** A replay keeps the last line of every minute of the window, and nothing else. */
  lemma {:induction false} ReplayIsLast(lines: Lines, now: int, minute: int)
    ensures Lookup(Replay(lines, now), minute) == if InWindow(minute, now) then LastLine(lines, minute) else None
    decreases |lines|
  {
    if lines != [] {
      ReplayIsLast(lines[..|lines| - 1], now, minute);
    }
  }

  lemma {:induction false} LastLineMinute(lines: Lines, minute: int)
    ensures LastLine(lines, minute).Some? ==> MinuteOf(LastLine(lines, minute).value) == minute
    decreases |lines|
  {
    if lines != [] {
      LastLineMinute(lines[..|lines| - 1], minute);
    }
  }

  // ----- prune -----

  /** The kept lines of the minutes from lo up to below hi, in order. */
  function InOrder(kept: map<int, JournalLine>, lo: int, hi: int): Lines
    decreases hi - lo
  {
    if hi <= lo then []
    else InOrder(kept, lo, hi - 1) + if hi - 1 in kept then [Some(kept[hi - 1])] else []
  }

  /** What pruneDashboardJournal leaves in the file; no file is no lines. */
  function Prune(lines: Lines, now: int): Lines { InOrder(Replay(lines, now), now - RING_LEN + 1, now + 1) }

  predicate Kept(kept: map<int, JournalLine>, now: int) {
    forall m :: m in kept ==> InWindow(m, now) && MinuteOf(kept[m]) == m
  }

  lemma {:induction false} ReplayKept(lines: Lines, now: int)
    ensures Kept(Replay(lines, now), now)
    decreases |lines|
  {
    if lines != [] {
      ReplayKept(lines[..|lines| - 1], now);
    }
  }

  lemma {:induction false} InOrderLast(kept: map<int, JournalLine>, now: int, lo: int, hi: int, minute: int)
    requires Kept(kept, now)
    ensures LastLine(InOrder(kept, lo, hi), minute) == if lo <= minute < hi then Lookup(kept, minute) else None
    decreases hi - lo
  {
    if hi > lo {
      var before := InOrder(kept, lo, hi - 1);
      InOrderLast(kept, now, lo, hi - 1, minute);
      if hi - 1 in kept {
        var more := before + [Some(kept[hi - 1])];
        assert more[..|more| - 1] == before;
      } else {
        assert before + [] == before;
      }
    }
  }

  /** Pruned, a minute keeps its last line if it was in the window of the prune, and is gone otherwise. */
  lemma PrunedLast(lines: Lines, pruned: int, minute: int)
    ensures LastLine(Prune(lines, pruned), minute) ==
            if InWindow(minute, pruned) then LastLine(lines, minute) else None
  {
    ReplayKept(lines, pruned);
    InOrderLast(Replay(lines, pruned), pruned, pruned - RING_LEN + 1, pruned + 1, minute);
    ReplayIsLast(lines, pruned, minute);
  }

  /** Some line the replay wants was outside the window of the prune. */
  predicate LosesLine(lines: Lines, pruned: int, now: int) {
    exists i :: 0 <= i < |lines| && lines[i].Some? &&
                InWindow(MinuteOf(lines[i].value), now) && !InWindow(MinuteOf(lines[i].value), pruned)
  }

  lemma {:induction false} LastLineFound(lines: Lines, minute: int)
    ensures LastLine(lines, minute).Some? <==>
            exists i :: 0 <= i < |lines| && lines[i].Some? && MinuteOf(lines[i].value) == minute
    decreases |lines|
  {
    if lines != [] {
      var n := |lines| - 1;
      LastLineFound(lines[..n], minute);
      if i :| 0 <= i < n && lines[i].Some? && MinuteOf(lines[i].value) == minute {
        assert lines[..n][i] == lines[i];
      }
      if i :| 0 <= i < n && lines[..n][i].Some? && MinuteOf(lines[..n][i].value) == minute {
        assert lines[i] == lines[..n][i];
      }
    }
  }

  /** Replaying the pruned journal is replaying the original, exactly when the prune loses no line the replay wants. */
  lemma PruneThenReplay(lines: Lines, pruned: int, now: int)
    ensures Replay(Prune(lines, pruned), now) == Replay(lines, now) <==> !LosesLine(lines, pruned, now)
  {
    var a, b := Replay(Prune(lines, pruned), now), Replay(lines, now);
    forall minute
      ensures Lookup(a, minute) == if InWindow(minute, now) && InWindow(minute, pruned) then LastLine(lines, minute)
                                   else None
      ensures Lookup(b, minute) == if InWindow(minute, now) then LastLine(lines, minute) else None
      ensures LastLine(lines, minute).Some? <==>
              exists i :: 0 <= i < |lines| && lines[i].Some? && MinuteOf(lines[i].value) == minute
    {
      ReplayIsLast(Prune(lines, pruned), now, minute);
      PrunedLast(lines, pruned, minute);
      ReplayIsLast(lines, now, minute);
      LastLineFound(lines, minute);
    }
    if i :| 0 <= i < |lines| && lines[i].Some? &&
            InWindow(MinuteOf(lines[i].value), now) && !InWindow(MinuteOf(lines[i].value), pruned) {
      var m := MinuteOf(lines[i].value);
      assert Lookup(a, m).None? && Lookup(b, m).Some?;
      assert m in b && m !in a;
    } else {
      forall m
        ensures Lookup(a, m) == Lookup(b, m)
      {
      }
      SameMap(a, b);
    }
  }

  lemma SameMap(a: map<int, JournalLine>, b: map<int, JournalLine>)
    requires forall m :: Lookup(a, m) == Lookup(b, m)
    ensures a == b
  {
    forall m
      ensures m in a <==> m in b
      ensures m in a ==> a[m] == b[m]
    {
      assert Lookup(a, m) == Lookup(b, m);
    }
  }

  /** At any later time: exactly when no line is dated between the prune and the replay. */
  lemma PruneThenReplayLater(lines: Lines, pruned: int, now: int)
    requires pruned <= now
    ensures Replay(Prune(lines, pruned), now) == Replay(lines, now) <==>
            forall i :: 0 <= i < |lines| && lines[i].Some? ==>
              MinuteOf(lines[i].value) <= pruned || MinuteOf(lines[i].value) <= now - RING_LEN ||
              MinuteOf(lines[i].value) > now
  {
    PruneThenReplay(lines, pruned, now);
  }

  // ----- the prune as the source does it: collect the minutes, sort them, write their lines -----

  predicate Ascending(ms: seq<int>) { forall i, j :: 0 <= i < j < |ms| ==> ms[i] < ms[j] }

  /** One minute put in its place; sort.Slice decides the same order, for the minutes are distinct. */
  function Put(ms: seq<int>, m: int): (r: seq<int>)
    requires Ascending(ms) && m !in ms
    ensures Ascending(r) && forall k :: k in r <==> k in ms || k == m
  {
    if ms == [] || ms[|ms| - 1] < m then ms + [m]
    else
      var n := |ms| - 1;
      assert ms == ms[..n] + [ms[n]] && ms[n] != m;
      var r := Put(ms[..n], m);
      assert forall i :: 0 <= i < |r| ==> r[i] in r;
      r + [ms[n]]
  }

  function LinesOf(kept: map<int, JournalLine>, ms: seq<int>): (lines: Lines)
    requires forall i :: 0 <= i < |ms| ==> ms[i] in kept
    ensures |lines| == |ms|
  {
    seq(|ms|, i requires 0 <= i < |ms| => Some(kept[ms[i]]))
  }

  /** The minutes are exactly the kept ones of the range. */
  predicate Covers(ms: seq<int>, kept: map<int, JournalLine>, lo: int, hi: int) {
    && Ascending(ms)
    && (forall i :: 0 <= i < |ms| ==> ms[i] in kept && lo <= ms[i] < hi)
    && (forall m :: m in kept && lo <= m < hi ==> m in ms)
  }

  lemma LargestLast(ms: seq<int>, m: int)
    requires Ascending(ms) && m in ms && forall i :: 0 <= i < |ms| ==> ms[i] <= m
    ensures ms[|ms| - 1] == m
  {
    var i :| 0 <= i < |ms| && ms[i] == m;
    assert ms[i] <= ms[|ms| - 1];
  }

  lemma CoversLess(ms: seq<int>, kept: map<int, JournalLine>, lo: int, hi: int)
    requires Covers(ms, kept, lo, hi) && lo < hi
    ensures hi - 1 !in kept ==> Covers(ms, kept, lo, hi - 1)
    ensures hi - 1 in kept ==> ms != [] && ms[|ms| - 1] == hi - 1 && Covers(ms[..|ms| - 1], kept, lo, hi - 1)
  {
    if hi - 1 in kept {
      LargestLast(ms, hi - 1);
      var init := ms[..|ms| - 1];
      assert ms == init + [hi - 1];
      forall i | 0 <= i < |init|
        ensures init[i] in kept && lo <= init[i] < hi - 1
      {
        assert ms[i] < ms[|ms| - 1];
      }
    }
  }

  /** Ascending minutes give the lines of their range in order. */
  lemma {:induction false} AscendingInOrder(kept: map<int, JournalLine>, ms: seq<int>, lo: int, hi: int)
    requires Covers(ms, kept, lo, hi)
    ensures LinesOf(kept, ms) == InOrder(kept, lo, hi)
    decreases hi - lo
  {
    if hi > lo {
      CoversLess(ms, kept, lo, hi);
      if hi - 1 in kept {
        AscendingInOrder(kept, ms[..|ms| - 1], lo, hi - 1);
      } else {
        AscendingInOrder(kept, ms, lo, hi - 1);
      }
    }
  }

  lemma SomeMinute(todo: set<int>)
    requires todo != {}
    ensures exists m :: m in todo
  {
    assert (forall m :: m !in todo) ==> todo == {};
  }

  method PruneDashboardJournal(lines: Lines, now: int) returns (out: Lines, count: nat)
    ensures out == Prune(lines, now) && count == |Replay(lines, now)|
  {
    var kept := ReplayDashboardJournal(lines, now);
    ReplayKept(lines, now);
    var minutes: seq<int> := [];
    var todo := kept.Keys;
    while todo != {}
      invariant todo <= kept.Keys && Ascending(minutes)
      invariant forall m :: m in minutes <==> m in kept && m !in todo
      decreases |todo|
    {
      SomeMinute(todo);
      var m :| m in todo;
      minutes := Put(minutes, m);
      todo := todo - {m};
    }
    assert forall i :: 0 <= i < |minutes| ==> minutes[i] in minutes;
    assert Covers(minutes, kept, now - RING_LEN + 1, now + 1);
    out := [];
    for i := 0 to |minutes|
      invariant out == LinesOf(kept, minutes)[..i]
    {
      out := out + [Some(kept[minutes[i]])];
    }
    AscendingInOrder(kept, minutes, now - RING_LEN + 1, now + 1);
    count := |kept|;
  }
}
