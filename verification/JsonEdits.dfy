/**
 Applying several edits at once (applyJSONEdits), and inserting a member inside the
 spare capacity of a buffer (insertJSONMemberReusing).
 */
module JsonEdits {
  import opened JsonSplice

  /** body[start..end] is to be replaced; an empty range inserts. */
  datatype Edit = Edit(start: int, end: int, replacement: string)

  predicate InRange(n: nat, e: Edit) { 0 <= e.start <= e.end <= n }

  predicate AllInRange(n: nat, edits: seq<Edit>) {
    forall i :: 0 <= i < |edits| ==> InRange(n, edits[i])
  }

  predicate Sorted(edits: seq<Edit>) {
    forall i, j :: 0 <= i < j < |edits| ==> edits[i].start <= edits[j].start
  }

  predicate DistinctStarts(edits: seq<Edit>) {
    forall i, j :: 0 <= i < j < |edits| ==> edits[i].start != edits[j].start
  }

  /** No two edits, in whatever order they are listed, touch a common byte. */
  predicate Disjoint(edits: seq<Edit>) {
    forall e, f :: e in edits && f in edits && e.start < f.start ==> e.end <= f.start
  }

  /** The check of the source: neighbours in sorted order do not overlap. */
  predicate Chained(sorted: seq<Edit>) {
    forall i :: 0 < i < |sorted| ==> sorted[i - 1].end <= sorted[i].start
  }

  /** Splicing one edit after the other, the rightmost first. */
  function RightToLeft(b: string, sorted: seq<Edit>): string
    requires AllInRange(|b|, sorted) && Chained(sorted)
    decreases |sorted|
  {
    if sorted == [] then b
    else
      var n := |sorted| - 1;
      var e := sorted[n];
      var once := Splice(b, e.start, e.end, e.replacement);
      PrefixStillInRange(b, sorted);
      RightToLeft(once, sorted[..n])
  }

  lemma PrefixStillInRange(b: string, sorted: seq<Edit>)
    requires AllInRange(|b|, sorted) && Chained(sorted) && sorted != []
    ensures var n := |sorted| - 1;
            var e := sorted[n];
            var once := Splice(b, e.start, e.end, e.replacement);
            AllInRange(|once|, sorted[..n]) && Chained(sorted[..n])
  {
    var n := |sorted| - 1;
    forall i | 0 <= i < n
      ensures sorted[i].end <= sorted[n].start
    {
      ChainedIsSorted(sorted, i, n, |b|);
    }
  }

  lemma {:induction false} ChainedIsSorted(sorted: seq<Edit>, i: nat, j: nat, n: nat)
    requires AllInRange(n, sorted) && Chained(sorted) && i < j < |sorted|
    ensures sorted[i].end <= sorted[j].start
    decreases j - i
  {
    if i + 1 < j {
      ChainedIsSorted(sorted, i, j - 1, n);
    }
  }

  /** The pieces the source writes: each gap followed by its replacement, then the rest. */
  function Pieces(b: string, sorted: seq<Edit>): (r: (string, nat))
    requires AllInRange(|b|, sorted) && Chained(sorted)
    ensures r.1 <= |b| && (sorted != [] ==> r.1 == sorted[|sorted| - 1].end)
    decreases |sorted|
  {
    if sorted == [] then ("", 0)
    else
      var n := |sorted| - 1;
      var e := sorted[n];
      assert n > 0 ==> sorted[n - 1].end <= e.start;
      var (out, at) := Pieces(b, sorted[..n]);
      (out + b[at..e.start] + e.replacement, e.end)
  }

  /** Bytes added or removed in all. */
  function Growth(edits: seq<Edit>): int {
    if edits == [] then 0
    else var e := edits[|edits| - 1]; Growth(edits[..|edits| - 1]) + |e.replacement| - (e.end - e.start)
  }

  /** Writing the pieces left to right is splicing right to left, and has the precomputed size. */
  lemma {:induction false} PiecesSplice(b: string, tail: string, sorted: seq<Edit>)
    requires AllInRange(|b|, sorted) && Chained(sorted)
    ensures AllInRange(|b + tail|, sorted)
    ensures var (out, at) := Pieces(b, sorted); out + b[at..] + tail == RightToLeft(b + tail, sorted)
    ensures var (out, at) := Pieces(b, sorted); |out + b[at..]| == |b| + Growth(sorted)
    decreases |sorted|
  {
    if sorted == [] {
      assert "" + b[0..] + tail == b + tail;
    } else {
      var n := |sorted| - 1;
      var e := sorted[n];
      var init := sorted[..n];
      var head := b[..e.start];
      PrefixStillInRange(b + tail, sorted);
      forall i | 0 <= i < n
        ensures InRange(|head|, init[i])
      {
        ChainedIsSorted(sorted, i, n, |b|);
      }
      PiecesSplice(head, e.replacement + b[e.end..] + tail, init);
      PiecesPrefix(b, e.start, init);
      SplicePieces(b, tail, e.start, e.end, e.replacement);
      var (out, at) := Pieces(b, init);
      assert head[at..] == b[at..e.start];
      PiecesRegroup(out, b[at..e.start], e.replacement, b[e.end..], tail);
    }
  }

  lemma PiecesRegroup(a: string, b: string, c: string, d: string, e: string)
    ensures a + b + (c + d + e) == (a + b + c) + d + e
  {
  }

  lemma SplicePieces(b: string, tail: string, start: nat, end: nat, s: string)
    requires start <= end <= |b|
    ensures Splice(b + tail, start, end, s) == b[..start] + (s + b[end..] + tail)
  {
    assert (b + tail)[..start] == b[..start] && (b + tail)[end..] == b[end..] + tail;
  }

  lemma {:induction false} PiecesPrefix(b: string, n: nat, sorted: seq<Edit>)
    requires n <= |b| && AllInRange(n, sorted) && AllInRange(|b|, sorted) && Chained(sorted)
    ensures Pieces(b[..n], sorted) == Pieces(b, sorted)
    decreases |sorted|
  {
    if sorted != [] {
      var k := |sorted| - 1;
      var e := sorted[k];
      PiecesPrefix(b, n, sorted[..k]);
      var at := Pieces(b, sorted[..k]).1;
      assert k > 0 ==> sorted[k - 1].end <= e.start;
      assert b[..n][at..e.start] == b[at..e.start];
    }
  }

  // ----- sorting by start -----

  /** sort.Slice by start: some permutation in order; equal starts may land either way. */
  method SortByStart(edits: seq<Edit>) returns (sorted: seq<Edit>)
    ensures multiset(sorted) == multiset(edits) && Sorted(sorted)
  {
    sorted := [];
    for i := 0 to |edits|
      invariant multiset(sorted) == multiset(edits[..i])
      invariant Sorted(sorted)
    {
      assert edits[..i + 1] == edits[..i] + [edits[i]];
      sorted := InsertByStart(sorted, edits[i]);
    }
    assert edits[..|edits|] == edits;
  }

  method InsertByStart(sorted: seq<Edit>, e: Edit) returns (more: seq<Edit>)
    requires Sorted(sorted)
    ensures multiset(more) == multiset(sorted) + multiset{e} && Sorted(more)
  {
    var j := |sorted|;
    while j > 0 && e.start < sorted[j - 1].start
      invariant 0 <= j <= |sorted|
      invariant forall k :: j <= k < |sorted| ==> e.start < sorted[k].start
    {
      j := j - 1;
    }
    more := sorted[..j] + [e] + sorted[j..];
    InsertedMiddle(sorted, e, j);
  }

  lemma InsertedMiddle(sorted: seq<Edit>, e: Edit, j: nat)
    requires j <= |sorted|
    ensures multiset(sorted[..j] + [e] + sorted[j..]) == multiset(sorted) + multiset{e}
  {
    assert sorted == sorted[..j] + sorted[j..];
  }

  /** The same order as a function. */
  function Order(edits: seq<Edit>): (sorted: seq<Edit>)
    ensures multiset(sorted) == multiset(edits) && Sorted(sorted)
  {
    if edits == [] then []
    else
      assert edits == edits[..|edits| - 1] + [edits[|edits| - 1]];
      PutInOrder(Order(edits[..|edits| - 1]), edits[|edits| - 1])
  }

  function PutInOrder(sorted: seq<Edit>, e: Edit): (more: seq<Edit>)
    requires Sorted(sorted)
    ensures multiset(more) == multiset(sorted) + multiset{e} && Sorted(more)
  {
    if sorted == [] || sorted[|sorted| - 1].start <= e.start then sorted + [e]
    else
      var n := |sorted| - 1;
      assert sorted == sorted[..n] + [sorted[n]];
      var init := PutInOrder(sorted[..n], e);
      AllBefore(init, sorted[..n], e, sorted[n].start);
      init + [sorted[n]]
  }

  lemma AllBefore(more: seq<Edit>, sorted: seq<Edit>, e: Edit, bound: int)
    requires multiset(more) == multiset(sorted) + multiset{e}
    requires e.start <= bound && forall i :: 0 <= i < |sorted| ==> sorted[i].start <= bound
    ensures forall i :: 0 <= i < |more| ==> more[i].start <= bound
  {
    forall i | 0 <= i < |more|
      ensures more[i].start <= bound
    {
      assert more[i] in multiset(more);
      assert more[i] == e || more[i] in multiset(sorted);
    }
  }

  lemma StartsIdentify(edits: seq<Edit>, e: Edit, f: Edit)
    requires DistinctStarts(edits) && e in edits && f in edits && e.start == f.start
    ensures e == f
  {
  }

  /** With distinct starts there is only one sorted order. */
  lemma {:induction false} SortedUnique(a: seq<Edit>, b: seq<Edit>)
    requires multiset(a) == multiset(b) && Sorted(a) && Sorted(b) && DistinctStarts(a)
    ensures a == b
    decreases |a|
  {
    if a == [] {
      SameLength(a, b);
    } else {
      SameLength(a, b);
      SameFirst(a, b);
      WithoutFirst(a);
      WithoutFirst(b);
      SortedUnique(a[1..], b[1..]);
      assert a == [a[0]] + a[1..] && b == [b[0]] + b[1..];
    }
  }

  lemma WithoutFirst(a: seq<Edit>)
    requires a != []
    ensures multiset(a[1..]) == multiset(a) - multiset{a[0]}
  {
    assert a == [a[0]] + a[1..];
  }

  lemma SameLength(a: seq<Edit>, b: seq<Edit>)
    requires multiset(a) == multiset(b)
    ensures |a| == |b|
  {
    assert |multiset(a)| == |a| && |multiset(b)| == |b|;
  }

  lemma SameFirst(a: seq<Edit>, b: seq<Edit>)
    requires multiset(a) == multiset(b) && Sorted(a) && Sorted(b) && DistinctStarts(a)
    requires a != [] && b != []
    ensures a[0] == b[0]
  {
    assert a[0] in multiset(b) && b[0] in multiset(a);
    assert a[0] in b && b[0] in a;
    StartsIdentify(a, a[0], b[0]);
  }

  lemma {:induction false} OnlyOnce(edits: seq<Edit>, e: Edit)
    requires DistinctStarts(edits)
    ensures multiset(edits)[e] <= 1
  {
    if edits != [] {
      var n := |edits| - 1;
      OnlyOnce(edits[..n], e);
      assert edits == edits[..n] + [edits[n]];
      if e == edits[n] {
        assert e !in edits[..n];
        assert multiset(edits[..n])[e] == 0;
      }
    }
  }

  lemma CountedTwice(edits: seq<Edit>, i: nat, j: nat)
    requires i < j < |edits| && edits[i] == edits[j]
    ensures multiset(edits)[edits[i]] >= 2
  {
    assert edits == edits[..j] + edits[j..];
    assert edits[..j][i] in multiset(edits[..j]) && edits[j..][0] in multiset(edits[j..]);
  }

  lemma SameMembers(a: seq<Edit>, b: seq<Edit>)
    requires multiset(a) == multiset(b)
    ensures forall e :: e in a <==> e in b
  {
    assert forall e :: e in a <==> e in multiset(a);
    assert forall e :: e in b <==> e in multiset(b);
  }

  lemma SameRange(n: nat, a: seq<Edit>, b: seq<Edit>)
    requires multiset(a) == multiset(b)
    ensures AllInRange(n, a) <==> AllInRange(n, b)
  {
    SameMembers(a, b);
    assert AllInRange(n, a) <==> forall e :: e in a ==> InRange(n, e);
    assert AllInRange(n, b) <==> forall e :: e in b ==> InRange(n, e);
  }

  /** Distinct starts, ranges and overlaps do not depend on the order. */
  lemma SameChecks(n: nat, a: seq<Edit>, b: seq<Edit>)
    requires multiset(a) == multiset(b) && DistinctStarts(a)
    ensures AllInRange(n, a) <==> AllInRange(n, b)
    ensures Disjoint(a) <==> Disjoint(b)
    ensures DistinctStarts(b)
  {
    SameMembers(a, b);
    SameRange(n, a, b);
    forall i, j | 0 <= i < j < |b|
      ensures b[i].start != b[j].start
    {
      if b[i].start == b[j].start {
        StartsIdentify(a, b[i], b[j]);
        CountedTwice(b, i, j);
        OnlyOnce(a, b[i]);
        assert false;
      }
    }
  }

  // ----- applying edits -----

  predicate Accepted(n: nat, edits: seq<Edit>) { AllInRange(n, edits) && Disjoint(edits) }

  /** Neighbours overlap exactly when some two edits do. */
  lemma ChainedIffDisjoint(n: nat, sorted: seq<Edit>)
    requires AllInRange(n, sorted) && Sorted(sorted) && DistinctStarts(sorted)
    ensures Chained(sorted) <==> Disjoint(sorted)
  {
    if Chained(sorted) {
      forall e, f | e in sorted && f in sorted && e.start < f.start
        ensures e.end <= f.start
      {
        var i :| 0 <= i < |sorted| && sorted[i] == e;
        var j :| 0 <= j < |sorted| && sorted[j] == f;
        assert i < j;
        ChainedIsSorted(sorted, i, j, n);
      }
    }
    if Disjoint(sorted) {
      forall i | 0 < i < |sorted|
        ensures sorted[i - 1].end <= sorted[i].start
      {
        assert sorted[i - 1] in sorted && sorted[i] in sorted;
      }
    }
  }

  lemma OrderChecks(n: nat, edits: seq<Edit>, sorted: seq<Edit>)
    requires DistinctStarts(edits) && multiset(sorted) == multiset(edits) && Sorted(sorted)
    ensures AllInRange(n, sorted) <==> AllInRange(n, edits)
    ensures AllInRange(n, edits) ==> (Chained(sorted) <==> Disjoint(edits))
    ensures sorted == Order(edits)
  {
    SameChecks(n, edits, sorted);
    if AllInRange(n, sorted) {
      ChainedIffDisjoint(n, sorted);
    }
    SortedUnique(sorted, Order(edits));
  }

  /** The result of applyJSONEdits: rejected wholesale, or every edit spliced in. */
  function ApplyEdits(b: string, edits: seq<Edit>): string
    requires DistinctStarts(edits)
  {
    OrderChecks(|b|, edits, Order(edits));
    if Accepted(|b|, edits) then RightToLeft(b, Order(edits)) else b
  }

  /** The order in which edits are listed does not matter. */
  lemma ApplyOrderIndependent(b: string, e1: seq<Edit>, e2: seq<Edit>)
    requires DistinctStarts(e1) && DistinctStarts(e2) && multiset(e1) == multiset(e2)
    ensures ApplyEdits(b, e1) == ApplyEdits(b, e2)
  {
    SameChecks(|b|, e1, e2);
    OrderChecks(|b|, e1, Order(e2));
  }

  lemma SpliceOnce(b: string, e: Edit)
    requires InRange(|b|, e)
    ensures RightToLeft(b, [e]) == Splice(b, e.start, e.end, e.replacement)
  {
    assert [e][..0] == [];
  }

  lemma SpliceTwice(b: string, e: Edit, f: Edit)
    requires InRange(|b|, e) && InRange(|b|, f) && e.end <= f.start
    ensures RightToLeft(b, [e, f]) ==
            Splice(Splice(b, f.start, f.end, f.replacement), e.start, e.end, e.replacement)
  {
    var two := [e, f];
    assert two[..1] == [e];
    SpliceOnce(Splice(b, f.start, f.end, f.replacement), e);
  }

  lemma ApplySorted(b: string, edits: seq<Edit>, sorted: seq<Edit>)
    requires DistinctStarts(edits) && multiset(edits) == multiset(sorted) && Sorted(sorted)
    requires AllInRange(|b|, sorted) && Chained(sorted)
    ensures ApplyEdits(b, edits) == RightToLeft(b, sorted)
  {
    OrderChecks(|b|, edits, sorted);
  }

  /** One edit alone turns `b` into `after`. */
  predicate SplicesTo(b: string, e: Edit, after: string) {
    InRange(|b|, e) && Splice(b, e.start, e.end, e.replacement) == after
  }

  /** The edits are all accepted, and together turn `b` into `after`. */
  predicate EditsTo(b: string, edits: seq<Edit>, after: string) {
    DistinctStarts(edits) && Accepted(|b|, edits) && ApplyEdits(b, edits) == after
  }

  lemma ApplyOne(b: string, e: Edit, after: string)
    requires SplicesTo(b, e, after)
    ensures EditsTo(b, [e], after)
  {
    ApplySorted(b, [e], [e]);
    SpliceOnce(b, e);
  }

  lemma ApplyNone(b: string)
    ensures EditsTo(b, [], b)
  {
    ApplySorted(b, [], []);
  }

  lemma TwoChecks(n: nat, e: Edit, f: Edit)
    requires InRange(n, e) && InRange(n, f) && e.start < f.start && e.end <= f.start
    ensures DistinctStarts([e, f]) && DistinctStarts([f, e])
    ensures Accepted(n, [e, f]) && Accepted(n, [f, e])
    ensures Sorted([e, f]) && Chained([e, f])
    ensures multiset([e, f]) == multiset([f, e])
  {
    TwoStarts(e, f);
    TwoAccepted(n, e, f, [e, f]);
    TwoAccepted(n, e, f, [f, e]);
    assert [e, f] == [e] + [f] && [f, e] == [f] + [e];
  }

  lemma TwoStarts(e: Edit, f: Edit)
    requires e.start < f.start && e.end <= f.start
    ensures DistinctStarts([e, f]) && DistinctStarts([f, e]) && Sorted([e, f]) && Chained([e, f])
  {
  }

  lemma TwoAccepted(n: nat, e: Edit, f: Edit, edits: seq<Edit>)
    requires InRange(n, e) && InRange(n, f) && e.start < f.start && e.end <= f.start
    requires |edits| == 2 && forall i :: 0 <= i < 2 ==> edits[i] == e || edits[i] == f
    ensures Accepted(n, edits)
  {
  }

  /** Two edits, listed either way: the right one is spliced first. */
  lemma ApplyTwo(b: string, e: Edit, f: Edit, between: string, after: string)
    requires SplicesTo(b, f, between) && SplicesTo(between, e, after)
    requires e.start < f.start && e.end <= f.start && InRange(|b|, e)
    ensures EditsTo(b, [e, f], after) && EditsTo(b, [f, e], after)
  {
    TwoChecks(|b|, e, f);
    assert RightToLeft(b, [e, f]) == after by {
      SpliceTwice(b, e, f);
    }
    ApplySorted(b, [e, f], [e, f]);
    ApplySorted(b, [f, e], [e, f]);
  }

  method ApplyJSONEdits(body: string, edits: seq<Edit>) returns (out: string)
    ensures !AllInRange(|body|, edits) ==> out == body
    ensures DistinctStarts(edits) ==> out == ApplyEdits(body, edits)
    ensures DistinctStarts(edits) && Accepted(|body|, edits) ==> |out| == |body| + Growth(Order(edits))
  {
    if edits == [] {
      return body;
    }
    for i := 0 to |edits|
      invariant AllInRange(|body|, edits[..i])
    {
      if edits[i].start < 0 || edits[i].end < edits[i].start || edits[i].end > |body| {
        return body;
      }
      assert edits[..i + 1] == edits[..i] + [edits[i]];
    }
    assert edits[..|edits|] == edits;
    var sorted := SortByStart(edits);
    SameRange(|body|, edits, sorted);
    if DistinctStarts(edits) {
      OrderChecks(|body|, edits, sorted);
    }
    var overlap := Overlaps(sorted);
    if overlap {
      return body;
    }
    out := WritePieces(body, sorted);
  }

  method Overlaps(sorted: seq<Edit>) returns (overlap: bool)
    ensures overlap <==> !Chained(sorted)
  {
    for i := 0 to |sorted|
      invariant Chained(sorted[..i])
    {
      if i > 0 && sorted[i].start < sorted[i - 1].end {
        return true;
      }
    }
    assert sorted[..|sorted|] == sorted;
    return false;
  }

  /** The output loop; the size computed beforehand is never negative. */
  method WritePieces(body: string, sorted: seq<Edit>) returns (out: string)
    requires AllInRange(|body|, sorted) && Chained(sorted)
    ensures out == RightToLeft(body, sorted)
    ensures |out| == |body| + Growth(sorted) >= 0
  {
    PiecesSplice(body, "", sorted);
    var at := 0;
    out := "";
    for i := 0 to |sorted|
      invariant at <= |body|
      invariant (out, at) == Pieces(body, sorted[..i])
    {
      var e := sorted[i];
      assert sorted[..i + 1][..i] == sorted[..i];
      assert i > 0 ==> sorted[i - 1].end <= e.start;
      out := out + body[at..e.start] + e.replacement;
      at := e.end;
    }
    assert sorted[..|sorted|] == sorted;
    assert body + "" == body && out + body[at..] + "" == out + body[at..];
    out := out + body[at..];
  }

  // ----- inserting inside spare capacity -----

  /** copy(dst[to:], src): an overlapping move to the right, inside one buffer. */
  method ShiftRight(buf: array<char>, start: nat, end: nat, gap: nat)
    requires start <= end && end + gap <= buf.Length
    modifies buf
    ensures buf[..start] == old(buf[..start])
    ensures buf[start + gap..end + gap] == old(buf[start..end])
    ensures buf[end + gap..] == old(buf[end + gap..])
  {
    var k := end;
    while k > start
      invariant start <= k <= end
      invariant forall i :: 0 <= i < k ==> buf[i] == old(buf[i])
      invariant forall i :: k <= i < end ==> buf[i + gap] == old(buf[i])
      invariant forall i :: end + gap <= i < buf.Length ==> buf[i] == old(buf[i])
    {
      k := k - 1;
      buf[k + gap] := buf[k];
    }
    forall i | start + gap <= i < end + gap
      ensures buf[i] == old(buf[i - gap])
    {
      assert buf[(i - gap) + gap] == old(buf[i - gap]);
    }
  }

  /** copy(buf[at:], s) */
  method WriteAt(buf: array<char>, at: nat, s: string)
    requires at + |s| <= buf.Length
    modifies buf
    ensures buf[..at] == old(buf[..at])
    ensures buf[at..at + |s|] == s
    ensures buf[at + |s|..] == old(buf[at + |s|..])
  {
    for i := 0 to |s|
      invariant forall k :: 0 <= k < at || at + i <= k < buf.Length ==> buf[k] == old(buf[k])
      invariant forall k :: 0 <= k < i ==> buf[at + k] == s[k]
    {
      buf[at + i] := s[i];
    }
  }

  /** The buffer after both moves holds the spliced body, and the old bytes behind it. */
  lemma SplicedInPlace(body: string, shifted: string, now: string, cut: nat, text: string)
    requires cut <= |body| && |body| + |text| <= |shifted| == |now|
    requires shifted[..cut] == body[..cut] && shifted[cut + |text|..|body| + |text|] == body[cut..]
    requires now[..cut] == shifted[..cut] && now[cut..cut + |text|] == text
    requires now[cut + |text|..] == shifted[cut + |text|..]
    ensures now[..|body| + |text|] == Splice(body, cut, cut, text)
    ensures now[|body| + |text|..] == shifted[|body| + |text|..]
  {
    var at, n := cut + |text|, |body| + |text|;
    assert now[at..n] == now[at..][..n - at] && shifted[at..n] == shifted[at..][..n - at];
    assert now[n..] == now[at..][n - at..] && shifted[n..] == shifted[at..][n - at..];
    assert now[..n] == now[..cut] + now[cut..at] + now[at..n];
  }

  /**
   insertJSONMemberReusing: the body is buf[..len] and the rest of the buffer is
   spare.  For every capacity the bytes are those of insertJSONMember; the buffer
   is reused exactly when the spare room suffices, and otherwise left alone.
   */
  method InsertJSONMemberReusing(buf: array<char>, len: nat, objEnd: nat, key: string, value: string)
    returns (out: array<char>, outLen: nat)
    requires objEnd <= len <= buf.Length
    modifies buf
    ensures outLen <= out.Length && out[..outLen] == InsertJSONMember(old(buf[..len]), objEnd, key, value)
    ensures out == buf <==> outLen <= buf.Length
    ensures out != buf ==> fresh(out) && buf[..] == old(buf[..])
    ensures out == buf ==> buf[outLen..] == old(buf[outLen..])
  {
    var body := buf[..len];
    var cut := CutWhitespace(body, 0, objEnd);
    var sep := if cut > 0 && buf[cut - 1] != '{' then "," else "";
    var text := sep + MemberText(key, value);
    var need := |text|;
    if buf.Length - len < need {
      var whole := Splice(body, cut, cut, text);
      out := new char[|whole|](i requires 0 <= i < |whole| => whole[i]);
      outLen := |whole|;
      assert out[..outLen] == whole;
      return;
    }
    InsertInPlace(buf, len, cut, text);
    out, outLen := buf, len + need;
  }

  /** Both moves: the tail to the right, then the text into the gap. */
  method InsertInPlace(buf: array<char>, len: nat, cut: nat, text: string)
    requires cut <= len && len + |text| <= buf.Length
    modifies buf
    ensures buf[..len + |text|] == Splice(old(buf[..len]), cut, cut, text)
    ensures buf[len + |text|..] == old(buf[len + |text|..])
  {
    ghost var body := buf[..len];
    ShiftRight(buf, cut, len, |text|);
    ghost var shifted := buf[..];
    WriteAt(buf, cut, text);
    SplicedInPlace(body, shifted, buf[..], cut, text);
  }
}
