/**
 percentileFromHistogram (percentile.go), over the reals: the percentile is the
 least latency whose interpolated share of the observations reaches the rank, and
 everything about it follows from that.
 */
module Percentile {
  import opened AttemptTable

  /** Increasing positive boundaries, as the attempt histogram has them. */
  predicate Boundaries(bounds: seq<real>) {
    && bounds != [] && bounds[0] > 0.0
    && forall i, j :: 0 <= i < j < |bounds| ==> bounds[i] < bounds[j]
  }

  /** The lower edge of bucket i; behind the last boundary, the last boundary. */
  function Low(bounds: seq<real>, i: nat): real
    requires i <= |bounds|
  {
    if i == 0 then 0.0 else bounds[i - 1]
  }

  function Top(bounds: seq<real>): real
    requires bounds != []
  {
    bounds[|bounds| - 1]
  }

  // ----- the search -----

  /** From bucket i on, with `below` observations in front of it: where `rank` falls. */
  function Locate(hist: seq<nat>, bounds: seq<real>, i: nat, below: nat, rank: real): real
    requires |hist| == |bounds| + 1 && bounds != [] && i <= |bounds|
    requires below as real < rank
    decreases |bounds| - i
  {
    if i == |bounds| then Top(bounds)
    else if (below + hist[i]) as real >= rank then
      Low(bounds, i) + (bounds[i] - Low(bounds, i)) * ((rank - below as real) / hist[i] as real)
    else Locate(hist, bounds, i + 1, below + hist[i], rank)
  }

  datatype Percentiles = Percentiles(p50: real, p95: real, p99: real)

  const NONE := Percentiles(0.0, 0.0, 0.0)

  predicate Usable(hist: seq<nat>, bounds: seq<real>) {
    bounds != [] && |hist| == |bounds| + 1 && Sum(hist) > 0
  }

  /** In seconds: the latency at or below which the share `pct` of the observations falls. */
  function PercentileAt(hist: seq<nat>, bounds: seq<real>, pct: real): real
    requires Usable(hist, bounds) && pct > 0.0
  {
    Locate(hist, bounds, 0, 0, Sum(hist) as real * pct)
  }

  function PercentilesOf(hist: seq<nat>, bounds: seq<real>): Percentiles {
    if !Usable(hist, bounds) then NONE
    else Percentiles(PercentileAt(hist, bounds, 0.50) * 1000.0, PercentileAt(hist, bounds, 0.95) * 1000.0,
                     PercentileAt(hist, bounds, 0.99) * 1000.0)
  }

  // ----- the share of the observations below a latency -----

  /** What a bucket of `count` observations between lo and hi contributes at x, spread evenly. */
  function Part(count: nat, lo: real, hi: real, x: real): real
    requires lo < hi
  {
    if x <= lo then 0.0 else if x >= hi then count as real else count as real * ((x - lo) / (hi - lo))
  }

  function MassFrom(hist: seq<nat>, bounds: seq<real>, i: nat, x: real): real
    requires Boundaries(bounds) && |hist| == |bounds| + 1 && i <= |bounds|
    decreases |bounds| - i
  {
    if i == |bounds| then 0.0
    else Part(hist[i], Low(bounds, i), bounds[i], x) + MassFrom(hist, bounds, i + 1, x)
  }

  /** How many observations lie at or below x. */
  function Mass(hist: seq<nat>, bounds: seq<real>, x: real): real
    requires Boundaries(bounds) && |hist| == |bounds| + 1
  {
    MassFrom(hist, bounds, 0, x)
  }

  lemma {:induction false} NoMassYet(hist: seq<nat>, bounds: seq<real>, i: nat, x: real)
    requires Boundaries(bounds) && |hist| == |bounds| + 1 && i <= |bounds|
    requires x <= Low(bounds, i)
    ensures MassFrom(hist, bounds, i, x) == 0.0
    decreases |bounds| - i
  {
    if i < |bounds| {
      NoMassYet(hist, bounds, i + 1, x);
    }
  }

  lemma {:induction false} MassPositive(hist: seq<nat>, bounds: seq<real>, i: nat, x: real)
    requires Boundaries(bounds) && |hist| == |bounds| + 1 && i <= |bounds|
    ensures MassFrom(hist, bounds, i, x) >= 0.0
    decreases |bounds| - i
  {
    if i < |bounds| {
      PartBounds(hist[i], Low(bounds, i), bounds[i], x);
      MassPositive(hist, bounds, i + 1, x);
    }
  }

  lemma PartBounds(count: nat, lo: real, hi: real, x: real)
    requires lo < hi
    ensures 0.0 <= Part(count, lo, hi, x) <= count as real
  {
    if lo < x < hi {
      var f := (x - lo) / (hi - lo);
      Fraction(x - lo, hi - lo);
      Scale(count as real, f, 1.0);
      Scale(count as real, 0.0, f);
    }
  }

  lemma Fraction(a: real, b: real)
    requires 0.0 <= a <= b && b > 0.0
    ensures 0.0 <= a / b <= 1.0
  {
    assert (a / b) * b == a;
  }

  lemma Scale(c: real, f: real, g: real)
    requires c >= 0.0 && f <= g
    ensures c * f <= c * g
  {
  }

  /** Interpolating forth and back: p reaches x exactly when the share at x reaches the rank. */
  lemma Interpolate(lo: real, hi: real, need: real, count: real, x: real)
    requires lo < hi && 0.0 < need <= count && lo <= x < hi
    ensures lo + (hi - lo) * (need / count) <= x <==> need <= count * ((x - lo) / (hi - lo))
    ensures lo < lo + (hi - lo) * (need / count) <= hi
  {
    var w := hi - lo;
    var f := need / count;
    var g := (x - lo) / w;
    assert f * count == need && g * w == x - lo;
    Fraction(need, count);
    Compare(w, f, g);
    Compare(count, f, g);
    Scale(w, f, 1.0);
    Compare(w, 0.0, f);
    assert f > 0.0;
  }

  lemma Compare(c: real, f: real, g: real)
    requires c > 0.0
    ensures c * f <= c * g <==> f <= g
    ensures c * f < c * g <==> f < g
  {
  }

  // ----- the search finds the least such latency -----

  /** Between two edges the search stays at or above the lower one, strictly while it is finite. */
  lemma {:induction false} LocateAbove(hist: seq<nat>, bounds: seq<real>, i: nat, below: nat, rank: real)
    requires Boundaries(bounds) && |hist| == |bounds| + 1 && i <= |bounds| && below as real < rank
    ensures Low(bounds, i) <= Locate(hist, bounds, i, below, rank) <= Top(bounds)
    ensures i < |bounds| ==> Low(bounds, i) < Locate(hist, bounds, i, below, rank)
    decreases |bounds| - i
  {
    if i < |bounds| {
      assert Low(bounds, i) < bounds[i] <= Top(bounds);
      if (below + hist[i]) as real >= rank {
        LocateInBucket(hist, bounds, i, below, rank);
      } else {
        LocateAbove(hist, bounds, i + 1, below + hist[i], rank);
      }
    }
  }

  lemma LeastHere(hist: seq<nat>, bounds: seq<real>, i: nat, below: nat, rank: real, x: real)
    requires Boundaries(bounds) && |hist| == |bounds| + 1 && i < |bounds|
    requires below as real < rank <= (below + hist[i]) as real && Low(bounds, i) <= x < bounds[i]
    ensures Locate(hist, bounds, i, below, rank) <= x <==> rank <= below as real + MassFrom(hist, bounds, i, x)
  {
    NoMassYet(hist, bounds, i + 1, x);
    LocateHere(Low(bounds, i), bounds[i], below, hist[i], rank, x);
  }

  lemma WholeBucket(hist: seq<nat>, bounds: seq<real>, i: nat, x: real)
    requires Boundaries(bounds) && |hist| == |bounds| + 1 && i < |bounds| && x >= bounds[i]
    ensures MassFrom(hist, bounds, i, x) == hist[i] as real + MassFrom(hist, bounds, i + 1, x)
    ensures MassFrom(hist, bounds, i + 1, x) >= 0.0
  {
    assert Low(bounds, i) < bounds[i];
    MassPositive(hist, bounds, i + 1, x);
  }

  lemma LocateInBucket(hist: seq<nat>, bounds: seq<real>, i: nat, below: nat, rank: real)
    requires Boundaries(bounds) && |hist| == |bounds| + 1 && i < |bounds|
    requires below as real < rank <= (below + hist[i]) as real
    ensures Low(bounds, i) < Locate(hist, bounds, i, below, rank) <= bounds[i]
  {
    assert Low(bounds, i) < bounds[i];
    Interpolate(Low(bounds, i), bounds[i], rank - below as real, hist[i] as real, Low(bounds, i));
  }

  lemma NotYet(hist: seq<nat>, bounds: seq<real>, i: nat, below: nat, rank: real, x: real)
    requires Boundaries(bounds) && |hist| == |bounds| + 1 && i < |bounds| && below as real < rank
    requires (below + hist[i]) as real < rank && Low(bounds, i) <= x < bounds[i]
    ensures Locate(hist, bounds, i, below, rank) > x && rank > below as real + MassFrom(hist, bounds, i, x)
  {
    LocateAbove(hist, bounds, i + 1, below + hist[i], rank);
    NoMassYet(hist, bounds, i + 1, x);
    PartBounds(hist[i], Low(bounds, i), bounds[i], x);
  }

  lemma {:induction false} LocateLeast(hist: seq<nat>, bounds: seq<real>, i: nat, below: nat, rank: real, x: real)
    requires Boundaries(bounds) && |hist| == |bounds| + 1 && i <= |bounds| && below as real < rank
    requires Low(bounds, i) <= x < Top(bounds)
    ensures Locate(hist, bounds, i, below, rank) <= x <==> rank <= below as real + MassFrom(hist, bounds, i, x)
    decreases |bounds| - i
  {
    if x < bounds[i] {
      if (below + hist[i]) as real >= rank {
        LeastHere(hist, bounds, i, below, rank, x);
      } else {
        NotYet(hist, bounds, i, below, rank, x);
      }
    } else {
      WholeBucket(hist, bounds, i, x);
      if (below + hist[i]) as real >= rank {
        LocateInBucket(hist, bounds, i, below, rank);
      } else {
        LocateLeast(hist, bounds, i + 1, below + hist[i], rank, x);
      }
    }
  }

  /** Inside the bucket that reaches the rank. */
  lemma LocateHere(lo: real, hi: real, below: nat, count: nat, rank: real, x: real)
    requires lo <= x < hi && below as real < rank <= (below + count) as real
    ensures lo + (hi - lo) * ((rank - below as real) / count as real) <= x <==>
            rank <= below as real + Part(count, lo, hi, x)
  {
    Interpolate(lo, hi, rank - below as real, count as real, x);
    if x == lo {
      assert count as real * ((x - lo) / (hi - lo)) == 0.0;
    }
  }

  /** The percentile is the least latency that covers the rank, or the top when nothing below it does. */
  lemma PercentileLeast(hist: seq<nat>, bounds: seq<real>, pct: real, x: real)
    requires Boundaries(bounds) && Usable(hist, bounds) && pct > 0.0 && 0.0 <= x < Top(bounds)
    requires Sum(hist) as real * pct > 0.0
    ensures PercentileAt(hist, bounds, pct) <= x <==> Sum(hist) as real * pct <= Mass(hist, bounds, x)
  {
    LocateLeast(hist, bounds, 0, 0, Sum(hist) as real * pct, x);
  }

  lemma RankPositive(hist: seq<nat>, pct: real)
    requires Sum(hist) > 0 && pct > 0.0
    ensures Sum(hist) as real * pct > 0.0
  {
  }

  lemma PercentileRange(hist: seq<nat>, bounds: seq<real>, pct: real)
    requires Boundaries(bounds) && Usable(hist, bounds) && pct > 0.0
    ensures 0.0 < PercentileAt(hist, bounds, pct) <= Top(bounds)
  {
    RankPositive(hist, pct);
    LocateAbove(hist, bounds, 0, 0, Sum(hist) as real * pct);
  }

  // ----- order -----

  /** A larger share never has a smaller percentile. */
  lemma PercentileMonotone(hist: seq<nat>, bounds: seq<real>, p: real, q: real)
    requires Boundaries(bounds) && Usable(hist, bounds) && 0.0 < p <= q
    ensures PercentileAt(hist, bounds, p) <= PercentileAt(hist, bounds, q)
  {
    var x := PercentileAt(hist, bounds, q);
    PercentileRange(hist, bounds, p);
    PercentileRange(hist, bounds, q);
    RankPositive(hist, p);
    RankPositive(hist, q);
    if x < Top(bounds) {
      PercentileLeast(hist, bounds, p, x);
      PercentileLeast(hist, bounds, q, x);
      Scale(Sum(hist) as real, p, q);
    }
  }

  /** Never a negative latency, and p50 <= p95 <= p99. */
  lemma PercentilesOrdered(hist: seq<nat>, bounds: seq<real>)
    requires bounds != [] ==> Boundaries(bounds)
    ensures var p := PercentilesOf(hist, bounds); 0.0 <= p.p50 <= p.p95 <= p.p99
  {
    if Usable(hist, bounds) {
      PercentileRange(hist, bounds, 0.50);
      PercentileMonotone(hist, bounds, 0.50, 0.95);
      PercentileMonotone(hist, bounds, 0.95, 0.99);
    }
  }

  // ----- the bucket that brackets it -----

  function Below(hist: seq<nat>, i: nat): nat
    requires i <= |hist|
  {
    Sum(hist[..i])
  }

  /** The bucket whose cumulative count is the first to reach the rank. */
  predicate Reaches(hist: seq<nat>, i: nat, rank: real) {
    i < |hist| && Below(hist, i) as real < rank <= Below(hist, i + 1) as real
  }

  lemma BelowNext(hist: seq<nat>, i: nat)
    requires i < |hist|
    ensures Below(hist, i + 1) == Below(hist, i) + hist[i]
  {
    assert hist[..i + 1][..i] == hist[..i];
  }

  lemma {:induction false} LocateBracketed(hist: seq<nat>, bounds: seq<real>, i: nat, rank: real, k: nat)
    requires Boundaries(bounds) && |hist| == |bounds| + 1 && i <= k < |hist|
    requires Below(hist, i) as real < rank && Reaches(hist, k, rank)
    ensures var x := Locate(hist, bounds, i, Below(hist, i), rank);
            Low(bounds, k) <= x <= if k < |bounds| then bounds[k] else Top(bounds)
    decreases k - i
  {
    BelowNext(hist, i);
    if i < k {
      BelowMonotone(hist, i + 1, k);
      LocateBracketed(hist, bounds, i + 1, rank, k);
    } else if i < |bounds| {
      LocateInBucket(hist, bounds, i, Below(hist, i), rank);
    }
  }

  lemma {:induction false} BelowMonotone(hist: seq<nat>, i: nat, k: nat)
    requires i <= k <= |hist|
    ensures Below(hist, i) <= Below(hist, k)
    decreases k - i
  {
    if i < k {
      BelowNext(hist, k - 1);
      BelowMonotone(hist, i, k - 1);
    }
  }

  /** The result lies between the boundaries of the bucket that holds the rank. */
  lemma PercentileBracketed(hist: seq<nat>, bounds: seq<real>, pct: real, k: nat)
    requires Boundaries(bounds) && Usable(hist, bounds) && pct > 0.0
    requires Reaches(hist, k, Sum(hist) as real * pct)
    ensures var x := PercentileAt(hist, bounds, pct);
            Low(bounds, k) <= x <= if k < |bounds| then bounds[k] else Top(bounds)
  {
    RankPositive(hist, pct);
    LocateBracketed(hist, bounds, 0, Sum(hist) as real * pct, k);
  }

  // ----- summed histograms -----

  function AddHist(a: seq<nat>, b: seq<nat>): (c: seq<nat>)
    requires |a| == |b|
    ensures |c| == |a|
  {
    seq(|a|, i requires 0 <= i < |a| => a[i] + b[i])
  }

  lemma {:induction false} SumAdds(a: seq<nat>, b: seq<nat>)
    requires |a| == |b|
    ensures Sum(AddHist(a, b)) == Sum(a) + Sum(b)
  {
    if a != [] {
      var n := |a| - 1;
      assert AddHist(a, b)[..n] == AddHist(a[..n], b[..n]);
      SumAdds(a[..n], b[..n]);
    }
  }

  lemma PartAdds(c: nat, d: nat, lo: real, hi: real, x: real)
    requires lo < hi
    ensures Part(c + d, lo, hi, x) == Part(c, lo, hi, x) + Part(d, lo, hi, x)
  {
    if lo < x < hi {
      var f := (x - lo) / (hi - lo);
      assert (c + d) as real * f == c as real * f + d as real * f;
    }
  }

  lemma {:induction false} MassAdds(a: seq<nat>, b: seq<nat>, bounds: seq<real>, i: nat, x: real)
    requires Boundaries(bounds) && |a| == |b| == |bounds| + 1 && i <= |bounds|
    ensures MassFrom(AddHist(a, b), bounds, i, x) == MassFrom(a, bounds, i, x) + MassFrom(b, bounds, i, x)
    decreases |bounds| - i
  {
    if i < |bounds| {
      PartAdds(a[i], b[i], Low(bounds, i), bounds[i], x);
      MassAdds(a, b, bounds, i + 1, x);
    }
  }

  /** A percentile of two summed histograms lies between those of the parts. */
  lemma PercentileBetween(a: seq<nat>, b: seq<nat>, bounds: seq<real>, pct: real)
    requires Boundaries(bounds) && Usable(a, bounds) && Usable(b, bounds) && pct > 0.0
    ensures Usable(AddHist(a, b), bounds)
    ensures var x, y, z := PercentileAt(a, bounds, pct), PercentileAt(b, bounds, pct),
                           PercentileAt(AddHist(a, b), bounds, pct);
            (if x <= y then x else y) <= z <= (if x <= y then y else x)
  {
    SumAdds(a, b);
    BetweenAbove(a, b, bounds, pct);
    BetweenBelow(a, b, bounds, pct);
  }

  lemma RanksAdd(a: seq<nat>, b: seq<nat>, pct: real)
    requires |a| == |b|
    ensures Sum(AddHist(a, b)) as real * pct == Sum(a) as real * pct + Sum(b) as real * pct
  {
    SumAdds(a, b);
    assert (Sum(a) + Sum(b)) as real * pct == Sum(a) as real * pct + Sum(b) as real * pct;
  }

  lemma BetweenAbove(a: seq<nat>, b: seq<nat>, bounds: seq<real>, pct: real)
    requires Boundaries(bounds) && Usable(a, bounds) && Usable(b, bounds) && pct > 0.0
    requires Usable(AddHist(a, b), bounds)
    ensures var x, y := PercentileAt(a, bounds, pct), PercentileAt(b, bounds, pct);
            PercentileAt(AddHist(a, b), bounds, pct) <= if x <= y then y else x
  {
    var x, y := PercentileAt(a, bounds, pct), PercentileAt(b, bounds, pct);
    var m := if x <= y then y else x;
    PercentileRange(a, bounds, pct);
    PercentileRange(b, bounds, pct);
    PercentileRange(AddHist(a, b), bounds, pct);
    if m < Top(bounds) {
      RankPositive(a, pct);
      RankPositive(b, pct);
      RankPositive(AddHist(a, b), pct);
      PercentileLeast(a, bounds, pct, m);
      PercentileLeast(b, bounds, pct, m);
      PercentileLeast(AddHist(a, b), bounds, pct, m);
      MassAdds(a, b, bounds, 0, m);
      RanksAdd(a, b, pct);
    }
  }

  lemma BetweenBelow(a: seq<nat>, b: seq<nat>, bounds: seq<real>, pct: real)
    requires Boundaries(bounds) && Usable(a, bounds) && Usable(b, bounds) && pct > 0.0
    requires Usable(AddHist(a, b), bounds)
    ensures var x, y := PercentileAt(a, bounds, pct), PercentileAt(b, bounds, pct);
            (if x <= y then x else y) <= PercentileAt(AddHist(a, b), bounds, pct)
  {
    var z := PercentileAt(AddHist(a, b), bounds, pct);
    PercentileRange(a, bounds, pct);
    PercentileRange(b, bounds, pct);
    PercentileRange(AddHist(a, b), bounds, pct);
    if z < Top(bounds) {
      RankPositive(a, pct);
      RankPositive(b, pct);
      RankPositive(AddHist(a, b), pct);
      PercentileLeast(a, bounds, pct, z);
      PercentileLeast(b, bounds, pct, z);
      PercentileLeast(AddHist(a, b), bounds, pct, z);
      MassAdds(a, b, bounds, 0, z);
      RanksAdd(a, b, pct);
    }
  }

  // ----- all observations in one bucket -----

  /** All observations are in bucket `i`. */
  predicate OnlyIn(hist: seq<nat>, i: nat) {
    i < |hist| && hist[i] > 0 && forall k :: 0 <= k < |hist| && k != i ==> hist[k] == 0
  }

  lemma {:induction false} OnlySum(hist: seq<nat>, i: nat)
    requires forall k :: 0 <= k < |hist| && k != i ==> hist[k] == 0
    ensures Sum(hist) == if i < |hist| then hist[i] else 0
    decreases |hist|
  {
    if hist != [] {
      OnlySum(hist[..|hist| - 1], i);
    }
  }

  lemma ShareOf(n: nat, pct: real)
    requires n > 0
    ensures (n as real * pct) / n as real == pct
  {
  }

  lemma {:induction false} OnlyLocated(hist: seq<nat>, bounds: seq<real>, i: nat, j: nat, pct: real)
    requires bounds != [] && |hist| == |bounds| + 1 && OnlyIn(hist, i) && j <= i && 0.0 < pct <= 1.0
    ensures hist[i] as real * pct > 0.0
    ensures Locate(hist, bounds, j, 0, hist[i] as real * pct) ==
            if i == |bounds| then Top(bounds) else Low(bounds, i) + (bounds[i] - Low(bounds, i)) * pct
    decreases i - j
  {
    var rank := hist[i] as real * pct;
    assert rank <= hist[i] as real;
    if j < i {
      OnlyLocated(hist, bounds, i, j + 1, pct);
    } else if i < |bounds| {
      ShareOf(hist[i], pct);
    }
  }

  lemma OnlyAt(hist: seq<nat>, bounds: seq<real>, i: nat, pct: real)
    requires bounds != [] && |hist| == |bounds| + 1 && OnlyIn(hist, i) && 0.0 < pct <= 1.0
    ensures Usable(hist, bounds)
    ensures PercentileAt(hist, bounds, pct) ==
            if i == |bounds| then Top(bounds) else Low(bounds, i) + (bounds[i] - Low(bounds, i)) * pct
  {
    OnlySum(hist, i);
    var rank := Sum(hist) as real * pct;
    OnlyLocated(hist, bounds, i, 0, pct);
    assert rank == hist[i] as real * pct;
    assert PercentileAt(hist, bounds, pct) == Locate(hist, bounds, 0, 0, rank);
    assert Locate(hist, bounds, 0, 0, rank) == Locate(hist, bounds, 0, 0, hist[i] as real * pct);
  }

  /**
   The three shares and the unit: when all observations are in one bucket, the percentiles lie
   50, 95 and 99 hundredths into it, in milliseconds; behind the last boundary they are that boundary.
   */
  lemma OneBucket(hist: seq<nat>, bounds: seq<real>, i: nat)
    requires bounds != [] && |hist| == |bounds| + 1 && OnlyIn(hist, i)
    ensures var lo := if i == 0 then 0.0 else bounds[i - 1];
            var wide := if i == |bounds| then 0.0 else bounds[i] - lo;
            PercentilesOf(hist, bounds) ==
            Percentiles((lo + wide * 0.50) * 1000.0, (lo + wide * 0.95) * 1000.0, (lo + wide * 0.99) * 1000.0)
  {
    OnlyAt(hist, bounds, i, 0.50);
    OnlyAt(hist, bounds, i, 0.95);
    OnlyAt(hist, bounds, i, 0.99);
  }

  // ----- the loops -----

  method PercentileFromHistogram(hist: seq<nat>, bounds: seq<real>) returns (p: Percentiles)
    ensures p == PercentilesOf(hist, bounds)
  {
    if |hist| == 0 || |bounds| == 0 {
      return NONE;
    }
    if |hist| != |bounds| + 1 {
      return NONE;
    }
    var total := 0;
    for i := 0 to |hist|
      invariant total == Below(hist, i)
    {
      BelowNext(hist, i);
      total := total + hist[i];
    }
    assert hist[..|hist|] == hist;
    if total == 0 {
      return NONE;
    }
    var cum := new nat[|hist|];
    cum[0] := hist[0];
    BelowNext(hist, 0);
    for i := 1 to |hist|
      invariant forall k :: 0 <= k < i ==> cum[k] == Below(hist, k + 1)
    {
      BelowNext(hist, i);
      cum[i] := cum[i - 1] + hist[i];
    }
    var p50 := SearchCumulative(hist, bounds, cum, total, 0.50);
    var p95 := SearchCumulative(hist, bounds, cum, total, 0.95);
    var p99 := SearchCumulative(hist, bounds, cum, total, 0.99);
    return Percentiles(p50 * 1000.0, p95 * 1000.0, p99 * 1000.0);
  }

  lemma SearchStart(hist: seq<nat>, bounds: seq<real>, total: nat, pct: real)
    requires Usable(hist, bounds) && pct > 0.0 && total == Sum(hist)
    ensures total as real * pct > 0.0 && Below(hist, 0) == 0
    ensures Locate(hist, bounds, 0, Below(hist, 0), total as real * pct) == PercentileAt(hist, bounds, pct)
  {
    var rank := Sum(hist) as real * pct;
    assert total as real * pct == rank by {
      assert total as real == Sum(hist) as real;
      Scale(pct, total as real, Sum(hist) as real);
      Scale(pct, Sum(hist) as real, total as real);
    }
    assert Below(hist, 0) == 0;
  }

  /** percentileAt */
  method SearchCumulative(hist: seq<nat>, bounds: seq<real>, cum: array<nat>, total: nat, pct: real) returns (x: real)
    requires Usable(hist, bounds) && pct > 0.0 && total == Sum(hist)
    requires cum.Length == |hist| && forall k :: 0 <= k < |hist| ==> cum[k] == Below(hist, k + 1)
    ensures x == PercentileAt(hist, bounds, pct)
  {
    var rank := total as real * pct;
    RankPositive(hist, pct);
    SearchStart(hist, bounds, total, pct);
    for i := 0 to |hist|
      invariant Below(hist, i) as real < rank
      invariant i < |hist| ==> Locate(hist, bounds, i, Below(hist, i), rank) == PercentileAt(hist, bounds, pct)
      invariant i == |hist| ==> Top(bounds) == PercentileAt(hist, bounds, pct)
    {
      BelowNext(hist, i);
      if cum[i] as real >= rank {
        if i == |hist| - 1 {
          return bounds[|bounds| - 1];
        }
        if i == 0 {
          FirstBucket(bounds[0], rank, cum[0] as real);
          return bounds[0] * (rank / cum[i] as real);
        }
        BelowNext(hist, i - 1);
        var frac := (rank - cum[i - 1] as real) / (cum[i] - cum[i - 1]) as real;
        return bounds[i - 1] + (bounds[i] - bounds[i - 1]) * frac;
      }
    }
    return bounds[|bounds| - 1];
  }

  lemma FirstBucket(b: real, rank: real, count: real)
    requires count > 0.0
    ensures 0.0 + (b - 0.0) * ((rank - 0.0) / count) == b * (rank / count)
  {
  }
}
