/** The latency tracker: a reservoir of samples, percentiles of a sorted snapshot, and the smoothed P99. */
module Latency {
  import opened Arithmetic

  // ----- Sorting and counting -----

  ghost predicate Sorted(s: seq<real>) {
    forall i, j :: 0 <= i < j < |s| ==> s[i] <= s[j]
  }

  function Insert(x: real, s: seq<real>): seq<real> {
    if s == [] || x <= s[0] then [x] + s else [s[0]] + Insert(x, s[1..])
  }

  /** Stands for the library sort. */
  function Sort(s: seq<real>): (t: seq<real>)
    ensures |t| == |s|
  {
    if s == [] then [] else
      InsertFacts(s[0], Sort(s[1..]), 0.0);
      Insert(s[0], Sort(s[1..]))
  }

  /** Samples no greater than v. */
  function AtMost(s: seq<real>, v: real): nat {
    if s == [] then 0 else (if s[0] <= v then 1 else 0) + AtMost(s[1..], v)
  }

  /** Samples no less than v. */
  function AtLeast(s: seq<real>, v: real): nat {
    if s == [] then 0 else (if s[0] >= v then 1 else 0) + AtLeast(s[1..], v)
  }

  lemma {:induction false} InsertFacts(x: real, s: seq<real>, v: real)
    ensures |Insert(x, s)| == |s| + 1
    ensures AtMost(Insert(x, s), v) == (if x <= v then 1 else 0) + AtMost(s, v)
    ensures AtLeast(Insert(x, s), v) == (if x >= v then 1 else 0) + AtLeast(s, v)
    ensures forall y :: y in Insert(x, s) <==> y == x || y in s
  {
    if s == [] || x <= s[0] {
      assert ([x] + s)[1..] == s;
    } else {
      InsertFacts(x, s[1..], v);
      assert ([s[0]] + Insert(x, s[1..]))[1..] == Insert(x, s[1..]);
      assert s == [s[0]] + s[1..];
    }
  }

  lemma {:induction false} InsertSorted(x: real, s: seq<real>)
    requires Sorted(s)
    ensures Sorted(Insert(x, s))
  {
    if s != [] && x > s[0] {
      InsertSorted(x, s[1..]);
      InsertFacts(x, s[1..], x);
      var t := Insert(x, s[1..]);
      forall j | 0 <= j < |t|
        ensures s[0] <= t[j]
      {
        assert t[j] in t;
      }
    }
  }

  /** The sort orders the samples and keeps every count. */
  lemma {:induction false} SortFacts(s: seq<real>, v: real)
    ensures Sorted(Sort(s))
    ensures AtMost(Sort(s), v) == AtMost(s, v) && AtLeast(Sort(s), v) == AtLeast(s, v)
    ensures forall y :: y in Sort(s) <==> y in s
  {
    if s != [] {
      SortFacts(s[1..], v);
      InsertSorted(s[0], Sort(s[1..]));
      InsertFacts(s[0], Sort(s[1..]), v);
      assert s == [s[0]] + s[1..];
    }
  }

  lemma {:induction false} SortedCounts(s: seq<real>, k: nat)
    requires Sorted(s) && k < |s|
    ensures AtMost(s, s[k]) >= k + 1 && AtLeast(s, s[k]) >= |s| - k
  {
    if k > 0 {
      SortedCounts(s[1..], k - 1);
    } else {
      assert s[0] <= s[k];
      AllAtLeast(s, s[0]);
    }
  }

  lemma {:induction false} AllAtLeast(s: seq<real>, v: real)
    requires forall i :: 0 <= i < |s| ==> s[i] >= v
    ensures AtLeast(s, v) == |s|
  {
    if s != [] { AllAtLeast(s[1..], v); }
  }

  // ----- Percentiles -----

  function RankIndex(n: nat, p: real): (k: nat)
    requires n >= 1 && 0.0 <= p <= 100.0
    ensures k < n
    ensures k as real <= n as real * p / 100.0
    ensures k == n - 1 || n as real * p / 100.0 < (k + 1) as real
  {
    Products(n as real, 0.0, p);
    var x := n as real * p / 100.0;
    var idx := x.Floor;
    if idx >= n then n - 1 else idx
  }

  /** The p-th percentile of a sorted list. */
  function Pctile(sorted: seq<real>, p: real): real
    requires 0.0 <= p <= 100.0
  {
    if sorted == [] then 0.0 else sorted[RankIndex(|sorted|, p)]
  }

  lemma FloorMonotone(x: real, y: real)
    requires x <= y
    ensures x.Floor <= y.Floor
  {
  }

  lemma RankMonotone(n: nat, p: real, q: real)
    requires n >= 1 && 0.0 <= p <= q <= 100.0
    ensures RankIndex(n, p) <= RankIndex(n, q)
  {
    Products(n as real, p, q);
    FloorMonotone(n as real * p / 100.0, n as real * q / 100.0);
    Products(n as real, 0.0, p);
    Products(n as real, 0.0, q);
  }

  /** The four percentiles a materialisation stores are ordered. */
  lemma FourOrdered(samples: seq<real>)
    ensures var s := Sort(samples);
            Pctile(s, 50.0) <= Pctile(s, 90.0) <= Pctile(s, 99.0) <= Pctile(s, 99.9)
  {
    var s := Sort(samples);
    SortFacts(samples, 0.0);
    hide Pctile, Sort;
    PctileMonotone(s, 50.0, 90.0);
    PctileMonotone(s, 90.0, 99.0);
    PctileMonotone(s, 99.0, 99.9);
  }

  lemma PctileMonotone(s: seq<real>, p: real, q: real)
    requires Sorted(s) && 0.0 <= p <= q <= 100.0
    ensures Pctile(s, p) <= Pctile(s, q)
  {
    if s != [] { RankMonotone(|s|, p, q); }
  }

  /**
   A percentile of the reservoir is one of its samples; more than p percent of the samples, or all of them, are
   no greater, and at least 100 - p percent are no less.
   */
  lemma PctileRank(samples: seq<real>, p: real)
    requires samples != [] && 0.0 <= p <= 100.0
    ensures var v, n := Pctile(Sort(samples), p), |samples|;
            v in samples
            && (AtMost(samples, v) as real > n as real * p / 100.0 || AtMost(samples, v) >= n)
            && AtLeast(samples, v) as real >= n as real * (100.0 - p) / 100.0
  {
    var s := Sort(samples);
    var k := RankIndex(|s|, p);
    SortFacts(samples, s[k]);
    SortedCounts(s, k);
    assert s[k] in s;
    var n := |samples| as real;
    assert n * (100.0 - p) / 100.0 == n - n * p / 100.0;
  }

  // ----- The smoothed P99 -----

  /** The first raw value seeds the average; each later one is blended in with weight alpha. */
  function Ewma(alpha: real, raws: seq<real>): real
    requires raws != []
  {
    var n := |raws| - 1;
    if n == 0 then raws[0] else alpha * raws[n] + (1.0 - alpha) * Ewma(alpha, raws[..n])
  }

  lemma EwmaSnoc(alpha: real, beta: real, raws: seq<real>, x: real)
    requires beta == 1.0 - alpha
    ensures Ewma(alpha, raws + [x]) == if raws == [] then x else alpha * x + beta * Ewma(alpha, raws)
  {
    assert (raws + [x])[..|raws|] == raws;
  }

  lemma Blend(alpha: real, x: real, y: real, lo: real, hi: real)
    requires 0.0 <= alpha <= 1.0 && lo <= x <= hi && lo <= y <= hi
    ensures lo <= alpha * x + (1.0 - alpha) * y <= hi
  {
    if x >= y { Fraction(alpha, y, x); } else { Fraction(alpha, x, y); }
  }

  lemma Fraction(alpha: real, a: real, b: real)
    requires 0.0 <= alpha <= 1.0 && a <= b
    ensures 0.0 <= alpha * b - alpha * a <= b - a
  {
    var rest, d := 1.0 - alpha, b - a;
    Positive(alpha, d);
    Positive(rest, d);
    Distribute(alpha, rest, a, b, d);
  }

  lemma Distribute(alpha: real, rest: real, a: real, b: real, d: real)
    requires d == b - a && rest == 1.0 - alpha
    ensures alpha * d == alpha * b - alpha * a
    ensures rest * d == d - alpha * d
  {
  }

  /** The average never leaves the range of the raw values since the last reset. */
  lemma {:induction false} EwmaInRange(alpha: real, raws: seq<real>, lo: real, hi: real)
    requires 0.0 <= alpha <= 1.0 && raws != [] && forall i :: 0 <= i < |raws| ==> lo <= raws[i] <= hi
    ensures lo <= Ewma(alpha, raws) <= hi
  {
    var n := |raws| - 1;
    if n > 0 {
      EwmaInRange(alpha, raws[..n], lo, hi);
      Blend(alpha, raws[n], Ewma(alpha, raws[..n]), lo, hi);
    }
  }

  function Power(x: real, n: nat): real {
    if n == 0 then 1.0 else x * Power(x, n - 1)
  }

  function Repeat(x: real, n: nat): seq<real> { seq(n, _ => x) }

  /** Towards a constant input the error shrinks by exactly (1 - alpha) per step. */
  lemma EwmaContracts(alpha: real, raws: seq<real>, x: real, n: nat)
    requires raws != []
    ensures Ewma(alpha, raws + Repeat(x, n)) - x == Power(1.0 - alpha, n) * (Ewma(alpha, raws) - x)
  {
    hide *;
    var beta := 1.0 - alpha;
    EwmaShrinks(alpha, beta, raws, x, n);
    assert Power(beta, n) == Power(1.0 - alpha, n);
  }

  lemma {:induction false} EwmaShrinks(alpha: real, beta: real, raws: seq<real>, x: real, n: nat)
    requires raws != [] && beta == 1.0 - alpha
    ensures Ewma(alpha, raws + Repeat(x, n)) - x == Power(beta, n) * (Ewma(alpha, raws) - x)
  {
    hide Ewma;
    if n == 0 {
      assert raws + Repeat(x, 0) == raws;
    } else {
      EwmaShrinks(alpha, beta, raws, x, n - 1);
      EwmaOnce(alpha, beta, raws, x, n);
      hide *;
      EwmaError(alpha, beta, raws, x, n);
    }
  }

  lemma EwmaError(alpha: real, beta: real, raws: seq<real>, x: real, n: nat)
    requires raws != [] && n > 0 && beta == 1.0 - alpha
    requires Ewma(alpha, raws + Repeat(x, n)) == alpha * x + beta * Ewma(alpha, raws + Repeat(x, n - 1))
    requires Ewma(alpha, raws + Repeat(x, n - 1)) - x == Power(beta, n - 1) * (Ewma(alpha, raws) - x)
    ensures Ewma(alpha, raws + Repeat(x, n)) - x == Power(beta, n) * (Ewma(alpha, raws) - x)
  {
    hide *;
    PowerStep(beta, n);
    Shrink(alpha, beta, Ewma(alpha, raws + Repeat(x, n - 1)), Ewma(alpha, raws + Repeat(x, n)), x,
      Power(beta, n - 1), Power(beta, n), Ewma(alpha, raws));
  }

  lemma PowerStep(x: real, n: nat)
    requires n > 0
    ensures Power(x, n) == x * Power(x, n - 1)
  {
  }

  lemma EwmaOnce(alpha: real, beta: real, raws: seq<real>, x: real, n: nat)
    requires raws != [] && n > 0 && beta == 1.0 - alpha
    ensures Ewma(alpha, raws + Repeat(x, n)) == alpha * x + beta * Ewma(alpha, raws + Repeat(x, n - 1))
  {
    assert raws + Repeat(x, n) == (raws + Repeat(x, n - 1)) + [x];
    hide Ewma, Repeat;
    EwmaSnoc(alpha, beta, raws + Repeat(x, n - 1), x);
  }

  lemma Shrink(alpha: real, beta: real, e: real, e': real, x: real, p: real, q: real, f: real)
    requires beta == 1.0 - alpha && e - x == p * (f - x) && q == beta * p && e' == alpha * x + beta * e
    ensures e' - x == q * (f - x)
  {
    assert beta * x == x - alpha * x;
    assert e' - x == beta * (e - x);
    assert beta * (p * (f - x)) == (beta * p) * (f - x);
  }

  // ----- The object -----

  class LatencyTracker {
    var samples: seq<real>
    var count: int
    const size: nat
    const alpha: real
    var seeded: bool
    var p50: real
    var p90: real
    var p99: real
    var p999: real
    var p99Smoothed: real
    ghost var arrivals: seq<real>   // every sample added since the last reset
    ghost var origin: seq<nat>      // which arrival each reservoir slot holds
    ghost var raws: seq<real>       // raw P99 of each materialisation since the last reset

    ghost predicate Valid()
      reads this
    {
      && size >= 1 && 0.0 < alpha <= 1.0
      && count == |arrivals|
      && |samples| == |origin| == (if count <= size then count else size)
      && (forall i :: 0 <= i < |origin| ==> origin[i] < |arrivals| && samples[i] == arrivals[origin[i]])
      && (forall i, j :: 0 <= i < j < |origin| ==> origin[i] != origin[j])
      && (seeded <==> raws != [])
      && p99Smoothed == (if raws == [] then 0.0 else Ewma(alpha, raws))
    }

    constructor (windowSize: int, alpha: real)
      requires 0.0 < alpha <= 1.0
      ensures Valid() && arrivals == [] && raws == [] && size == (if windowSize < 1 then 1 else windowSize)
    {
      size := if windowSize < 1 then 1 else windowSize;
      this.alpha := alpha;
      samples, count, seeded := [], 0, false;
      p50, p90, p99, p999, p99Smoothed := 0.0, 0.0, 0.0, 0.0, 0.0;
      arrivals, origin, raws := [], [], [];
    }

    /** `draw` is the random number the source draws below the new count; it matters once the reservoir is full. */
    method Add(latencyMs: real, draw: nat)
      requires Valid() && draw <= count
      modifies this`samples, this`count, this`arrivals, this`origin
      ensures Valid() && arrivals == old(arrivals) + [latencyMs]
      ensures samples == if |old(samples)| < size then old(samples) + [latencyMs]
                         else if draw < size then old(samples)[draw := latencyMs]
                         else old(samples)
    {
      count := count + 1;
      arrivals := arrivals + [latencyMs];
      if |samples| < size {
        samples := samples + [latencyMs];
        origin := origin + [|arrivals| - 1];
      } else if draw < size {
        samples := samples[draw := latencyMs];
        origin := origin[draw := |arrivals| - 1];
      }
    }

    method Materialize()
      requires Valid()
      modifies this`seeded, this`p50, this`p90, this`p99, this`p999, this`p99Smoothed, this`raws
      ensures Valid()
      ensures samples == [] ==> unchanged(this)
      ensures samples != [] ==>
        var s := Sort(samples);
        p50 == Pctile(s, 50.0) && p90 == Pctile(s, 90.0) && p99 == Pctile(s, 99.0) && p999 == Pctile(s, 99.9)
        && p50 <= p90 <= p99 <= p999 && raws == old(raws) + [p99]
    {
      hide Sort, Pctile, Ewma;
      var snap := samples;
      if |snap| == 0 { return; }
      snap := Sort(snap);
      FourOrdered(samples);
      var raw99 := Pctile(snap, 99.0);
      p50 := Pctile(snap, 50.0);
      p90 := Pctile(snap, 90.0);
      p99 := raw99;
      p999 := Pctile(snap, 99.9);
      EwmaSnoc(alpha, 1.0 - alpha, raws, raw99);
      raws := raws + [raw99];
      if !seeded {
        p99Smoothed := raw99;
        seeded := true;
      } else {
        p99Smoothed := alpha * raw99 + (1.0 - alpha) * p99Smoothed;
      }
    }

    method Reset()
      requires Valid()
      modifies this
      ensures Valid() && arrivals == [] && raws == [] && samples == [] && !seeded
      ensures p50 == p90 == p99 == p999 == p99Smoothed == 0.0
    {
      samples, count, seeded := [], 0, false;
      p50, p90, p99, p999, p99Smoothed := 0.0, 0.0, 0.0, 0.0, 0.0;
      arrivals, origin, raws := [], [], [];
    }
  }
}
