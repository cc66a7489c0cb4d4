/** Merging per-label cumulative histograms and estimating a quantile of the merge.
    Bounds, sums and the interpolation are real numbers; counts are 64-bit and wrap. */
module Histogram {
  import opened Provider

  const TWO64 := 0x1_0000_0000_0000_0000

  function U64(n: int): int {
    n % TWO64
  }

  datatype Bucket = Bucket(upper: real, count: int)

  datatype Hist = Hist(sampleCount: int, sampleSum: real, buckets: seq<Bucket>)

  const EMPTY := Hist(0, 0.0, [])

  // ---- What a histogram means ----

  function CountLe(samples: seq<real>, bound: real): nat {
    if samples == [] then 0
    else CountLe(samples[..|samples| - 1], bound) + if samples[|samples| - 1] <= bound then 1 else 0
  }

  function Sum(samples: seq<real>): real {
    if samples == [] then 0.0 else Sum(samples[..|samples| - 1]) + samples[|samples| - 1]
  }

  /** The cumulative histogram that a label set reports after observing `samples`. */
  function Observe(bounds: seq<real>, samples: seq<real>): Hist {
    Hist(U64(|samples|), Sum(samples),
         seq(|bounds|, i requires 0 <= i < |bounds| => Bucket(bounds[i], U64(CountLe(samples, bounds[i])))))
  }

  function Concat(groups: seq<seq<real>>): seq<real> {
    if groups == [] then [] else Concat(groups[..|groups| - 1]) + groups[|groups| - 1]
  }

  // ---- The merge ----

  /** The bucket slots after adding the first n buckets of `more`. */
  function AddBuckets(out: seq<Bucket>, more: seq<Bucket>, n: nat): seq<Bucket>
    requires n <= |out| && n <= |more|
  {
    seq(|out|, i requires 0 <= i < |out| =>
      if i < n then Bucket(out[i].upper, U64(out[i].count + more[i].count)) else out[i])
  }

  function Add(out: Hist, metric: Option<Hist>): Hist {
    match metric
    case None => out
    case Some(h) =>
      var n := if |h.buckets| < |out.buckets| then |h.buckets| else |out.buckets|;
      Hist(U64(out.sampleCount + h.sampleCount), out.sampleSum + h.sampleSum,
           AddBuckets(out.buckets, h.buckets, n))
  }

  function Blank(h: Hist): Hist {
    Hist(0, 0.0, seq(|h.buckets|, i requires 0 <= i < |h.buckets| => Bucket(h.buckets[i].upper, 0)))
  }

  function AddAll(out: Hist, metrics: seq<Option<Hist>>): Hist {
    if metrics == [] then out else Add(AddAll(out, metrics[..|metrics| - 1]), metrics[|metrics| - 1])
  }

  function Merged(metrics: seq<Option<Hist>>): Hist {
    if metrics == [] || metrics[0].None? then EMPTY else AddAll(Blank(metrics[0].value), metrics)
  }

  /** The buckets of h are added into the slots in place; extra ones are ignored. */
  method AddInPlace(slots: array<Bucket>, h: Hist)
    modifies slots
    ensures |h.buckets| <= slots.Length ==> slots[..] == AddBuckets(old(slots[..]), h.buckets, |h.buckets|)
    ensures |h.buckets| > slots.Length ==> slots[..] == AddBuckets(old(slots[..]), h.buckets, slots.Length)
  {
    var i := 0;
    while i < |h.buckets|
      invariant 0 <= i <= |h.buckets| && i <= slots.Length
      invariant slots[..] == AddBuckets(old(slots[..]), h.buckets, i)
    {
      if i >= slots.Length {
        break;
      }
      slots[i] := Bucket(slots[i].upper, U64(slots[i].count + h.buckets[i].count));
      i := i + 1;
    }
  }

  method MergeHistograms(metrics: seq<Option<Hist>>) returns (out: Hist)
    ensures out == Merged(metrics)
  {
    if |metrics| == 0 || metrics[0].None? {
      return EMPTY;
    }
    var first := metrics[0].value;
    var slots := new Bucket[|first.buckets|](i requires 0 <= i < |first.buckets| => Bucket(first.buckets[i].upper, 0));
    var count, sum := 0, 0.0;
    assert slots[..] == Blank(first).buckets;
    var k := 0;
    while k < |metrics|
      invariant 0 <= k <= |metrics|
      invariant Hist(count, sum, slots[..]) == AddAll(Blank(first), metrics[..k])
    {
      assert metrics[..k + 1][..k] == metrics[..k];
      if metrics[k].Some? {
        var h := metrics[k].value;
        count := U64(count + h.sampleCount);
        sum := sum + h.sampleSum;
        AddInPlace(slots, h);
      }
      k := k + 1;
    }
    assert metrics[..k] == metrics;
    out := Hist(count, sum, slots[..]);
  }

  lemma U64Fits(n: int)
    requires 0 <= n < TWO64
    ensures U64(n) == n
  {
  }

  lemma U64Add(a: int, b: int)
    ensures U64(U64(a) + U64(b)) == U64(a + b)
  {
  }

  // ---- The merge is the histogram of all samples ----

  lemma {:induction false} CountLeAppend(a: seq<real>, b: seq<real>, bound: real)
    ensures CountLe(a + b, bound) == CountLe(a, bound) + CountLe(b, bound)
  {
    if b == [] {
      assert a + b == a;
    } else {
      assert (a + b)[..|a + b| - 1] == a + b[..|b| - 1];
      CountLeAppend(a, b[..|b| - 1], bound);
    }
  }

  lemma {:induction false} SumAppend(a: seq<real>, b: seq<real>)
    ensures Sum(a + b) == Sum(a) + Sum(b)
  {
    if b == [] {
      assert a + b == a;
    } else {
      assert (a + b)[..|a + b| - 1] == a + b[..|b| - 1];
      SumAppend(a, b[..|b| - 1]);
    }
  }

  lemma ObserveAppend(bounds: seq<real>, a: seq<real>, b: seq<real>)
    ensures Add(Observe(bounds, a), Some(Observe(bounds, b))) == Observe(bounds, a + b)
  {
    hide Sum, CountLe, U64;
    SumAppend(a, b);
    U64Add(|a|, |b|);
    var l, r := Add(Observe(bounds, a), Some(Observe(bounds, b))).buckets, Observe(bounds, a + b).buckets;
    forall i | 0 <= i < |bounds|
      ensures l[i] == r[i]
    {
      CountLeAppend(a, b, bounds[i]);
      U64Add(CountLe(a, bounds[i]), CountLe(b, bounds[i]));
    }
    assert l == r;
  }

  /** Every label set reports its own samples under the same bounds; a metric that carries no
      histogram has no samples. */
  predicate Reports(metrics: seq<Option<Hist>>, bounds: seq<real>, groups: seq<seq<real>>) {
    |metrics| == |groups|
    && forall k :: 0 <= k < |metrics| ==>
         (metrics[k].None? && groups[k] == []) || metrics[k] == Some(Observe(bounds, groups[k]))
  }

  lemma {:induction false} AddAllReports(metrics: seq<Option<Hist>>, bounds: seq<real>, groups: seq<seq<real>>)
    requires Reports(metrics, bounds, groups)
    ensures AddAll(Observe(bounds, []), metrics) == Observe(bounds, Concat(groups))
  {
    if metrics == [] {
    } else {
      var n := |metrics| - 1;
      AddAllReports(metrics[..n], bounds, groups[..n]);
      ObserveAppend(bounds, Concat(groups[..n]), groups[n]);
      assert groups[n] == [] ==> Concat(groups[..n]) + groups[n] == Concat(groups[..n]);
    }
  }

  /** Merging the per-label histograms gives the histogram of all their samples together,
      exactly when the first metric carries a histogram: a missing first one hides the rest. */
  lemma {:induction false} MergeIsConcat(metrics: seq<Option<Hist>>, bounds: seq<real>, groups: seq<seq<real>>)
    requires Reports(metrics, bounds, groups) && bounds != []
    ensures Merged(metrics) == Observe(bounds, Concat(groups)) <==> metrics != [] && metrics[0].Some?
  {
    if metrics != [] && metrics[0].Some? {
      AddAllReports(metrics, bounds, groups);
      assert Blank(metrics[0].value).buckets == Observe(bounds, []).buckets;
    } else {
      assert |Observe(bounds, Concat(groups)).buckets| == |bounds|;
    }
  }

  /** With a missing first metric every observed sample disappears from the dashboard. */
  lemma MissingFirstHidesAll(bounds: seq<real>, samples: seq<real>)
    requires bounds != []
    ensures Reports([None, Some(Observe(bounds, samples))], bounds, [[], samples])
    ensures Merged([None, Some(Observe(bounds, samples))]) == EMPTY != Observe(bounds, samples)
  {
    assert |Observe(bounds, samples).buckets| == |bounds|;
  }

  // ---- The quantile ----

  /** The part of the width that t out of n samples take up. */
  function Share(t: real, n: real, width: real): real
    requires n > 0.0
  {
    t / n * width
  }

  function Interpolate(target: real, prevUpper: real, prevCount: int, b: Bucket): real {
    var width := b.upper - prevUpper;
    var inBucket := U64(b.count - prevCount) as real;
    if inBucket <= 0.0 || width <= 0.0 then b.upper
    else prevUpper + Share(target - prevCount as real, inBucket, width)
  }

  function Scan(target: real, prevUpper: real, prevCount: int, buckets: seq<Bucket>): real
    decreases |buckets|
  {
    if buckets == [] then prevUpper
    else if buckets[0].count as real >= target then Interpolate(target, prevUpper, prevCount, buckets[0])
    else Scan(target, buckets[0].upper, buckets[0].count, buckets[1..])
  }

  function Target(q: real, n: int): real {
    q * n as real
  }

  function Quantile(q: real, h: Hist): real {
    if h.sampleCount == 0 || h.buckets == [] then 0.0
    else Scan(Target(q, h.sampleCount), 0.0, 0, h.buckets)
  }

  method HistogramQuantile(q: real, h: Hist) returns (est: real)
    ensures est == Quantile(q, h)
  {
    if h.sampleCount == 0 || |h.buckets| == 0 {
      return 0.0;
    }
    var target := Target(q, h.sampleCount);
    var prevUpper, prevCount := 0.0, 0;
    var i := 0;
    while i < |h.buckets|
      invariant 0 <= i <= |h.buckets|
      invariant Scan(target, prevUpper, prevCount, h.buckets[i..]) == Quantile(q, h)
      invariant i > 0 ==> prevUpper == h.buckets[i - 1].upper
    {
      var b := h.buckets[i];
      if b.count as real >= target {
        var width := b.upper - prevUpper;
        var inBucket := U64(b.count - prevCount) as real;
        if inBucket <= 0.0 || width <= 0.0 {
          return b.upper;
        }
        var frac := (target - prevCount as real) / inBucket;
        return prevUpper + frac * width;
      }
      prevUpper := b.upper;
      prevCount := b.count;
      i := i + 1;
    }
    est := h.buckets[|h.buckets| - 1].upper;
  }

  /** Cumulative buckets: bounds and counts never go down. */
  predicate Cumulative(buckets: seq<Bucket>) {
    (forall i :: 0 <= i < |buckets| ==> 0 <= buckets[i].count < TWO64)
    && (forall i, j :: 0 <= i < j < |buckets| ==>
          buckets[i].upper <= buckets[j].upper && buckets[i].count <= buckets[j].count)
  }

  lemma ShareOrder(a: real, b: real, n: real, w: real)
    requires a <= b && n > 0.0 && w > 0.0
    ensures Share(a, n, w) <= Share(b, n, w)
  {
    var x, y := a / n, b / n;
    assert x <= y;
    assert y * w - x * w == (y - x) * w >= 0.0;
  }

  lemma SharePositive(t: real, n: real, w: real)
    requires t > 0.0 && n > 0.0 && w > 0.0
    ensures Share(t, n, w) > 0.0
  {
    var f := t / n;
    assert f > 0.0;
  }

  lemma ShareWhole(n: real, w: real)
    requires n > 0.0
    ensures Share(n, n, w) == w
  {
    assert n / n == 1.0;
  }

  lemma InterpolateMonotone(t1: real, t2: real, prevUpper: real, prevCount: int, b: Bucket)
    requires t1 <= t2
    ensures Interpolate(t1, prevUpper, prevCount, b) <= Interpolate(t2, prevUpper, prevCount, b)
  {
    hide Share, U64;
    var n := U64(b.count - prevCount) as real;
    var w := b.upper - prevUpper;
    if n > 0.0 && w > 0.0 {
      ShareOrder(t1 - prevCount as real, t2 - prevCount as real, n, w);
    }
  }

  /** Inside a bucket the estimate stays within the bucket's edges, strictly above the lower
      one when the target is beyond the count below. */
  lemma InterpolateWithin(target: real, prevUpper: real, prevCount: int, b: Bucket)
    requires 0 <= prevCount <= b.count < TWO64 && target <= b.count as real
    ensures Interpolate(target, prevUpper, prevCount, b) <= b.upper
    ensures b.upper <= prevUpper ==> Interpolate(target, prevUpper, prevCount, b) == b.upper
    ensures prevUpper < b.upper && prevCount as real < target ==> prevUpper < Interpolate(target, prevUpper, prevCount, b)
  {
    hide Share, U64;
    U64Fits(b.count - prevCount);
    var n, t, w := (b.count - prevCount) as real, target - prevCount as real, b.upper - prevUpper;
    if n > 0.0 && w > 0.0 {
      ShareOrder(t, n, n, w);
      ShareWhole(n, w);
      if t > 0.0 {
        SharePositive(t, n, w);
      }
    }
  }

  /** Past the count below, the scan never comes back under the edge it started from. */
  lemma {:induction false} ScanAbove(target: real, prevUpper: real, prevCount: int, buckets: seq<Bucket>)
    requires Cumulative(buckets) && prevCount as real < target
    requires buckets != [] ==> prevUpper <= buckets[0].upper && 0 <= prevCount <= buckets[0].count
    ensures prevUpper <= Scan(target, prevUpper, prevCount, buckets)
    decreases |buckets|
  {
    if buckets == [] {
    } else {
      if buckets[0].count as real >= target {
        InterpolateWithin(target, prevUpper, prevCount, buckets[0]);
      } else {
        assert Cumulative(buckets[1..]);
        ScanAbove(target, buckets[0].upper, buckets[0].count, buckets[1..]);
      }
    }
  }

  lemma {:induction false} ScanMonotone(t1: real, t2: real, prevUpper: real, prevCount: int, buckets: seq<Bucket>)
    requires Cumulative(buckets) && t1 <= t2
    requires buckets != [] ==> 0 <= prevCount <= buckets[0].count
    ensures Scan(t1, prevUpper, prevCount, buckets) <= Scan(t2, prevUpper, prevCount, buckets)
    decreases |buckets|
  {
    if buckets == [] {
    } else {
      var b := buckets[0];
      assert Cumulative(buckets[1..]);
      if b.count as real >= t2 {
        InterpolateMonotone(t1, t2, prevUpper, prevCount, b);
      } else if b.count as real >= t1 {
        InterpolateWithin(t1, prevUpper, prevCount, b);
        ScanAbove(t2, b.upper, b.count, buckets[1..]);
      } else {
        ScanMonotone(t1, t2, b.upper, b.count, buckets[1..]);
      }
    }
  }

  /** The estimate never decreases with q, for every real q and every cumulative histogram. */
  lemma QuantileMonotone(q1: real, q2: real, h: Hist)
    requires Cumulative(h.buckets) && h.sampleCount >= 0 && q1 <= q2
    ensures Quantile(q1, h) <= Quantile(q2, h)
  {
    var n := h.sampleCount as real;
    assert q2 * n - q1 * n == (q2 - q1) * n >= 0.0;
    if h.buckets != [] {
      ScanMonotone(Target(q1, h.sampleCount), Target(q2, h.sampleCount), 0.0, 0, h.buckets);
    }
  }

  // ---- The estimate against the true sample ----

  predicate Increasing(bounds: seq<real>) {
    forall i, j :: 0 <= i < j < |bounds| ==> bounds[i] < bounds[j]
  }

  predicate Ascending(s: seq<real>) {
    forall i, j :: 0 <= i <= j < |s| ==> s[i] <= s[j]
  }

  /** The first bucket whose bound admits v; |bounds| when none does. */
  function BucketOf(bounds: seq<real>, v: real): (i: nat)
    ensures i <= |bounds|
    ensures i < |bounds| ==> v <= bounds[i]
    ensures forall j :: 0 <= j < i ==> bounds[j] < v
  {
    if bounds == [] then 0
    else
      var i := BucketOf(bounds[..|bounds| - 1], v);
      if i < |bounds| - 1 || v <= bounds[i] then i else i + 1
  }

  lemma {:induction false} CountLeSplit(s: seq<real>, j: nat, bound: real)
    requires j < |s|
    ensures CountLe(s, bound) == CountLe(s[..j] + s[j + 1..], bound) + if s[j] <= bound then 1 else 0
  {
    assert s == s[..j] + ([s[j]] + s[j + 1..]);
    CountLeAppend(s[..j], [s[j]] + s[j + 1..], bound);
    CountLeAppend([s[j]], s[j + 1..], bound);
    CountLeAppend(s[..j], s[j + 1..], bound);
    assert [s[j]][..0] == [];
  }

  lemma MultisetWithout(s: seq<real>, j: nat)
    requires j < |s|
    ensures multiset(s[..j] + s[j + 1..]) == multiset(s) - multiset{s[j]}
  {
    assert s == s[..j] + [s[j]] + s[j + 1..];
  }

  /** A count does not depend on the order of the samples. */
  lemma {:induction false} CountLeReordered(s: seq<real>, t: seq<real>, bound: real)
    requires multiset(s) == multiset(t)
    ensures CountLe(s, bound) == CountLe(t, bound)
    decreases |s|
  {
    if s == [] {
      assert |multiset(t)| == 0;
    } else {
      var n := |s| - 1;
      assert s == s[..n] + [s[n]];
      assert s[n] in multiset(s);
      var j :| 0 <= j < |t| && t[j] == s[n];
      MultisetWithout(s, n);
      MultisetWithout(t, j);
      assert s[..n] + s[n + 1..] == s[..n];
      CountLeReordered(s[..n], t[..j] + t[j + 1..], bound);
      CountLeSplit(t, j, bound);
    }
  }

  /** In ascending order, the sample of rank r is within a bound iff at least r samples are. */
  lemma {:induction false} RankByCount(order: seq<real>, r: nat, bound: real)
    requires Ascending(order) && 1 <= r <= |order|
    ensures order[r - 1] <= bound <==> CountLe(order, bound) >= r
    ensures CountLe(order, bound) <= |order|
  {
    var n := |order| - 1;
    if n > 0 {
      RankByCount(order[..n], if r <= n then r else n, bound);
    } else {
      assert order[..n] == [];
    }
  }

  lemma {:induction false} CountLeMonotone(samples: seq<real>, a: real, b: real)
    requires a <= b
    ensures CountLe(samples, a) <= CountLe(samples, b) <= |samples|
  {
    if samples == [] {
    } else {
      CountLeMonotone(samples[..|samples| - 1], a, b);
    }
  }

  lemma ObserveCumulative(bounds: seq<real>, samples: seq<real>)
    requires Increasing(bounds) && |samples| < TWO64
    ensures Cumulative(Observe(bounds, samples).buckets)
    ensures forall i :: 0 <= i < |bounds| ==>
              Observe(bounds, samples).buckets[i] == Bucket(bounds[i], CountLe(samples, bounds[i]))
  {
    hide CountLe, U64, Sum;
    forall i | 0 <= i < |bounds|
      ensures 0 <= CountLe(samples, bounds[i]) < TWO64
      ensures U64(CountLe(samples, bounds[i])) == CountLe(samples, bounds[i])
    {
      CountLeMonotone(samples, bounds[i], bounds[i]);
      U64Fits(CountLe(samples, bounds[i]));
    }
    forall i, j | 0 <= i < j < |bounds|
      ensures CountLe(samples, bounds[i]) <= CountLe(samples, bounds[j])
    {
      CountLeMonotone(samples, bounds[i], bounds[j]);
    }
  }

  /** Where the scan stops: at the first bucket whose count reaches the target. */
  lemma {:induction false} ScanStopsAt(target: real, prevUpper: real, prevCount: int, buckets: seq<Bucket>, k: nat)
    requires k <= |buckets|
    requires forall j :: 0 <= j < k ==> (buckets[j].count as real) < target
    requires k < |buckets| ==> buckets[k].count as real >= target
    ensures Scan(target, prevUpper, prevCount, buckets) ==
            var below := if k == 0 then Bucket(prevUpper, prevCount) else buckets[k - 1];
            if k == |buckets| then below.upper else Interpolate(target, below.upper, below.count, buckets[k])
    decreases k
  {
    if k == 0 {
    } else {
      ScanStopsAt(target, buckets[0].upper, buckets[0].count, buckets[1..], k - 1);
    }
  }

  /** r is the rank that a target of q n samples asks for: the target rounded up. */
  predicate IsRank(target: real, n: nat, r: nat) {
    1 <= r <= n && (r - 1) as real < target <= r as real
  }

  /** Every q in (0, 1] asks for exactly one rank. */
  lemma RankExists(q: real, n: nat)
    requires n > 0 && 0.0 < q <= 1.0
    ensures exists r: nat :: IsRank(Target(q, n), n, r)
    ensures forall r: nat, s: nat :: IsRank(Target(q, n), n, r) && IsRank(Target(q, n), n, s) ==> r == s
  {
    var t, m := Target(q, n), n as real;
    assert 0.0 < q * m && (1.0 - q) * m >= 0.0;
    assert 0.0 < t <= m;
    var r: int := -((-t).Floor);
    assert (r - 1) as real < t <= r as real;
    assert IsRank(t, n, r);
  }

  /** A bucket reaches the target iff it admits the sample of that rank. */
  lemma ReachesAtRank(samples: seq<real>, order: seq<real>, target: real, r: nat, bound: real)
    requires Ascending(order) && multiset(order) == multiset(samples) && IsRank(target, |order|, r)
    ensures CountLe(samples, bound) as real >= target <==> order[r - 1] <= bound
  {
    hide CountLe;
    CountLeReordered(samples, order, bound);
    RankByCount(order, r, bound);
    var c := CountLe(samples, bound);
    if c >= r {
      assert c as real >= r as real;
    } else {
      assert c as real <= (r - 1) as real;
    }
  }

  lemma SameLength(a: seq<real>, b: seq<real>)
    requires multiset(a) == multiset(b)
    ensures |a| == |b|
  {
    assert |multiset(a)| == |a| && |multiset(b)| == |b|;
  }

  /** The estimate lies between the edges of bucket k, the lower one excluded; the first
      bucket starts at 0 unless its bound is no higher. */
  predicate Between(bounds: seq<real>, k: nat, est: real) {
    if k >= |bounds| then bounds != [] && est == bounds[|bounds| - 1]
    else if k > 0 then bounds[k - 1] < est <= bounds[k]
    else if bounds[0] > 0.0 then 0.0 < est <= bounds[0]
    else est == bounds[0]
  }

  lemma ScanLandsIn(bounds: seq<real>, buckets: seq<Bucket>, x: real, target: real)
    requires Increasing(bounds) && bounds != [] && target > 0.0
    requires Cumulative(buckets) && |buckets| == |bounds|
    requires forall i :: 0 <= i < |bounds| ==> buckets[i].upper == bounds[i]
    requires forall i :: 0 <= i < |bounds| ==> (buckets[i].count as real >= target <==> x <= bounds[i])
    ensures Between(bounds, BucketOf(bounds, x), Scan(target, 0.0, 0, buckets))
  {
    hide Interpolate, Scan, BucketOf;
    var k := BucketOf(bounds, x);
    ScanStopsAt(target, 0.0, 0, buckets, k);
    if k < |bounds| {
      var below := if k == 0 then Bucket(0.0, 0) else buckets[k - 1];
      InterpolateWithin(target, below.upper, below.count, buckets[k]);
    }
  }

  lemma EstimateBetween(bounds: seq<real>, samples: seq<real>, order: seq<real>, q: real, r: nat)
    requires Increasing(bounds) && bounds != [] && |samples| < TWO64
    requires Ascending(order) && multiset(order) == multiset(samples)
    requires IsRank(Target(q, |samples|), |order|, r)
    ensures Between(bounds, BucketOf(bounds, order[r - 1]), Quantile(q, Observe(bounds, samples)))
  {
    hide CountLe, Interpolate, Scan, BucketOf, Between, Cumulative, Sum, Target, U64;
    U64Fits(|samples|);
    SameLength(order, samples);
    var buckets := Observe(bounds, samples).buckets;
    var target := Target(q, |samples|);
    ObserveCumulative(bounds, samples);
    forall i | 0 <= i < |bounds|
      ensures buckets[i].upper == bounds[i] && (buckets[i].count as real >= target <==> order[r - 1] <= bounds[i])
    {
      ReachesAtRank(samples, order, target, r, bounds[i]);
    }
    ScanLandsIn(bounds, buckets, order[r - 1], target);
  }

  /** The estimate falls in the very bucket that holds the true sample of rank ceil(q n), and
      is the last bound when that sample lies above all buckets. The samples may have any
      sign and come in any order. */
  lemma EstimateInTrueBucket(bounds: seq<real>, samples: seq<real>, order: seq<real>, q: real, r: nat)
    requires Increasing(bounds) && bounds != [] && |samples| < TWO64
    requires Ascending(order) && multiset(order) == multiset(samples)
    requires IsRank(Target(q, |samples|), |order|, r)
    ensures var est, k := Quantile(q, Observe(bounds, samples)), BucketOf(bounds, order[r - 1]);
            if k == |bounds| then est == bounds[k - 1] else BucketOf(bounds, est) == k
  {
    hide Quantile, Observe, BucketOf, Target;
    EstimateBetween(bounds, samples, order, q, r);
  }

  /** On the merge of all label sets, a true sample between 0 and the last bound is missed by
      no more than the width of its bucket. */
  lemma MergedQuantileError(
    metrics: seq<Option<Hist>>, bounds: seq<real>, groups: seq<seq<real>>, order: seq<real>, q: real, r: nat)
    requires Reports(metrics, bounds, groups) && metrics != [] && metrics[0].Some?
    requires Increasing(bounds) && bounds != [] && |Concat(groups)| < TWO64
    requires Ascending(order) && multiset(order) == multiset(Concat(groups))
    requires IsRank(Target(q, |Concat(groups)|), |order|, r)
    requires 0.0 <= order[r - 1] <= bounds[|bounds| - 1]
    ensures var k := BucketOf(bounds, order[r - 1]);
            var width := bounds[k] - if k == 0 then 0.0 else bounds[k - 1];
            -width <= Quantile(q, Merged(metrics)) - order[r - 1] <= width
  {
    hide Quantile, Observe, BucketOf, Merged, Reports, Concat, Target;
    MergeIsConcat(metrics, bounds, groups);
    EstimateBetween(bounds, Concat(groups), order, q, r);
  }

  /** Where in its bucket the estimate lies: as far along the bucket's width as the target is along
      the samples in the bucket. The first bucket begins at 0. */
  lemma EstimateIsLinear(bounds: seq<real>, samples: seq<real>, q: real, k: nat)
    requires Increasing(bounds) && k < |bounds| && 0 < |samples| < TWO64
    requires var below := if k == 0 then 0 else CountLe(samples, bounds[k - 1]);
             (below as real) < Target(q, |samples|) <= CountLe(samples, bounds[k]) as real
    requires k == 0 ==> bounds[0] > 0.0
    ensures var lower := if k == 0 then 0.0 else bounds[k - 1];
            var below := if k == 0 then 0 else CountLe(samples, bounds[k - 1]);
            (Quantile(q, Observe(bounds, samples)) - lower) * ((CountLe(samples, bounds[k]) - below) as real) ==
            (Target(q, |samples|) - below as real) * (bounds[k] - lower)
  {
    hide CountLe, Interpolate, Scan, Cumulative, Sum, Target, U64;
    U64Fits(|samples|);
    ObserveCumulative(bounds, samples);
    var buckets, target := Observe(bounds, samples).buckets, Target(q, |samples|);
    forall j | 0 <= j < k
      ensures (buckets[j].count as real) < target
    {
      CountLeMonotone(samples, bounds[j], bounds[k - 1]);
    }
    ScanStopsAt(target, 0.0, 0, buckets, k);
    var from := if k == 0 then Bucket(0.0, 0) else buckets[k - 1];
    if k > 0 {
      CountLeMonotone(samples, bounds[k - 1], bounds[k]);
    }
    CountLeMonotone(samples, bounds[k], bounds[k]);
    LinearInBucket(target, from.upper, from.count, buckets[k]);
  }

  lemma LinearInBucket(target: real, prevUpper: real, prevCount: int, b: Bucket)
    requires 0 <= prevCount < b.count < TWO64 && prevUpper < b.upper
    ensures (Interpolate(target, prevUpper, prevCount, b) - prevUpper) * ((b.count - prevCount) as real) ==
            (target - prevCount as real) * (b.upper - prevUpper)
  {
    hide U64, Share;
    U64Fits(b.count - prevCount);
    ShareTimes(target - prevCount as real, (b.count - prevCount) as real, b.upper - prevUpper);
  }

  lemma ShareTimes(t: real, n: real, w: real)
    requires n > 0.0
    ensures Share(t, n, w) * n == t * w
  {
    var f := t / n;
    assert f * n == t;
    assert (f * w) * n == (f * n) * w;
  }

  /** Without samples, or without buckets, the estimate is 0. */
  lemma NoDataIsZero(q: real, bounds: seq<real>)
    ensures Quantile(q, Observe(bounds, [])) == 0.0 == Quantile(q, EMPTY)
  {
  }
}
