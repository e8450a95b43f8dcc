/** Bucketed latencies (src/metrics.cc): what a percentile read off a histogram has to do with the
    observations that went into it. Values are real numbers. */
module HistogramModel {

  /** Finite upper bounds, and one count per bucket; the last bucket is open-ended. */
  datatype Snapshot = Snapshot(bounds: seq<real>, counts: seq<nat>, count: nat, sum: real)

  ghost predicate Increasing(bounds: seq<real>) {
    && bounds != [] && 0.0 < bounds[0]
    && forall i, j :: 0 <= i < j < |bounds| ==> bounds[i] < bounds[j]
  }

  /** The fixed bounds, in seconds. */
  function LatencyBounds(): seq<real> {
    [0.001, 0.002, 0.005, 0.01, 0.02, 0.05, 0.1, 0.2, 0.5, 1.0, 2.0, 5.0, 10.0, 20.0, 30.0]
  }

  /** The first bucket whose bound is not below v. */
  function BucketIndex(bounds: seq<real>, v: real): (i: nat)
    ensures i <= |bounds|
    ensures forall j :: 0 <= j < i ==> bounds[j] < v
    ensures i < |bounds| ==> v <= bounds[i]
  {
    if bounds == [] || v <= bounds[0] then 0 else 1 + BucketIndex(bounds[1..], v)
  }

  /** Observations that fall into a bucket before c. */
  function CountBelow(bounds: seq<real>, xs: seq<real>, c: nat): (n: nat)
    ensures n <= |xs|
  {
    if xs == [] then 0
    else CountBelow(bounds, xs[..|xs| - 1], c) + (if BucketIndex(bounds, xs[|xs| - 1]) < c then 1 else 0)
  }

  /** Observations in bucket i. */
  function CountIn(bounds: seq<real>, xs: seq<real>, i: nat): nat {
    if xs == [] then 0
    else CountIn(bounds, xs[..|xs| - 1], i) + (if BucketIndex(bounds, xs[|xs| - 1]) == i then 1 else 0)
  }

  /** The histogram of the observations xs. */
  ghost predicate Tallies(h: Snapshot, xs: seq<real>) {
    && Increasing(h.bounds) && |h.counts| == |h.bounds| + 1 && h.count == |xs|
    && forall i :: 0 <= i < |h.counts| ==> h.counts[i] == CountIn(h.bounds, xs, i)
  }

  /** Sum of the first i counts. */
  function Cum(counts: seq<nat>, i: nat): nat
    requires i <= |counts|
  {
    if i == 0 then 0 else Cum(counts, i - 1) + counts[i - 1]
  }

  /** Counts that add up, as they do when no observation is under way. */
  ghost predicate Consistent(h: Snapshot) {
    Increasing(h.bounds) && |h.counts| == |h.bounds| + 1 && h.count == Cum(h.counts, |h.counts|)
  }

  // ---- the percentile ----------------------------------------------------------------------

  function Clamp01(p: real): real {
    if p < 0.0 then 0.0 else if p > 1.0 then 1.0 else p
  }

  function Target(h: Snapshot, p: real): real {
    Clamp01(p) * h.count as real
  }

  /** The first bucket, from i on, at which the cumulated count reaches the target. */
  function Chosen(counts: seq<nat>, target: real, i: nat): (r: nat)
    requires i <= |counts|
    ensures i <= r <= |counts|
    ensures forall j :: i < j <= r ==> Cum(counts, j) as real < target
    ensures r < |counts| ==> target <= Cum(counts, r + 1) as real
    decreases |counts| - i
  {
    if i == |counts| || target <= Cum(counts, i + 1) as real then i else Chosen(counts, target, i + 1)
  }

  function Lower(bounds: seq<real>, i: nat): real
    requires i <= |bounds|
  {
    if i == 0 then 0.0 else bounds[i - 1]
  }

  /** The open-ended bucket counts as ending at twice the last bound. */
  function Upper(bounds: seq<real>, i: nat): real {
    if i < |bounds| then bounds[i] else if bounds == [] then 0.0 else bounds[|bounds| - 1] * 2.0
  }

  function Mix(low: real, high: real, part: real, whole: real): real
    requires whole != 0.0
  {
    low + part / whole * (high - low)
  }

  /** Linear interpolation inside bucket i. */
  function Interpolated(h: Snapshot, i: nat, target: real): real
    requires i < |h.counts| <= |h.bounds| + 1
  {
    if h.counts[i] == 0 then Upper(h.bounds, i)
    else Mix(Lower(h.bounds, i), Upper(h.bounds, i), target - Cum(h.counts, i) as real, h.counts[i] as real)
  }

  /** The value at a cumulated count; the last bound if the counts do not reach that far. */
  function ValueAt(h: Snapshot, target: real): real
    requires |h.counts| <= |h.bounds| + 1
  {
    var i := Chosen(h.counts, target, 0);
    if i < |h.counts| then Interpolated(h, i, target)
    else if h.bounds == [] then 0.0 else h.bounds[|h.bounds| - 1]
  }

  function Percentile(h: Snapshot, p: real): real
    requires |h.counts| <= |h.bounds| + 1
  {
    if h.count == 0 || h.counts == [] then 0.0 else ValueAt(h, Target(h, p))
  }

  // ---- against the order statistic ---------------------------------------------------------

  ghost predicate Ascending(xs: seq<real>) {
    forall i, j :: 0 <= i < j < |xs| ==> xs[i] <= xs[j]
  }

  function Insert(x: real, ys: seq<real>): (r: seq<real>)
    ensures |r| == |ys| + 1 && multiset(r) == multiset(ys) + multiset{x}
  {
    if ys == [] || ys[|ys| - 1] <= x then ys + [x]
    else
      assert ys == ys[..|ys| - 1] + [ys[|ys| - 1]];
      Insert(x, ys[..|ys| - 1]) + [ys[|ys| - 1]]
  }

  lemma {:induction false} InsertAscending(x: real, ys: seq<real>)
    requires Ascending(ys)
    ensures Ascending(Insert(x, ys))
    ensures forall i :: 0 <= i < |Insert(x, ys)| ==>
              Insert(x, ys)[i] <= if ys == [] || ys[|ys| - 1] <= x then x else ys[|ys| - 1]
  {
    if ys != [] && x < ys[|ys| - 1] {
      InsertAscending(x, ys[..|ys| - 1]);
    }
  }

  /** The observations in ascending order. */
  function Sort(xs: seq<real>): (r: seq<real>)
    ensures |r| == |xs| && multiset(r) == multiset(xs)
  {
    if xs == [] then [] else
    assert xs == xs[..|xs| - 1] + [xs[|xs| - 1]];
    Insert(xs[|xs| - 1], Sort(xs[..|xs| - 1]))
  }

  lemma {:induction false} SortAscending(xs: seq<real>)
    ensures Ascending(Sort(xs))
  {
    if xs != [] {
      SortAscending(xs[..|xs| - 1]);
      InsertAscending(xs[|xs| - 1], Sort(xs[..|xs| - 1]));
    }
  }

  lemma CountSnoc(bounds: seq<real>, xs: seq<real>, x: real, c: nat)
    ensures CountBelow(bounds, xs + [x], c) ==
            CountBelow(bounds, xs, c) + if BucketIndex(bounds, x) < c then 1 else 0
  {
    assert (xs + [x])[..|xs|] == xs;
  }

  lemma {:induction false} CountInsert(bounds: seq<real>, x: real, ys: seq<real>, c: nat)
    ensures CountBelow(bounds, Insert(x, ys), c) ==
            CountBelow(bounds, ys, c) + if BucketIndex(bounds, x) < c then 1 else 0
  {
    if ys == [] || ys[|ys| - 1] <= x {
      CountSnoc(bounds, ys, x, c);
    } else {
      var init, last := ys[..|ys| - 1], ys[|ys| - 1];
      CountInsert(bounds, x, init, c);
      CountSnoc(bounds, Insert(x, init), last, c);
    }
  }

  lemma {:induction false} CountSorted(bounds: seq<real>, xs: seq<real>, c: nat)
    ensures CountBelow(bounds, Sort(xs), c) == CountBelow(bounds, xs, c)
  {
    if xs != [] {
      CountSorted(bounds, xs[..|xs| - 1], c);
      CountInsert(bounds, xs[|xs| - 1], Sort(xs[..|xs| - 1]), c);
    }
  }

  /** In ascending order the observations below bucket c come first. */
  lemma {:induction false} PrefixBelow(bounds: seq<real>, ys: seq<real>, c: nat, j: nat)
    requires Ascending(ys) && j < |ys|
    ensures BucketIndex(bounds, ys[j]) < c <==> j < CountBelow(bounds, ys, c)
  {
    var n := |ys| - 1;
    if j < n {
      PrefixBelow(bounds, ys[..n], c, j);
      if BucketIndex(bounds, ys[n]) < c {
        assert ys[j] <= ys[n];
      }
    } else if n > 0 {
      PrefixBelow(bounds, ys[..n], c, n - 1);
      assert ys[n - 1] <= ys[n];
    }
  }

  lemma {:induction false} CumCounts(h: Snapshot, xs: seq<real>, i: nat)
    requires Tallies(h, xs) && i <= |h.counts|
    ensures Cum(h.counts, i) == CountBelow(h.bounds, xs, i)
  {
    if i == 0 {
      NoneBelowZero(h.bounds, xs);
    } else {
      CumCounts(h, xs, i - 1);
      CountSplits(h.bounds, xs, i - 1);
    }
  }

  lemma {:induction false} NoneBelowZero(bounds: seq<real>, xs: seq<real>)
    ensures CountBelow(bounds, xs, 0) == 0
  {
    if xs != [] {
      NoneBelowZero(bounds, xs[..|xs| - 1]);
    }
  }

  lemma {:induction false} CountSplits(bounds: seq<real>, xs: seq<real>, i: nat)
    ensures CountBelow(bounds, xs, i + 1) == CountBelow(bounds, xs, i) + CountIn(bounds, xs, i)
  {
    if xs != [] {
      CountSplits(bounds, xs[..|xs| - 1], i);
    }
  }

  lemma {:induction false} AllBelowLast(bounds: seq<real>, xs: seq<real>)
    ensures CountBelow(bounds, xs, |bounds| + 1) == |xs|
  {
    if xs != [] {
      AllBelowLast(bounds, xs[..|xs| - 1]);
    }
  }

  lemma TalliesConsistent(h: Snapshot, xs: seq<real>)
    requires Tallies(h, xs)
    ensures Consistent(h)
  {
    CumCounts(h, xs, |h.counts|);
    AllBelowLast(h.bounds, xs);
  }

  function Ceil(x: real): int {
    -((-x).Floor)
  }

  /** The target is p times the number of observations. */
  lemma TargetInRange(h: Snapshot, p: real)
    requires 0.0 < p <= 1.0 && h.count > 0
    ensures Target(h, p) == p * h.count as real
    ensures 0.0 < Target(h, p) <= h.count as real
  {
    var n := h.count as real;
    assert 0.0 < p * n;
    assert p * n <= n;
  }

  /** A whole number reaches x exactly when it reaches x rounded up. */
  lemma ReachesCeil(x: real, c: int)
    ensures x <= c as real <==> Ceil(x) <= c
  {
  }

  lemma BucketSpan(bounds: seq<real>, i: nat)
    requires Increasing(bounds) && i <= |bounds|
    ensures 0.0 <= Lower(bounds, i) < Upper(bounds, i)
    ensures forall j :: i < j <= |bounds| ==> Upper(bounds, i) <= Lower(bounds, j)
  {
  }

  lemma ChosenExists(h: Snapshot, target: real)
    requires Consistent(h) && target <= h.count as real
    ensures Chosen(h.counts, target, 0) < |h.counts|
  {
  }

  lemma ScaleOrdered(p: real, q: real, w: real)
    requires 0.0 <= p <= q <= 1.0 && 0.0 <= w
    ensures 0.0 <= p * w <= q * w <= w
  {
    assert p * w >= 0.0 && (q - p) * w >= 0.0 && (1.0 - q) * w >= 0.0;
    assert (q - p) * w == q * w - p * w && (1.0 - q) * w == w - q * w;
  }

  lemma MixInRange(low: real, high: real, part: real, whole: real)
    requires low <= high && 0.0 <= part <= whole && 0.0 < whole
    ensures low <= Mix(low, high, part, whole) <= high
  {
    var f, width := part / whole, high - low;
    assert 0.0 <= f <= 1.0;
    ScaleOrdered(f, f, width);
    assert Mix(low, high, part, whole) == low + f * width;
  }

  lemma MixMonotone(low: real, high: real, part: real, part': real, whole: real)
    requires low <= high && part <= part' && 0.0 < whole
    ensures Mix(low, high, part, whole) <= Mix(low, high, part', whole)
  {
    assert part / whole <= part' / whole;
    MulMonotone(part / whole, part' / whole, high - low);
  }

  lemma MulMonotone(a: real, b: real, w: real)
    requires a <= b && 0.0 <= w
    ensures a * w <= b * w
  {
  }

  lemma InterpolatedInBucket(h: Snapshot, i: nat, target: real)
    requires Increasing(h.bounds) && |h.counts| == |h.bounds| + 1 && i < |h.counts|
    requires 0.0 <= target && (i > 0 ==> Cum(h.counts, i) as real < target)
    requires target <= Cum(h.counts, i + 1) as real
    ensures Lower(h.bounds, i) <= Interpolated(h, i, target) <= Upper(h.bounds, i)
  {
    BucketSpan(h.bounds, i);
    if h.counts[i] != 0 {
      MixInRange(Lower(h.bounds, i), Upper(h.bounds, i), target - Cum(h.counts, i) as real, h.counts[i] as real);
    }
  }

  /** The bucket chosen for a target, and the value found there. */
  lemma ValueInBucket(h: Snapshot, target: real)
    requires Consistent(h) && 0.0 <= target <= h.count as real
    ensures var i := Chosen(h.counts, target, 0);
            i < |h.counts| && Lower(h.bounds, i) <= ValueAt(h, target) <= Upper(h.bounds, i)
  {
    ChosenExists(h, target);
    InterpolatedInBucket(h, Chosen(h.counts, target, 0), target);
  }

  lemma ChosenMonotone(counts: seq<nat>, s: real, t: real)
    requires s <= t
    ensures Chosen(counts, s, 0) <= Chosen(counts, t, 0)
  {
    var j := Chosen(counts, t, 0);
    assert j < |counts| ==> t <= Cum(counts, j + 1) as real;
  }

  lemma ValueMonotone(h: Snapshot, s: real, t: real)
    requires Consistent(h) && 0.0 <= s <= t <= h.count as real
    ensures ValueAt(h, s) <= ValueAt(h, t)
  {
    ValueInBucket(h, s);
    ValueInBucket(h, t);
    ChosenMonotone(h.counts, s, t);
    var i := Chosen(h.counts, s, 0);
    BucketSpan(h.bounds, i);
    if h.counts[i] != 0 {
      MixMonotone(Lower(h.bounds, i), Upper(h.bounds, i), s - Cum(h.counts, i) as real,
                  t - Cum(h.counts, i) as real, h.counts[i] as real);
    }
  }

  /** The k-th smallest observation lies below bucket c exactly when the counts below c reach k. */
  lemma RankBelow(h: Snapshot, xs: seq<real>, target: real, j: nat, c: nat)
    requires Tallies(h, xs) && j < |xs| && j + 1 == Ceil(target) && c <= |h.counts|
    ensures BucketIndex(h.bounds, Sort(xs)[j]) < c <==> target <= Cum(h.counts, c) as real
  {
    CumCounts(h, xs, c);
    CountSorted(h.bounds, xs, c);
    SortAscending(xs);
    PrefixBelow(h.bounds, Sort(xs), c, j);
    ReachesCeil(target, Cum(h.counts, c));
  }

  lemma ChosenIsOrderStatistic(h: Snapshot, xs: seq<real>, target: real, j: nat)
    requires Tallies(h, xs) && j < |xs| && j + 1 == Ceil(target) && target <= |xs| as real
    ensures Chosen(h.counts, target, 0) == BucketIndex(h.bounds, Sort(xs)[j])
  {
    TalliesConsistent(h, xs);
    ChosenExists(h, target);
    var i := Chosen(h.counts, target, 0);
    RankBelow(h, xs, target, j, i + 1);
    RankBelow(h, xs, target, j, i);
  }

  /** The bucket chosen for `target` is that of the k-th smallest observation, k being the target
      rounded up, and v lies inside it. */
  ghost predicate AtRank(h: Snapshot, xs: seq<real>, target: real, v: real)
    requires Tallies(h, xs)
  {
    var k := Ceil(target);
    && 1 <= k <= |xs|
    && var i := BucketIndex(h.bounds, Sort(xs)[k - 1]);
       && Chosen(h.counts, target, 0) == i
       && Lower(h.bounds, i) <= v <= Upper(h.bounds, i)
  }

  lemma ValueFindsOrderStatistic(h: Snapshot, xs: seq<real>, target: real)
    requires Tallies(h, xs) && 0.0 < target <= |xs| as real
    ensures AtRank(h, xs, target, ValueAt(h, target))
  {
    TalliesConsistent(h, xs);
    ReachesCeil(target, |xs|);
    ChosenIsOrderStatistic(h, xs, target, Ceil(target) - 1);
    ValueInBucket(h, target);
  }

  /** For the histogram of any n observations, 0 < p <= 1 selects the bucket of the ceil(p n)-th
      smallest of them (the target is p n), and the value returned lies inside that bucket. */
  lemma PercentileFindsOrderStatistic(h: Snapshot, xs: seq<real>, p: real)
    requires Tallies(h, xs) && xs != [] && 0.0 < p <= 1.0
    ensures AtRank(h, xs, Target(h, p), Percentile(h, p))
  {
    TargetInRange(h, p);
    assert h.count == |xs|;
    var target := Target(h, p);
    assert 0.0 < target <= |xs| as real;
    assert AtRank(h, xs, target, ValueAt(h, target)) by {
      ValueFindsOrderStatistic(h, xs, target);
    }
    assert Percentile(h, p) == ValueAt(h, target);
  }

  lemma ClampOrdered(p: real, q: real)
    requires p <= q
    ensures 0.0 <= Clamp01(p) <= Clamp01(q) <= 1.0
  {
  }

  lemma TargetMonotone(h: Snapshot, p: real, q: real)
    requires p <= q
    ensures 0.0 <= Target(h, p) <= Target(h, q) <= h.count as real
  {
    hide Clamp01;
    ClampOrdered(p, q);
    ScaleOrdered(Clamp01(p), Clamp01(q), h.count as real);
  }

  /** The percentile never decreases in p, over all p (outside [0, 1] it is clamped), the case of
      an empty first bucket at p = 0 included. */
  lemma PercentileMonotone(h: Snapshot, p: real, q: real)
    requires Consistent(h) && p <= q
    ensures Percentile(h, p) <= Percentile(h, q)
  {
    TargetMonotone(h, p, q);
    ValueMonotone(h, Target(h, p), Target(h, q));
  }

  lemma LatencyBoundsIncrease()
    ensures Increasing(LatencyBounds()) && |LatencyBounds()| == 15
  {
  }

  // ---- the values themselves ---------------------------------------------------------------

  lemma MixIsLinear(low: real, high: real, part: real, whole: real)
    requires whole > 0.0
    ensures (Mix(low, high, part, whole) - low) * whole == part * (high - low)
  {
    QuotientTimes(part, whole, high - low);
  }

  /** Inside a bucket the value is as far from the lower end as the target is from the observations
      before it. */
  lemma InterpolationIsLinear(h: Snapshot, i: nat, target: real)
    requires i < |h.counts| <= |h.bounds| + 1 && h.counts[i] > 0
    ensures var low, high := if i == 0 then 0.0 else h.bounds[i - 1], Upper(h.bounds, i);
            (Interpolated(h, i, target) - low) * h.counts[i] as real
            == (target - Cum(h.counts, i) as real) * (high - low)
  {
    hide Mix, Cum, Upper;
    MixIsLinear(Lower(h.bounds, i), Upper(h.bounds, i), target - Cum(h.counts, i) as real, h.counts[i] as real);
  }

  lemma QuotientTimes(part: real, c: real, width: real)
    requires c > 0.0
    ensures part / c * width * c == part * width
  {
    assert part / c * c == part;
    assert part / c * width * c == part / c * c * width;
  }

  /** A bucket ends at its bound, the open-ended one at twice the last bound. */
  lemma BucketEnds(bounds: seq<real>, i: nat)
    requires bounds != []
    ensures Upper(bounds, i) == if i < |bounds| then bounds[i] else 2.0 * bounds[|bounds| - 1]
  {
  }

  /** A reading falls into the first bucket whose bound it does not exceed, or the open-ended one. */
  lemma BucketHolds(bounds: seq<real>, v: real)
    ensures var i := BucketIndex(bounds, v);
            && i <= |bounds| && (i < |bounds| ==> v <= bounds[i])
            && forall j :: 0 <= j < i ==> bounds[j] < v
  {
  }

  /** Without observations the percentile is zero. */
  lemma NothingObserved(h: Snapshot, p: real)
    requires h.count == 0 && |h.counts| <= |h.bounds| + 1
    ensures Percentile(h, p) == 0.0
  {
  }

}
