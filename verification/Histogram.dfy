/** The histogram object of src/metrics.cc and the loops that read it. */
module HistogramObject {
  import opened HistogramModel

  /** A C++ double: a number, or an infinity or NaN. */
  datatype Reading = Number(v: real) | NotFinite

  /** Observe counts a negative or non-finite reading as zero. */
  function Clamped(r: Reading): real {
    if r.Number? && r.v >= 0.0 then r.v else 0.0
  }

  function Micros(v: real): int {
    (v * 1_000_000.0).Floor
  }

  function SumMicros(xs: seq<real>): int {
    if xs == [] then 0 else SumMicros(xs[..|xs| - 1]) + Micros(xs[|xs| - 1])
  }

  method FindBucket(bounds: seq<real>, v: real) returns (i: nat)
    ensures i == BucketIndex(bounds, v)
  {
    i := 0;
    assert bounds[0..] == bounds;
    while i < |bounds|
      invariant 0 <= i <= |bounds|
      invariant BucketIndex(bounds, v) == i + BucketIndex(bounds[i..], v)
    {
      if v <= bounds[i] {
        return;
      }
      assert bounds[i..][1..] == bounds[i + 1..];
      i := i + 1;
    }
  }

  class Histogram {
    const bounds: seq<real>
    const buckets: array<nat>
    var count: nat
    var sumMicros: int
    ghost var seen: seq<real>  // the observations so far, clamped

    ghost predicate Valid()
      reads this, buckets
    {
      && Increasing(bounds) && buckets.Length == |bounds| + 1
      && count == |seen| && sumMicros == SumMicros(seen)
      && forall i :: 0 <= i < buckets.Length ==> buckets[i] == CountIn(bounds, seen, i)
    }

    constructor (bounds: seq<real>)
      requires Increasing(bounds)
      ensures Valid() && seen == [] && this.bounds == bounds && fresh(buckets)
    {
      this.bounds := bounds;
      buckets := new nat[|bounds| + 1](_ => 0);
      count, sumMicros, seen := 0, 0, [];
    }

    method Observe(reading: Reading)
      requires Valid()
      modifies this, buckets
      ensures Valid() && seen == old(seen) + [Clamped(reading)]
    {
      var value := if reading.Number? && reading.v >= 0.0 then reading.v else 0.0;
      sumMicros := sumMicros + Micros(value);
      count := count + 1;
      var i := FindBucket(bounds, value);
      buckets[i] := buckets[i] + 1;
      seen := seen + [value];
      assert seen[..|seen| - 1] == old(seen);
    }

    method TakeSnapshot() returns (s: Snapshot)
      requires Valid()
      ensures Tallies(s, seen) && s.bounds == bounds
      ensures s.sum == SumMicros(seen) as real / 1_000_000.0
    {
      s := Snapshot(bounds, buckets[..], count, sumMicros as real / 1_000_000.0);
    }
  }

  /** What is measured of one successful session, in seconds, and its redirects. */
  datatype Timing = Timing(open: Reading, ttfb: Reading, read: Reading, redirects: Reading)

  datatype Measure = OpenTime | FirstByteTime | ReadTime | Redirects

  function ReadingOf(t: Timing, m: Measure): Reading {
    match m
    case OpenTime => t.open
    case FirstByteTime => t.ttfb
    case ReadTime => t.read
    case Redirects => t.redirects
  }

  /** The four histograms of the metrics registry. */
  class SessionTimings {
    const openSeconds: Histogram
    const ttfbSeconds: Histogram
    const readSeconds: Histogram
    const redirectsPerOpen: Histogram
    ghost var observed: seq<Timing>  // the sessions measured so far

    ghost function Parts(): set<object> {
      {this, openSeconds, openSeconds.buckets, ttfbSeconds, ttfbSeconds.buckets,
       readSeconds, readSeconds.buckets, redirectsPerOpen, redirectsPerOpen.buckets}
    }

    ghost predicate Apart() {
      && openSeconds != ttfbSeconds && openSeconds != readSeconds && openSeconds != redirectsPerOpen
      && ttfbSeconds != readSeconds && ttfbSeconds != redirectsPerOpen && readSeconds != redirectsPerOpen
      && openSeconds.buckets != ttfbSeconds.buckets && openSeconds.buckets != readSeconds.buckets
      && openSeconds.buckets != redirectsPerOpen.buckets && ttfbSeconds.buckets != readSeconds.buckets
      && ttfbSeconds.buckets != redirectsPerOpen.buckets && readSeconds.buckets != redirectsPerOpen.buckets
    }

    /** Each histogram holds its own reading of every session measured. */
    ghost predicate Valid()
      reads Parts()
    {
      && Apart()
      && openSeconds.Valid() && ttfbSeconds.Valid() && readSeconds.Valid() && redirectsPerOpen.Valid()
      && openSeconds.seen == Column(observed, OpenTime)
      && ttfbSeconds.seen == Column(observed, FirstByteTime)
      && readSeconds.seen == Column(observed, ReadTime)
      && redirectsPerOpen.seen == Column(observed, Redirects)
    }

    constructor ()
      ensures Valid() && observed == [] && fresh(Parts())
    {
      LatencyBoundsIncrease();
      openSeconds := new Histogram(LatencyBounds());
      ttfbSeconds := new Histogram(LatencyBounds());
      readSeconds := new Histogram(LatencyBounds());
      redirectsPerOpen := new Histogram(LatencyBounds());
      observed := [];
    }

    method Observe(t: Timing)
      requires Valid()
      modifies Parts()
      ensures Valid() && observed == old(observed) + [t]
    {
      hide Column, Histogram.Valid;
      ColumnMore(observed, t);
      openSeconds.Observe(t.open);
      ttfbSeconds.Observe(t.ttfb);
      readSeconds.Observe(t.read);
      redirectsPerOpen.Observe(t.redirects);
      observed := observed + [t];
    }
  }

  /** One reading of each session, clamped. */
  ghost function Column(ts: seq<Timing>, m: Measure): (r: seq<real>)
    ensures |r| == |ts|
  {
    if ts == [] then [] else Column(ts[..|ts| - 1], m) + [Clamped(ReadingOf(ts[|ts| - 1], m))]
  }

  lemma ColumnMore(ts: seq<Timing>, t: Timing)
    ensures forall m :: Column(ts + [t], m) == Column(ts, m) + [Clamped(ReadingOf(t, m))]
  {
    assert (ts + [t])[..|ts|] == ts;
  }

  /** The value inside bucket i; `prev` observations lie in the buckets before it. */
  method Interpolate(h: Snapshot, i: nat, prev: nat, target: real) returns (v: real)
    requires i < |h.counts| <= |h.bounds| + 1 && prev == Cum(h.counts, i)
    ensures v == Interpolated(h, i, target)
  {
    var lower := if i == 0 then 0.0 else h.bounds[i - 1];
    var upper := if i < |h.bounds| then h.bounds[i]
                 else if h.bounds == [] then 0.0 else h.bounds[|h.bounds| - 1] * 2.0;
    if h.counts[i] == 0 {
      return upper;
    }
    var fraction := (target - prev as real) / h.counts[i] as real;
    v := lower + fraction * (upper - lower);
  }

  /** One pass over the buckets, up to the first whose cumulated count reaches the target. */
  method Walk(h: Snapshot, target: real) returns (v: real)
    requires |h.counts| <= |h.bounds| + 1
    ensures v == ValueAt(h, target)
  {
    var cum, i := 0, 0;
    while i < |h.counts|
      invariant 0 <= i <= |h.counts| && cum == Cum(h.counts, i)
      invariant Chosen(h.counts, target, 0) == Chosen(h.counts, target, i)
    {
      var prev := cum;
      cum := cum + h.counts[i];
      if cum as real < target {
        i := i + 1;
        continue;
      }
      v := Interpolate(h, i, prev, target);
      return;
    }
    v := if h.bounds == [] then 0.0 else h.bounds[|h.bounds| - 1];
  }

  method HistogramPercentile(h: Snapshot, p: real) returns (v: real)
    requires |h.counts| <= |h.bounds| + 1
    ensures v == Percentile(h, p)
  {
    if h.count == 0 || h.counts == [] {
      return 0.0;
    }
    var target := Target(h, p);
    v := Walk(h, target);
  }

  /** Non-negative readings count as they are, all others as zero. */
  lemma ClampedValue(r: Reading)
    ensures Clamped(r) == if r.Number? && r.v >= 0.0 then r.v else 0.0
    ensures Clamped(r) >= 0.0
  {
  }

  function Total(xs: seq<real>): real {
    if xs == [] then 0.0 else Total(xs[..|xs| - 1]) + xs[|xs| - 1]
  }

  /** The sum of a snapshot is the sum of the observations, short of less than a microsecond each. */
  lemma {:induction false} SumIsClose(xs: seq<real>)
    ensures SumMicros(xs) as real / 1_000_000.0 <= Total(xs)
    ensures Total(xs) <= (SumMicros(xs) + |xs|) as real / 1_000_000.0
  {
    if xs != [] {
      SumIsClose(xs[..|xs| - 1]);
      MicrosClose(xs[|xs| - 1]);
    }
  }

  lemma MicrosClose(v: real)
    ensures Micros(v) as real / 1_000_000.0 <= v <= (Micros(v) + 1) as real / 1_000_000.0
  {
  }

}
