/** The token bucket of src/token_bucket.cc. Tokens are real numbers, times integer nanoseconds
    of a steady clock. */
module BucketModel {
  import opened Basics

  const NANOS: real := 1_000_000_000.0
  const NAP_LIMIT: int := 20_000_000

  datatype Bucket = Bucket(rate: nat, capacity: nat, tokens: real, last: int)

  /** Tokens that arrive at `rate` bytes per second during `nanos` nanoseconds. */
  function Gain(rate: nat, nanos: int): real {
    rate as real * (nanos as real / NANOS)
  }

  function MinReal(a: real, b: real): real {
    if a <= b then a else b
  }

  function New(rate: nat, burst: nat, now: int): Bucket {
    var capacity := if burst > 0 then burst else if rate > 0 then rate else 1;
    Bucket(rate, capacity, capacity as real, now)
  }

  /** RefillUnlocked: a reading that is not newer than the last one changes nothing. */
  function Refill(b: Bucket, now: int): Bucket {
    if b.rate == 0 || now <= b.last then b
    else b.(tokens := MinReal(b.capacity as real, b.tokens + Gain(b.rate, now - b.last)), last := now)
  }

  /** The three locked regions: try to take n tokens, give n back, look at the level. */
  datatype Access = Take(n: nat, now: int) | GiveBack(n: nat, now: int) | Look(now: int)

  /** A take that neither waits for tokens nor is refused. */
  predicate Exempt(b: Bucket, n: nat) {
    b.rate == 0 || n == 0
  }

  predicate Succeeds(b: Bucket, n: nat, now: int) {
    Exempt(b, n) || (n <= b.capacity && n as real <= Refill(b, now).tokens)
  }

  function Do(b: Bucket, a: Access): Bucket {
    match a
    case Take(n, now) =>
      if Exempt(b, n) || n > b.capacity then b
      else
        var r := Refill(b, now);
        if r.tokens < n as real then r else r.(tokens := r.tokens - n as real)
    case GiveBack(n, now) =>
      if Exempt(b, n) then b
      else
        var r := Refill(b, now);
        r.(tokens := MinReal(b.capacity as real, r.tokens + n as real))
    case Look(now) => Refill(b, now)
  }

  function Run(b: Bucket, log: seq<Access>): Bucket {
    if log == [] then b else Do(Run(b, log[..|log| - 1]), log[|log| - 1])
  }

  // ---- the window theorem ------------------------------------------------------------------

  /** Tokens taken by one access. */
  function TakenBy(b: Bucket, a: Access): nat {
    if a.Take? && Succeeds(b, a.n, a.now) then a.n else 0
  }

  /** Tokens taken over a log of accesses. */
  function Taken(b: Bucket, log: seq<Access>): nat {
    if log == [] then 0
    else Taken(b, log[..|log| - 1]) + TakenBy(Run(b, log[..|log| - 1]), log[|log| - 1])
  }

  /** Tokens given back over a log of accesses, including those that overflowed. */
  function GivenBack(log: seq<Access>): nat {
    if log == [] then 0
    else GivenBack(log[..|log| - 1]) + (if log[|log| - 1].GiveBack? then log[|log| - 1].n else 0)
  }

  ghost predicate Valid(b: Bucket) {
    0.0 <= b.tokens <= b.capacity as real
  }

  lemma GainAdds(rate: nat, a: int, b: int)
    ensures Gain(rate, a + b) == Gain(rate, a) + Gain(rate, b)
  {
    assert (a + b) as real / NANOS == a as real / NANOS + b as real / NANOS;
    var r, x, y := rate as real, a as real / NANOS, b as real / NANOS;
    assert r * (x + y) == r * x + r * y;
  }

  lemma GainNonNegative(rate: nat, a: int)
    requires a >= 0
    ensures Gain(rate, a) >= 0.0
  {
    var r, x := rate as real, a as real / NANOS;
    assert x >= 0.0;
    assert r * x >= 0.0;
  }

  /** What a refill can add up to time t; before t1 the level counts as full. */
  function Ceiling(b: Bucket, t1: int, t2: int): real {
    if b.last >= t1 then b.tokens + Gain(b.rate, t2 - b.last)
    else b.capacity as real + Gain(b.rate, t2 - t1)
  }

  lemma RefillLowersCeiling(b: Bucket, now: int, t1: int, t2: int)
    requires Valid(b) && b.rate > 0 && b.last <= t2 && now <= t2 && t1 <= t2
    ensures var r := Refill(b, now);
            && Valid(r) && b.last <= r.last <= t2 && now <= r.last && r.rate == b.rate && r.capacity == b.capacity
            && Ceiling(r, t1, t2) <= Ceiling(b, t1, t2)
  {
    if now > b.last {
      GainNonNegative(b.rate, now - b.last);
      GainAdds(b.rate, now - b.last, t2 - now);
      assert now - b.last + (t2 - now) == t2 - b.last;
      if now >= t1 && b.last < t1 {
        GainAdds(b.rate, now - t1, t2 - now);
        assert now - t1 + (t2 - now) == t2 - t1;
        GainNonNegative(b.rate, now - t1);
      }
    }
  }

  lemma AccessLowersCeiling(b: Bucket, a: Access, t1: int, t2: int)
    requires Valid(b) && b.rate > 0 && b.last <= t2 && t1 <= t2 && a.now <= t2
    requires a.Look? || t1 <= a.now
    ensures var d := Do(b, a);
            && Valid(d) && b.last <= d.last <= t2 && d.rate == b.rate && d.capacity == b.capacity
            && Ceiling(d, t1, t2) <= Ceiling(b, t1, t2) - TakenBy(b, a) as real
                                     + (if a.GiveBack? then a.n as real else 0.0)
  {
    RefillLowersCeiling(b, a.now, t1, t2);
  }

  lemma CeilingBounds(b: Bucket, t1: int, t2: int)
    requires Valid(b) && b.last <= t2 && t1 <= t2
    ensures 0.0 <= Ceiling(b, t1, t2) <= b.capacity as real + Gain(b.rate, t2 - t1)
  {
    GainNonNegative(b.rate, t2 - t1);
    GainNonNegative(b.rate, t2 - b.last);
    if b.last >= t1 {
      GainAdds(b.rate, b.last - t1, t2 - b.last);
      GainNonNegative(b.rate, b.last - t1);
      assert b.last - t1 + (t2 - b.last) == t2 - t1;
    }
  }

  /** Every take and refund reads the clock inside [t1, t2]; a look may use an older reading. */
  ghost predicate Within(log: seq<Access>, t1: int, t2: int) {
    forall i :: 0 <= i < |log| ==> log[i].now <= t2 && (log[i].Look? || t1 <= log[i].now)
  }

  lemma {:induction false} RunLowersCeiling(b: Bucket, log: seq<Access>, t1: int, t2: int)
    requires Valid(b) && b.rate > 0 && b.last <= t2 && t1 <= t2 && Within(log, t1, t2)
    ensures var d := Run(b, log);
            && Valid(d) && b.last <= d.last <= t2 && d.rate == b.rate && d.capacity == b.capacity
            && Ceiling(d, t1, t2) <= Ceiling(b, t1, t2) - Taken(b, log) as real + GivenBack(log) as real
  {
    if log != [] {
      RunLowersCeiling(b, log[..|log| - 1], t1, t2);
      AccessLowersCeiling(Run(b, log[..|log| - 1]), log[|log| - 1], t1, t2);
    }
  }

  /** In any window, whatever happened before it and in whatever order the accesses come, the
      tokens taken minus those given back are at most the capacity plus what the rate allows. */
  lemma WindowBound(b: Bucket, log: seq<Access>, t1: int, t2: int)
    requires Valid(b) && b.rate > 0 && b.last <= t2 && t1 <= t2 && Within(log, t1, t2)
    ensures Taken(b, log) as real - GivenBack(log) as real <= b.capacity as real + Gain(b.rate, t2 - t1)
  {
    RunLowersCeiling(b, log, t1, t2);
    CeilingBounds(b, t1, t2);
    CeilingBounds(Run(b, log), t1, t2);
  }

  lemma OneAccess(b: Bucket, a: Access)
    ensures Run(b, [a]) == Do(b, a) && Taken(b, [a]) == TakenBy(b, a)
  {
    hide Do, TakenBy;
    assert [a][..0] == [];
  }

  lemma GainOfSeconds(rate: nat, seconds: nat)
    ensures Gain(rate, 1_000_000_000 * seconds) == (rate * seconds) as real
  {
    assert (1_000_000_000 * seconds) as real / NANOS == seconds as real;
  }

  lemma DrainFull(rate: nat, burst: nat, t: int)
    requires rate > 0 && burst > 0
    ensures var b := New(rate, burst, t);
            Do(b, Take(burst, t)) == b.(tokens := 0.0) && TakenBy(b, Take(burst, t)) == burst
  {
  }

  lemma DrainRefilled(rate: nat, burst: nat, t: int, seconds: nat, n: nat)
    requires rate > 0 && burst > 0 && n == rate * seconds <= burst
    ensures TakenBy(New(rate, burst, t).(tokens := 0.0), Take(n, t + 1_000_000_000 * seconds)) == n
  {
    hide Gain;
    GainOfSeconds(rate, seconds);
    assert t + 1_000_000_000 * seconds - t == 1_000_000_000 * seconds;
    if seconds == 0 {
      assert n == 0;
    }
  }

  /** The bound is met: a full bucket that is emptied at once and then drained again as fast as
      it fills lets exactly that much through. */
  lemma WindowBoundIsTight(rate: nat, burst: nat, t: int, seconds: nat)
    requires rate > 0 && burst > 0 && rate * seconds <= burst
    ensures var b := New(rate, burst, t);
            var t2 := t + 1_000_000_000 * seconds;
            var log := [Take(burst, t), Take(rate * seconds, t2)];
            Taken(b, log) as real == b.capacity as real + Gain(rate, t2 - t)
  {
    hide Run, Taken, Do, TakenBy, Gain;
    var b, t2 := New(rate, burst, t), t + 1_000_000_000 * seconds;
    var first, second := Take(burst, t), Take(rate * seconds, t2);
    var empty := b.(tokens := 0.0);
    assert [first, second] == [first] + [second];
    RunAppend(b, [first], [second]);
    OneAccess(b, first);
    OneAccess(empty, second);
    GainOfSeconds(rate, seconds);
    DrainFull(rate, burst, t);
    DrainRefilled(rate, burst, t, seconds, rate * seconds);
  }

  /** The level stays between empty and full, and the clock mark never moves back, even when a
      reading is older than the mark. */
  lemma {:induction false} LevelStaysInRange(b: Bucket, log: seq<Access>)
    requires Valid(b)
    ensures var d := Run(b, log);
            Valid(d) && b.last <= d.last && d.rate == b.rate && d.capacity == b.capacity
  {
    if log != [] {
      LevelStaysInRange(b, log[..|log| - 1]);
      var m, a := Run(b, log[..|log| - 1]), log[|log| - 1];
      if a.now > m.last {
        GainNonNegative(m.rate, a.now - m.last);
      }
    }
  }

  lemma {:induction false} RunAppend(b: Bucket, first: seq<Access>, second: seq<Access>)
    ensures Run(b, first + second) == Run(Run(b, first), second)
    ensures Taken(b, first + second) == Taken(b, first) + Taken(Run(b, first), second)
  {
    if second == [] {
      assert first + [] == first;
    } else {
      assert (first + second)[..|first + second| - 1] == first + second[..|second| - 1];
      RunAppend(b, first, second[..|second| - 1]);
    }
  }

  /** The same bound for a window in the middle of a longer history: whatever happened before it. */
  lemma WindowBoundInHistory(b: Bucket, before: seq<Access>, log: seq<Access>, t1: int, t2: int)
    requires Valid(b) && b.rate > 0 && Run(b, before).last <= t2 && t1 <= t2 && Within(log, t1, t2)
    ensures Taken(b, before + log) as real - Taken(b, before) as real - GivenBack(log) as real
            <= b.capacity as real + Gain(b.rate, t2 - t1)
  {
    RunAppend(b, before, log);
    LevelStaysInRange(b, before);
    WindowBound(Run(b, before), log, t1, t2);
  }

  // ---- exact laws --------------------------------------------------------------------------

  /** What has come in by a reading: nothing if it is not newer than the mark. */
  function Inflow(b: Bucket, now: int): real {
    if now <= b.last then 0.0 else b.rate as real * ((now - b.last) as real / 1_000_000_000.0)
  }

  lemma InflowNonNegative(b: Bucket, now: int)
    ensures Inflow(b, now) >= 0.0
  {
    if now > b.last {
      GainNonNegative(b.rate, now - b.last);
    }
  }

  /** A take succeeds exactly when the tokens there, and those that have come in, are enough. */
  lemma TakeSucceedsExactly(b: Bucket, n: nat, now: int)
    requires Valid(b) && b.rate > 0 && n > 0
    ensures Succeeds(b, n, now) <==> n <= b.capacity && n as real <= b.tokens + Inflow(b, now)
  {
  }

  lemma RefillExactly(b: Bucket, now: int)
    requires Valid(b) && b.rate > 0
    ensures Refill(b, now) ==
            b.(tokens := MinReal(b.capacity as real, b.tokens + Inflow(b, now)), last := Max(b.last, now))
  {
  }

  /** The level and the mark after an access: the tokens there and those that have come in, up to the
      capacity; less the tokens taken, or plus those given back. */
  lemma AccessExactly(b: Bucket, a: Access)
    requires Valid(b) && b.rate > 0 && (!a.Look? ==> a.n > 0) && (a.Take? ==> a.n <= b.capacity)
    ensures var d := Do(b, a);
            var filled := MinReal(b.capacity as real, b.tokens + Inflow(b, a.now));
            && d.last == Max(b.last, a.now)
            && match a
               case Take(n, _) =>
                 d.tokens == filled - if n as real <= b.tokens + Inflow(b, a.now) then n as real else 0.0
               case GiveBack(n, _) => d.tokens == MinReal(b.capacity as real, b.tokens + Inflow(b, a.now) + n as real)
               case Look(_) => d.tokens == filled
  {
    InflowNonNegative(b, a.now);
    RefillExactly(b, a.now);
    hide Refill, Inflow;
  }

  /** A refund that does not overflow the bucket raises the level by all of it. */
  lemma RefundRaises(b: Bucket, n: nat, now: int)
    requires Valid(b) && b.rate > 0 && n > 0 && b.tokens + Inflow(b, now) + n as real <= b.capacity as real
    ensures Do(b, GiveBack(n, now)).tokens == b.tokens + Inflow(b, now) + n as real
  {
    AccessExactly(b, GiveBack(n, now));
  }

  /** The latest of the mark and all readings. */
  function Latest(last: int, log: seq<Access>): int {
    if log == [] then last else Max(Latest(last, log[..|log| - 1]), log[|log| - 1].now)
  }

  /** Accesses that take and give nothing: looks, and takes that fail for lack of tokens. */
  ghost predicate Idle(b: Bucket, log: seq<Access>) {
    && Taken(b, log) == 0
    && forall i :: 0 <= i < |log| ==> !log[i].GiveBack? && (log[i].Take? ==> 0 < log[i].n <= b.capacity)
  }

  lemma InflowAdds(b: Bucket, d: Bucket, now: int)
    requires d.rate == b.rate && b.last <= d.last
    ensures Inflow(b, d.last) + Inflow(d, now) == Inflow(b, Max(d.last, now))
  {
    if now > d.last {
      GainAdds(b.rate, d.last - b.last, now - d.last);
      assert d.last - b.last + (now - d.last) == now - b.last;
    }
  }

  lemma IdleStep(b: Bucket, d: Bucket, a: Access)
    requires Valid(b) && Valid(d) && b.rate > 0 && d.rate == b.rate && d.capacity == b.capacity && b.last <= d.last
    requires d.tokens == MinReal(b.capacity as real, b.tokens + Inflow(b, d.last))
    requires TakenBy(d, a) == 0 && !a.GiveBack? && (a.Take? ==> 0 < a.n <= b.capacity)
    ensures var d' := Do(d, a);
            && d'.last == Max(d.last, a.now)
            && d'.tokens == MinReal(b.capacity as real, b.tokens + Inflow(b, d'.last))
  {
    AccessExactly(d, a);
    if a.Take? {
      TakeSucceedsExactly(d, a.n, a.now);
    }
    InflowAdds(b, d, a.now);
    InflowNonNegative(b, d.last);
    InflowNonNegative(d, a.now);
  }

  /** Left alone, a bucket fills at its rate, however often and with whatever readings it is looked
      at: after any idle accesses the level is what it was, plus the rate for all of the time up to the
      latest reading, up to the capacity. */
  lemma {:induction false} IdleBucketFills(b: Bucket, log: seq<Access>)
    requires Valid(b) && b.rate > 0 && Idle(b, log)
    ensures var d := Run(b, log);
            && d.last == Latest(b.last, log)
            && d.tokens == MinReal(b.capacity as real, b.tokens + Inflow(b, Latest(b.last, log)))
  {
    if log != [] {
      var before, last := log[..|log| - 1], log[|log| - 1];
      LevelStaysInRange(b, before);
      IdleBucketFills(b, before);
      IdleStep(b, Run(b, before), last);
    }
  }

  /** So a caller that is alone is refused at a reading only if the rate has not yet brought what it
      lacks. */
  lemma RefusedOnlyWhenShort(b: Bucket, log: seq<Access>, n: nat, now: int)
    requires Valid(b) && b.rate > 0 && Idle(b, log) && 0 < n <= b.capacity && Latest(b.last, log) <= now
    ensures Succeeds(Run(b, log), n, now) <==> n as real <= b.tokens + Inflow(b, now)
  {
    var d := Run(b, log);
    LevelStaysInRange(b, log);
    IdleBucketFills(b, log);
    TakeSucceedsExactly(d, n, now);
    InflowAdds(b, d, now);
    InflowNonNegative(d, now);
  }
}
