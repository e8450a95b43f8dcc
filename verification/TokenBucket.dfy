/** The shared token bucket object of src/token_bucket.cc. Other threads run between the locked
    regions of AcquireUntil: what they do there, and what the clock shows, are arguments. */
module TokenBucketObject {
  import opened Basics
  import opened BucketModel

  /** One entry of the interleaved history: an access by this call, or by another thread. */
  datatype Entry = Mine(a: Access) | Theirs(a: Access)

  function Accesses(log: seq<Entry>): (r: seq<Access>)
    ensures |r| == |log|
  {
    if log == [] then [] else Accesses(log[..|log| - 1]) + [log[|log| - 1].a]
  }

  function TheirsAll(batch: seq<Access>): (r: seq<Entry>)
    ensures |r| == |batch| && forall i :: 0 <= i < |batch| ==> r[i] == Theirs(batch[i])
  {
    if batch == [] then [] else TheirsAll(batch[..|batch| - 1]) + [Theirs(batch[|batch| - 1])]
  }

  /** Tokens taken by this call's own accesses. */
  function MyTaken(b: Bucket, log: seq<Entry>): nat {
    if log == [] then 0 else
    var before, e := log[..|log| - 1], log[|log| - 1];
    MyTaken(b, before) + (if e.Mine? then TakenBy(Run(b, Accesses(before)), e.a) else 0)
  }

  /** The clock readings of this call's own tries, in order. */
  function MyTries(log: seq<Entry>): seq<int> {
    if log == [] then [] else
    var before, e := log[..|log| - 1], log[|log| - 1];
    MyTries(before) + if e.Mine? && e.a.Take? then [e.a.now] else []
  }

  /** One try in each round, with that round's reading. */
  ghost predicate TriedAt(tries: seq<int>, rounds: nat, lockedAt: nat -> int) {
    |tries| == rounds && forall j: nat :: j < rounds ==> tries[j] == lockedAt(j)
  }

  lemma TriedOnceMore(tries: seq<int>, rounds: nat, lockedAt: nat -> int)
    requires TriedAt(tries, rounds, lockedAt)
    ensures TriedAt(tries + [lockedAt(rounds)], rounds + 1, lockedAt)
  {
  }

  /** This call only ever tries to take n. */
  ghost predicate TriesOnly(n: nat, log: seq<Entry>) {
    forall i :: 0 <= i < |log| && log[i].Mine? && log[i].a.Take? ==> log[i].a.n == n
  }

  lemma NothingLogged(b: Bucket, n: nat, lockedAt: nat -> int)
    ensures Run(b, Accesses([])) == b && MyTaken(b, []) == 0
    ensures TriesOnly(n, []) && TriedAt(MyTries([]), 0, lockedAt)
  {
  }

  lemma AppendOne(b: Bucket, log: seq<Entry>, e: Entry)
    ensures Run(b, Accesses(log + [e])) == Do(Run(b, Accesses(log)), e.a)
    ensures MyTaken(b, log + [e]) ==
            MyTaken(b, log) + if e.Mine? then TakenBy(Run(b, Accesses(log)), e.a) else 0
    ensures MyTries(log + [e]) == MyTries(log) + if e.Mine? && e.a.Take? then [e.a.now] else []
  {
    assert (log + [e])[..|log|] == log;
    assert (Accesses(log) + [e.a])[..|log|] == Accesses(log);
  }

  lemma {:induction false} AppendTheirs(b: Bucket, log: seq<Entry>, batch: seq<Access>)
    ensures Run(b, Accesses(log + TheirsAll(batch))) == Run(Run(b, Accesses(log)), batch)
    ensures MyTaken(b, log + TheirsAll(batch)) == MyTaken(b, log)
    ensures MyTries(log + TheirsAll(batch)) == MyTries(log)
  {
    if batch == [] {
      assert log + TheirsAll([]) == log;
    } else {
      var init, last := batch[..|batch| - 1], Theirs(batch[|batch| - 1]);
      AppendTheirs(b, log, init);
      assert log + TheirsAll(batch) == log + TheirsAll(init) + [last];
      AppendOne(b, log + TheirsAll(init), last);
    }
  }

  /** In so many whole nanoseconds the deficit does not quite refill, in one more it does. */
  lemma FloorOfRefillTime(rate: nat, deficit: real, len: int)
    requires rate > 0 && deficit > 0.0 && len == (deficit / rate as real * NANOS).Floor
    ensures 0 <= len && Gain(rate, len) <= deficit < Gain(rate, len + 1)
  {
    hide Gain;
    var r, t := rate as real, deficit / rate as real;
    var x, y := len as real / NANOS, (len + 1) as real / NANOS;
    Quotient(deficit, r);
    assert 0.0 <= t * NANOS;
    assert x <= t < y;
    assert Gain(rate, len) == r * x && Gain(rate, len + 1) == r * y by {
      GainIsProduct(rate, len, r, x);
      GainIsProduct(rate, len + 1, r, y);
    }
    assert r * x <= deficit < r * y by {
      ProductBetween(r, x, t, y, deficit);
    }
  }

  lemma GainIsProduct(rate: nat, nanos: int, r: real, x: real)
    requires r == rate as real && x == nanos as real / NANOS
    ensures Gain(rate, nanos) == r * x
  {
  }

  lemma Quotient(d: real, r: real)
    requires d > 0.0 && r > 0.0
    ensures d / r > 0.0 && r * (d / r) == d
  {
  }

  lemma ProductBetween(r: real, x: real, t: real, y: real, d: real)
    requires r > 0.0 && x <= t < y && d == r * t
    ensures r * x <= d < r * y
  {
    assert r * (t - x) >= 0.0 && r * (y - t) > 0.0;
    assert r * (t - x) == r * t - r * x && r * (y - t) == r * y - r * t;
  }

  lemma GainMonotone(rate: nat, a: int, b: int)
    requires a <= b
    ensures Gain(rate, a) <= Gain(rate, b)
  {
    GainAdds(rate, a, b - a);
    GainNonNegative(rate, b - a);
    assert a + (b - a) == b;
  }

  /** A sleep of `len` nanoseconds that starts at `at`. */
  datatype Nap = Nap(at: int, len: int)

  class TokenBucket {
    const rate: nat
    const capacity: nat
    var tokens: real
    var last: int

    ghost function View(): Bucket
      reads this
    {
      Bucket(rate, capacity, tokens, last)
    }

    constructor (rate: nat, burst: nat, now: int)
      ensures View() == New(rate, burst, now) && Valid(View())
    {
      this.rate := rate;
      capacity := if burst > 0 then burst else if rate > 0 then rate else 1;
      tokens := (if burst > 0 then burst else if rate > 0 then rate else 1) as real;
      last := now;
    }

    method RefillUnlocked(now: int)
      modifies this
      ensures View() == Refill(old(View()), now)
    {
      if rate == 0 {
        return;
      }
      var dt := now - last;
      if dt <= 0 {
        return;
      }
      tokens := MinReal(capacity as real, tokens + Gain(rate, dt));
      last := now;
    }

    method TryAcquire(n: nat, now: int) returns (ok: bool)
      modifies this
      ensures View() == Do(old(View()), Take(n, now))
      ensures ok == Succeeds(old(View()), n, now)
    {
      if rate == 0 || n == 0 {
        return true;
      }
      if n > capacity {
        return false;
      }
      RefillUnlocked(now);
      if tokens < n as real {
        return false;
      }
      tokens := tokens - n as real;
      return true;
    }

    method Refund(n: nat, now: int)
      modifies this
      ensures View() == Do(old(View()), GiveBack(n, now))
    {
      if rate == 0 || n == 0 {
        return;
      }
      RefillUnlocked(now);
      tokens := MinReal(capacity as real, tokens + n as real);
    }

    /** Other threads access the bucket. */
    method Interference(batch: seq<Access>)
      modifies this
      ensures View() == Run(old(View()), batch)
    {
      ghost var b := View();
      var i := 0;
      while i < |batch|
        invariant 0 <= i <= |batch|
        invariant View() == Run(b, batch[..i])
      {
        assert batch[..i + 1][..i] == batch[..i];
        match batch[i] {
          case Take(n, now) => var _ := TryAcquire(n, now);
          case GiveBack(n, now) => Refund(n, now);
          case Look(now) => RefillUnlocked(now);
        }
        i := i + 1;
      }
      assert batch[..i] == batch;
    }

    /** First locked region of a round of AcquireUntil, after other threads had their turn. */
    method Attempt(n: nat, now: int, batch: seq<Access>, ghost b: Bucket, ghost log: seq<Entry>)
      returns (ok: bool, ghost log': seq<Entry>)
      requires View() == Run(b, Accesses(log)) && 0 < n <= capacity && rate > 0 && TriesOnly(n, log)
      modifies this
      ensures View() == Run(b, Accesses(log')) && TriesOnly(n, log')
      ensures MyTaken(b, log') == MyTaken(b, log) + if ok then n else 0
      ensures MyTries(log') == MyTries(log) + [now]
    {
      Interference(batch);
      AppendTheirs(b, log, batch);
      log' := log + TheirsAll(batch);
      ok := TryAcquire(n, now);
      AppendOne(b, log', Mine(Take(n, now)));
      log' := log' + [Mine(Take(n, now))];
    }

    /** Look at the level, and say how many of n tokens are missing. */
    method Lack(n: nat, now: int) returns (deficit: real)
      modifies this
      ensures View() == Do(old(View()), Look(now)) && deficit == n as real - tokens
    {
      RefillUnlocked(now);
      deficit := n as real - tokens;
    }

    /** Second locked region of a round, after other threads had their turn. */
    method Deficit(n: nat, now: int, batch: seq<Access>, ghost b: Bucket, ghost log: seq<Entry>)
      returns (deficit: real, ghost log': seq<Entry>)
      requires View() == Run(b, Accesses(log)) && TriesOnly(n, log)
      modifies this
      ensures View() == Run(b, Accesses(log')) && TriesOnly(n, log') && MyTaken(b, log') == MyTaken(b, log)
      ensures MyTries(log') == MyTries(log)
      ensures deficit == n as real - tokens
    {
      Interference(batch);
      AppendTheirs(b, log, batch);
      log' := log + TheirsAll(batch);
      deficit := Lack(n, now);
      AppendOne(b, log', Mine(Look(now)));
      log' := log' + [Mine(Look(now))];
    }

    /** How long to sleep for a deficit: the whole nanoseconds in which it refills, but never past
        the deadline, never over 20 ms. */
    method NapLength(deficit: real, now: int, deadline: int) returns (len: int)
      requires rate > 0 && now < deadline && deficit > 0.0
      ensures 0 <= len <= NAP_LIMIT && now + len <= deadline
      ensures Gain(rate, len) <= deficit
      ensures len < NAP_LIMIT && now + len < deadline ==> deficit < Gain(rate, len + 1)
    {
      len := (deficit / rate as real * NANOS).Floor;
      FloorOfRefillTime(rate, deficit, len);
      ghost var refill := len;
      len := Min(len, deadline - now);
      len := Min(len, NAP_LIMIT);
      GainMonotone(rate, len, refill);
    }

    /** Block until n tokens are taken or the deadline passes. In round k the bucket is tried at
        clock reading lockedAt(k), after other threads did before(k); the reading checkedAt(k) is
        made without the lock and used after other threads did between(k). */
    method AcquireUntil(n: nat, deadline: int, lockedAt: nat -> int, checkedAt: nat -> int,
                        before: nat -> seq<Access>, between: nat -> seq<Access>)
      returns (ok: bool, round: nat, naps: seq<Nap>, ghost log: seq<Entry>)
      requires forall j: nat, k: nat :: j < k ==> checkedAt(j) < checkedAt(k)
      modifies this
      ensures View() == Run(old(View()), Accesses(log))
      ensures MyTaken(old(View()), log) == if ok && rate > 0 then n else 0
      ensures TriesOnly(n, log)
      ensures !ok ==> n > capacity || checkedAt(round) >= deadline
      ensures !ok ==> rate > 0
      ensures rate > 0 && 0 < n <= capacity ==> TriedAt(MyTries(log), round + 1, lockedAt)
      ensures forall i :: 0 <= i < |naps| ==> 0 < naps[i].len <= NAP_LIMIT && naps[i].at + naps[i].len <= deadline
    {
      hide TriedAt, TriesOnly, MyTries, MyTaken, Run, Accesses;
      ghost var b := View();
      NothingLogged(b, n, lockedAt);
      round, naps, log := 0, [], [];
      if rate == 0 || n == 0 {
        return true, 0, [], [];
      }
      if n > capacity {
        return false, 0, [], [];
      }
      while true
        invariant View() == Run(b, Accesses(log)) && MyTaken(b, log) == 0
        invariant TriesOnly(n, log) && TriedAt(MyTries(log), round, lockedAt)
        invariant forall i :: 0 <= i < |naps| ==> 0 < naps[i].len <= NAP_LIMIT && naps[i].at + naps[i].len <= deadline
        decreases deadline - checkedAt(round)
      {
        TriedOnceMore(MyTries(log), round, lockedAt);
        ok, log := Attempt(n, lockedAt(round), before(round), b, log);
        if ok {
          return;
        }
        var now := checkedAt(round);
        if now >= deadline {
          return;
        }
        var deficit;
        deficit, log := Deficit(n, now, between(round), b, log);
        round := round + 1;
        if deficit <= 0.0 {
          continue;
        }
        var len := NapLength(deficit, now, deadline);
        if len > 0 {
          naps := naps + [Nap(now, len)];
        }
      }
    }
  }
}
