/** The engine of src/run_command.cc as an object: the token bucket, the in-flight semaphore, the
    scheduler and the metrics registry it owns, the admission loop, and what the completion
    callbacks do. Sessions are kept as values. What other threads do between the admission thread's
    steps, what the clock shows and what is drawn are arguments. */
module RunEngineObject {
  import opened Basics
  import opened RunConfig
  import opened BucketModel
  import opened InFlight
  import opened MetricsObject
  import opened EngineModel
  import opened TokenBucketObject
  import Scheduler
  import Theorems = EngineTheorems
  import Invariants = EngineInvariants
  import MM = MetricsModel
  import S = SessionModel

  /** Steps taken by threads other than the admission thread. */
  predicate ByOthers(ev: Event) {
    ev.SessionMoved? || ev.Recorded? || ev.TokensSettled? || ev.Retired? || ev.SlotFreed? || ev.SiteFound?
  }

  /** What the surroundings do. In round k the clock shows tick(k) and the other threads take the
      steps others(k), and steps between(k) after a failed try for tokens; draws(k) are the scheduler's
      random numbers, subs(k) answers an Open. */
  datatype Trace = Trace(tick: nat -> int, others: nat -> seq<Event>, between: nat -> seq<Event>,
                         draws: nat -> (nat, real, real), subs: nat -> S.Status)
  {
    ghost predicate Valid() {
      && (forall j: nat, k: nat :: j < k ==> tick(j) < tick(k))
      && (forall k: nat, i :: 0 <= i < |others(k)| ==> ByOthers(others(k)[i]))
      && (forall k: nat, i :: 0 <= i < |between(k)| ==> ByOthers(between(k)[i]))
      && (forall k: nat :: Scheduler.IsDraw(draws(k).1) && Scheduler.IsDraw(draws(k).2))
    }
  }

  lemma PlayTwice(e: Engine, first: seq<Event>, second: seq<Event>)
    ensures Play(e, first + second) == Play(Play(e, first), second)
  {
    if second == [] {
      assert first + [] == first;
    } else {
      assert (first + second)[..|first + second| - 1] == first + second[..|second| - 1];
      PlayTwice(e, first, second[..|second| - 1]);
    }
  }

  /** The step that was to be taken, with the site that the registry chose. */
  predicate SameStep(ev: Event, done: Event) {
    done == ev || (ev.Recorded? && done.Recorded? && done.i == ev.i)
  }

  /** The rounds of a history that were spent on a try for tokens or on starting a session. */
  function Rounds(log: seq<Event>): nat {
    if log == [] then 0 else
    Rounds(log[..|log| - 1]) + if log[|log| - 1].ChargeTried? || log[|log| - 1].Launched? then 1 else 0
  }

  lemma OneRound(log: seq<Event>, ev: Event)
    ensures Rounds(log + [ev]) == Rounds(log) + if ev.ChargeTried? || ev.Launched? then 1 else 0
  {
    assert (log + [ev])[..|log|] == log;
  }

  lemma {:induction false} RoundsAppend(first: seq<Event>, second: seq<Event>)
    ensures Rounds(first + second) == Rounds(first) + Rounds(second)
  {
    if second == [] {
      assert first + [] == first;
    } else {
      assert (first + second)[..|first + second| - 1] == first + second[..|second| - 1];
      RoundsAppend(first, second[..|second| - 1]);
    }
  }

  /** At each of these points of a history all slots are in use. */
  ghost predicate FullAt(e: Engine, log: seq<Event>, points: seq<nat>) {
    forall i :: 0 <= i < |points| ==>
      points[i] <= |log| && Play(e, log[..points[i]]).slots.current >= Play(e, log[..points[i]]).slots.max
  }

  lemma NoRounds(e: Engine)
    ensures Play(e, []) == e && Rounds([]) == 0 && FullAt(e, [], [])
  {
  }

  lemma FullAtLonger(e: Engine, log: seq<Event>, done: seq<Event>, points: seq<nat>)
    requires FullAt(e, log, points)
    ensures FullAt(e, log + done, points)
  {
    hide Play;
    forall i | 0 <= i < |points| ensures (log + done)[..points[i]] == log[..points[i]] {
    }
  }

  /** One more point, at the end. */
  lemma FullAtMore(e: Engine, log: seq<Event>, points: seq<nat>)
    requires FullAt(e, log, points)
    ensures var now := Play(e, log); now.slots.current >= now.slots.max ==> FullAt(e, log, points + [|log|])
  {
    hide Play;
    assert log[..|log|] == log;
  }

  /** The points of a continued history. */
  lemma {:induction false} FullAtJoined(e: Engine, log: seq<Event>, done: seq<Event>, first: seq<nat>, second: seq<nat>)
    returns (points: seq<nat>)
    requires FullAt(e, log, first) && FullAt(Play(e, log), done, second)
    ensures FullAt(e, log + done, points) && |points| == |first| + |second|
  {
    hide Step;
    points := first + seq(|second|, i requires 0 <= i < |second| => |log| + second[i]);
    forall i | 0 <= i < |points|
      ensures points[i] <= |log + done|
      ensures var s := Play(e, (log + done)[..points[i]]).slots; s.current >= s.max
    {
      if i < |first| {
        assert (log + done)[..points[i]] == log[..first[i]];
      } else {
        var c := second[i - |first|];
        assert (log + done)[..points[i]] == log + done[..c];
        PlayTwice(e, log, done[..c]);
      }
    }
  }

  class RunEngine {
    const cfg: Config
    const born: int
    const bucket: TokenBucket
    const inflight: InFlightSemaphore
    const registry: MetricsRegistry
    const scheduler: Scheduler.Scheduler
    var clock: int
    var pc: Admission
    var live: nat
    var sessions: seq<Active>

    ghost function View(): Engine
      reads this, bucket, inflight, registry
    {
      Engine(cfg, born, clock, bucket.View(), inflight.View(), pc, live, sessions, registry.View())
    }

    ghost predicate Valid()
      reads this, registry, registry.siteMap
    {
      && registry.Valid() && scheduler.cfg == cfg
      && bucket.rate == cfg.rate && bucket.capacity == New(cfg.rate, ComputeBucketBurst(cfg), born).capacity
    }

    constructor (cfg: Config, files: nat, registry: MetricsRegistry, now: int)
      requires registry.Valid() && registry.View() == MM.EMPTY
      ensures Valid() && View() == Begin(cfg, now) && this.registry == registry && scheduler.files == files
      ensures fresh(bucket) && fresh(inflight) && fresh(scheduler)
    {
      this.cfg, this.registry, born, clock := cfg, registry, now, now;
      bucket := new TokenBucket(cfg.rate, ComputeBucketBurst(cfg), now);
      inflight := new InFlightSemaphore(cfg.maxInflight);
      scheduler := new Scheduler.Scheduler(cfg, files);
      pc, live, sessions := Idle, 0, [];
    }

    // ---- the admission thread --------------------------------------------------------------

    method TakeSlot() returns (ok: bool)
      requires pc == Idle && Valid()
      modifies this, inflight
      ensures Valid() && ok == (old(inflight.current) < inflight.max)
      ensures View() == if ok then Step(old(View()), SlotTaken) else old(View())
      ensures pc == if ok then Holding else Idle
    {
      ok := inflight.Acquire();
      if ok {
        pc := Holding;
      }
    }

    method PickItem(file: nat, randomDraw: real, vectorDraw: real)
      requires pc == Holding && Valid() && file < scheduler.files
      requires Scheduler.IsDraw(randomDraw) && Scheduler.IsDraw(vectorDraw)
      modifies this, scheduler
      ensures Valid() && pc == Picked(Scheduler.Produced(cfg, file, randomDraw, vectorDraw))
      ensures Scheduler.Allowed(cfg, pc.item) && View() == Step(old(View()), ItemPicked(pc.item))
    {
      var item := scheduler.Next(file, randomDraw, vectorDraw);
      pc := Picked(item);
    }

    method TryCharge(now: int) returns (ok: bool)
      requires pc.Picked? && Valid() && clock <= now
      modifies this, bucket
      ensures Valid() && View() == Step(old(View()), ChargeTried(now))
      ensures if ok then pc == Charged(old(pc).item) else pc == old(pc) && cfg.rate > 0
    {
      ok := bucket.TryAcquire(pc.item.charge, now);
      clock := now;
      if ok {
        pc := Charged(pc.item);
      }
    }

    /** After a failed try: how many tokens are missing. */
    method Peek(now: int) returns (deficit: real)
      requires Valid() && pc.Picked?
      modifies this, bucket
      ensures Valid() && View() == Step(old(View()), BucketPeeked(now)) && pc == old(pc)
      ensures deficit == pc.item.charge as real - bucket.tokens
    {
      deficit := bucket.Lack(pc.item.charge, now);
      clock := Max(clock, now);
    }

    method GiveUp()
      requires pc.Picked? && Valid()
      modifies this, inflight
      ensures Valid() && View() == Step(old(View()), GivenUp) && pc == Stopped
    {
      inflight.Release();
      pc := Stopped;
    }

    /** StartFileSession: Open is submitted and answered with `sub`. */
    method Launch(sub: S.Status)
      requires pc.Charged? && Valid()
      modifies this
      ensures Valid() && View() == Step(old(View()), Launched(sub)) && pc == Idle
    {
      var w := S.Start(sub);
      live := live + 1;
      sessions := sessions + [Active(pc.item.options, pc.item.charge, w, if w.s.completed then Called else Running)];
      pc := Idle;
    }

    // ---- the sessions and their callbacks --------------------------------------------------

    method MoveSession(i: nat, event: S.Event)
      requires (In(View(), i, Running) || In(View(), i, Freed)) && Valid()
      modifies this
      ensures Valid() && View() == Step(old(View()), SessionMoved(i, event)) && pc == old(pc)
    {
      hide S.Step;
      var a := sessions[i];
      var w := S.Step(a.options, a.world, event);
      var phase := if a.phase == Running && w.s.completed then Called else a.phase;
      sessions := sessions[i := a.(world := w, phase := phase)];
    }

    /** The first part of the completion callback: the outcome goes to the registry. */
    method RecordOutcome(i: nat) returns (attached: string)
      requires In(View(), i, Called) && Valid()
      modifies this, registry
      ensures Valid() && View() == Step(old(View()), Recorded(i, attached)) && pc == old(pc)
    {
      hide ErrorOf, MM.Observe;
      var a := sessions[i];
      var r := a.world.s.result;
      if r.ok {
        attached := registry.CountOk(Unsigned(r.bytesRead), r.ops, r.dataServer, []);
      } else {
        attached := registry.ObserveSessionFail(ErrorOf(r), r.dataServer, []);
      }
      sessions := sessions[i := a.(phase := Observed)];
    }

    /** The second part: the charge is squared with the bytes read. */
    method SettleTokens(i: nat, now: int)
      requires In(View(), i, Observed) && clock <= now && Valid()
      modifies this, bucket
      ensures Valid() && View() == Step(old(View()), TokensSettled(i, now)) && pc == old(pc)
    {
      var a := sessions[i];
      var bytes := a.world.s.result.bytesRead;
      if bytes > a.charge {
        var _ := bucket.TryAcquire(bytes - a.charge, now);
        clock := now;
      } else if bytes < a.charge {
        bucket.Refund(a.charge - Unsigned(bytes), now);
        clock := now;
      }
      sessions := sessions[i := a.(phase := Settled)];
    }

    method RetireSession(i: nat)
      requires In(View(), i, Settled) && Valid()
      modifies this
      ensures Valid() && View() == Step(old(View()), Retired(i)) && pc == old(pc)
    {
      live := Unsigned(live - 1);
      sessions := sessions[i := sessions[i].(phase := Left)];
    }

    method FreeSlot(i: nat)
      requires In(View(), i, Left) && Valid()
      modifies this, inflight
      ensures Valid() && View() == Step(old(View()), SlotFreed(i)) && pc == old(pc)
    {
      inflight.Release();
      sessions := sessions[i := sessions[i].(phase := Freed)];
    }

    /** The registry learns the site of a server. */
    method LearnSite(server: string, site: string)
      requires Valid()
      modifies this, registry
      ensures Valid() && View() == Step(old(View()), SiteFound(server, site)) && pc == old(pc)
    {
      registry.SetCmsSite(server, site);
    }

    /** One step of another thread, if that thread is there yet. */
    method Other(ev: Event) returns (ghost done: Event)
      requires ByOthers(ev) && Valid()
      modifies this, bucket, inflight, registry
      ensures Valid() && View() == Step(old(View()), done) && pc == old(pc)
      ensures SameStep(ev, done) && !done.ChargeTried? && !done.Launched?
    {
      hide Record, Settle, Retire, Free, Advance, MM.Observe, S.Step;
      done := ev;
      match ev {
        case SessionMoved(i, event) =>
          if i < |sessions| && (sessions[i].phase == Running || sessions[i].phase == Freed) {
            MoveSession(i, event);
          }
        case Recorded(i, _) =>
          if i < |sessions| && sessions[i].phase == Called {
            var attached := RecordOutcome(i);
            done := Recorded(i, attached);
          }
        case TokensSettled(i, now) =>
          if i < |sessions| && sessions[i].phase == Observed && clock <= now {
            SettleTokens(i, now);
          }
        case Retired(i) =>
          if i < |sessions| && sessions[i].phase == Settled {
            RetireSession(i);
          }
        case SlotFreed(i) =>
          if i < |sessions| && sessions[i].phase == Left {
            FreeSlot(i);
          }
        case SiteFound(server, site) => LearnSite(server, site);
      }
    }

    // ---- loops -----------------------------------------------------------------------------

    /** Other threads take their steps. */
    method Others(batch: seq<Event>) returns (ghost log: seq<Event>)
      requires Valid() && forall i :: 0 <= i < |batch| ==> ByOthers(batch[i])
      modifies this, bucket, inflight, registry
      ensures Valid() && View() == Play(old(View()), log) && pc == old(pc)
      ensures |log| == |batch| && Rounds(log) == 0 && forall i :: 0 <= i < |log| ==> SameStep(batch[i], log[i])
    {
      hide Step, Play, SameStep;
      ghost var e := View();
      Theorems.PlayNone(e);
      log := [];
      for i := 0 to |batch|
        invariant Valid() && View() == Play(e, log) && pc == old(pc)
        invariant |log| == i && Rounds(log) == 0
        invariant forall j :: 0 <= j < i ==> SameStep(batch[j], log[j])
      {
        ghost var done := Other(batch[i]);
        Theorems.PlayOne(e, log, done);
        OneRound(log, done);
        log := log + [done];
      }
    }

    /** InFlightSemaphore::AcquireUntil: wait for a free slot, or until the deadline. Every round waited
        found all slots in use: `full` says where in the history. */
    method AwaitSlot(deadline: int, t: Trace, k0: nat)
      returns (ok: bool, k: nat, ghost log: seq<Event>, ghost full: seq<nat>)
      requires Valid() && t.Valid() && pc == Idle
      modifies this, bucket, inflight, registry
      ensures Valid() && View() == Play(old(View()), log) && k >= k0
      ensures if ok then pc == Holding else pc == Idle && t.tick(k) >= deadline && inflight.current >= inflight.max
      ensures FullAt(old(View()), log, full) && Rounds(log) == 0 && k - k0 <= |full|
    {
      hide Step, FullAt;
      ghost var e := View();
      NoRounds(e);
      k, log, full := k0, [], [];
      while true
        invariant Valid() && View() == Play(e, log) && pc == Idle && k >= k0
        invariant FullAt(e, log, full) && Rounds(log) == 0 && k - k0 <= |full|
        decreases deadline - t.tick(k)
      {
        ghost var done := Others(t.others(k));
        PlayTwice(e, log, done);
        RoundsAppend(log, done);
        FullAtLonger(e, log, done, full);
        log := log + done;
        FullAtMore(e, log, full);
        ok := TakeSlot();
        if ok {
          Theorems.PlayOne(e, log, SlotTaken);
          OneRound(log, SlotTaken);
          FullAtLonger(e, log, [SlotTaken], full);
          log := log + [SlotTaken];
          return;
        }
        full := full + [|log|];
        if t.tick(k) >= deadline {
          return;
        }
        k := k + 1;
      }
    }

    /** One locked try for the item's charge, after other threads had their turn. */
    method Attempt(t: Trace, k: nat, ghost e: Engine, ghost log: seq<Event>) returns (ok: bool, ghost log': seq<Event>)
      requires Valid() && t.Valid() && pc.Picked? && View() == Play(e, log)
      modifies this, bucket, inflight, registry
      ensures Valid() && View() == Play(e, log') && Rounds(log') == Rounds(log) + 1
      ensures if ok then pc == Charged(old(pc).item) else pc == old(pc) && cfg.rate > 0
    {
      ghost var done := Others(t.others(k));
      PlayTwice(e, log, done);
      RoundsAppend(log, done);
      var now := Max(clock, t.tick(k));
      ok := TryCharge(now);
      Theorems.PlayOne(e, log + done, ChargeTried(now));
      OneRound(log + done, ChargeTried(now));
      log' := log + done + [ChargeTried(now)];
    }

    /** How many tokens are missing, after other threads had their turn again: the clock reading is
        from before that. */
    method Deficit(t: Trace, k: nat, ghost e: Engine, ghost log: seq<Event>)
      returns (deficit: real, ghost log': seq<Event>)
      requires Valid() && t.Valid() && pc.Picked? && View() == Play(e, log)
      modifies this, bucket, inflight, registry
      ensures Valid() && View() == Play(e, log') && pc == old(pc) && Rounds(log') == Rounds(log)
      ensures deficit == pc.item.charge as real - bucket.tokens
    {
      var now := t.tick(k);
      ghost var done := Others(t.between(k));
      PlayTwice(e, log, done);
      RoundsAppend(log, done);
      deficit := Peek(now);
      Theorems.PlayOne(e, log + done, BucketPeeked(now));
      OneRound(log + done, BucketPeeked(now));
      log' := log + done + [BucketPeeked(now)];
    }

    /** TokenBucket::AcquireUntil for the item at hand, with a try in every round. */
    method AwaitTokens(deadline: int, t: Trace, k0: nat)
      returns (ok: bool, k: nat, naps: seq<Nap>, ghost log: seq<Event>)
      requires Valid() && t.Valid() && pc.Picked?
      modifies this, bucket, inflight, registry
      ensures Valid() && View() == Play(old(View()), log) && k >= k0 && Rounds(log) == k - k0
      ensures if ok then pc == Charged(old(pc).item) else pc == old(pc)
      ensures !ok ==> cfg.rate > 0 && (old(pc).item.charge > bucket.capacity || t.tick(k) >= deadline)
      ensures forall i :: 0 <= i < |naps| ==> 0 < naps[i].len <= NAP_LIMIT && naps[i].at + naps[i].len <= deadline
    {
      hide Step, Play;
      ghost var e := View();
      NoRounds(e);
      k, naps, log := k0, [], [];
      if bucket.rate > 0 && pc.item.charge > bucket.capacity {
        return false, k, naps, log;
      }
      while true
        invariant Valid() && View() == Play(e, log) && pc == old(pc) && k >= k0 && Rounds(log) == k - k0
        invariant forall i :: 0 <= i < |naps| ==> 0 < naps[i].len <= NAP_LIMIT && naps[i].at + naps[i].len <= deadline
        decreases deadline - t.tick(k)
      {
        ok, log := Attempt(t, k, e, log);
        k := k + 1;
        var now := t.tick(k);
        if ok || now >= deadline {
          return;
        }
        var deficit;
        deficit, log := Deficit(t, k, e, log);
        if deficit > 0.0 {
          var len := bucket.NapLength(deficit, now, deadline);
          if len > 0 {
            naps := naps + [Nap(now, len)];
          }
        }
      }
    }

    /** With an item the scheduler may produce, tokens are given up for the deadline only. */
    method AwaitCharge(deadline: int, t: Trace, k0: nat, ghost e: Engine, ghost log: seq<Event>)
      returns (ok: bool, k: nat, ghost log': seq<Event>)
      requires Valid() && t.Valid() && pc.Picked? && Scheduler.Allowed(cfg, pc.item) && View() == Play(e, log)
      modifies this, bucket, inflight, registry
      ensures Valid() && View() == Play(e, log') && k >= k0 && log <= log'
      ensures Rounds(log') == Rounds(log) + (k - k0)
      ensures if ok then pc.Charged? else pc == Stopped && t.tick(k) >= deadline
    {
      hide Step;
      var naps;
      ghost var done;
      if cfg.rate > 0 {
        Theorems.CapacityIsBurst(cfg, born);
      }
      ok, k, naps, done := AwaitTokens(deadline, t, k0);
      PlayTwice(e, log, done);
      RoundsAppend(log, done);
      log' := log + done;
      if !ok {
        GiveUp();
        Theorems.PlayOne(e, log', GivenUp);
        OneRound(log', GivenUp);
        log' := log' + [GivenUp];
      }
    }

    /** One round of the admission loop, up to the start of a session. */
    method AdmitOne(deadline: int, t: Trace, k0: nat)
      returns (ok: bool, k: nat, ghost log: seq<Event>, ghost full: seq<nat>)
      requires Valid() && t.Valid() && pc == Idle
      requires forall j :: t.draws(j).0 < scheduler.files
      modifies this, bucket, inflight, registry, scheduler
      ensures Valid() && View() == Play(old(View()), log) && k >= k0
      ensures if ok then pc.Charged? else (pc == Idle || pc == Stopped) && t.tick(k) >= deadline
      ensures FullAt(old(View()), log, full) && k - k0 <= |full| + Rounds(log)
    {
      hide Step, FullAt;
      ghost var e := View();
      ok, k, log, full := AwaitSlot(deadline, t, k0);
      if ok {
        var (file, randomDraw, vectorDraw) := t.draws(k);
        PickItem(file, randomDraw, vectorDraw);
        Theorems.PlayOne(e, log, ItemPicked(pc.item));
        OneRound(log, ItemPicked(pc.item));
        ghost var picked := log + [ItemPicked(pc.item)];
        FullAtLonger(e, log, [ItemPicked(pc.item)], full);
        ok, k, log := AwaitCharge(deadline, t, k, e, picked);
        assert log == picked + log[|picked|..];
        FullAtLonger(e, picked, log[|picked|..], full);
      }
    }

    /** The admission thread leaves the loop. */
    method Stop()
      requires Valid() && pc == Idle
      modifies this
      ensures Valid() && View() == Step(old(View()), DeadlinePassed) && pc == Stopped
    {
      pc := Stopped;
    }

    /** A session has its tokens: it starts, and that takes a round. */
    method StartOne(sub: S.Status, ghost e: Engine, ghost log: seq<Event>) returns (ghost log': seq<Event>)
      requires Valid() && pc.Charged? && View() == Play(e, log)
      modifies this
      ensures Valid() && pc == Idle && log' == log + [Launched(sub)] && View() == Play(e, log')
      ensures Rounds(log') == Rounds(log) + 1
    {
      hide Step;
      Launch(sub);
      Theorems.PlayOne(e, log, Launched(sub));
      OneRound(log, Launched(sub));
      log' := log + [Launched(sub)];
    }

    /** The admission loop goes on until the deadline, and no round of it is idle: each was spent on
        finding all slots in use, on a try for tokens, or on starting a session. */
    method Admit(deadline: int, t: Trace) returns (k: nat, ghost log: seq<Event>, ghost full: seq<nat>)
      requires Valid() && t.Valid() && pc == Idle
      requires forall j :: t.draws(j).0 < scheduler.files
      modifies this, bucket, inflight, registry, scheduler
      ensures Valid() && View() == Play(old(View()), log) && pc == Stopped
      ensures t.tick(k) >= deadline
      ensures FullAt(old(View()), log, full) && k <= |full| + Rounds(log)
    {
      hide Step, FullAt;
      ghost var e := View();
      NoRounds(e);
      k, log, full := 0, [], [];
      while t.tick(k) < deadline
        invariant Valid() && View() == Play(e, log) && (pc == Idle || (pc == Stopped && t.tick(k) >= deadline))
        invariant FullAt(e, log, full) && k <= |full| + Rounds(log)
        decreases deadline - t.tick(k)
      {
        var ok, k';
        ghost var done, more;
        ok, k', done, more := AdmitOne(deadline, t, k);
        PlayTwice(e, log, done);
        RoundsAppend(log, done);
        full := FullAtJoined(e, log, done, full, more);
        log := log + done;
        if !ok {
          k := k';
          break;
        }
        FullAtLonger(e, log, [Launched(t.subs(k'))], full);
        log := StartOne(t.subs(k'), e, log);
        assert t.tick(k) < t.tick(k' + 1);
        k := k' + 1;
      }
      if pc == Idle {
        Stop();
        Theorems.PlayOne(e, log, DeadlinePassed);
        OneRound(log, DeadlinePassed);
        FullAtLonger(e, log, [DeadlinePassed], full);
        log := log + [DeadlinePassed];
      }
    }

    /** The drain wait: until no session is live, or its deadline. */
    method Drain(deadline: int, t: Trace, k0: nat) returns (k: nat, ghost log: seq<Event>)
      requires Valid() && t.Valid()
      modifies this, bucket, inflight, registry
      ensures Valid() && View() == Play(old(View()), log) && pc == old(pc)
      ensures live == 0 || t.tick(k) >= deadline
    {
      ghost var e := View();
      Theorems.PlayNone(e);
      k, log := k0, [];
      while live > 0 && t.tick(k) < deadline
        invariant Valid() && View() == Play(e, log) && pc == old(pc)
        decreases deadline - t.tick(k)
      {
        ghost var done := Others(t.others(k));
        PlayTwice(e, log, done);
        log := log + done;
        k := k + 1;
      }
    }
  }

  /** The run itself: admit until the deadline, then drain. `reached` is the reading at which admission
      ended. Whatever the library, the clock and the other threads do, it ends, its history is a run of
      the engine, and so: a target rate with a byte cap is kept; the peak stays within the in-flight cap;
      live sessions are never more than slots in use; and the metrics add up. */
  method Run(cfg: Config, files: nat, registry: MetricsRegistry, t0: int, deadline: int, drainDeadline: int, t: Trace)
    returns (engine: RunEngine, reached: int, ghost log: seq<Event>)
    requires registry.Valid() && registry.View() == MM.EMPTY && t.Valid()
    requires forall j :: t.draws(j).0 < files
    modifies registry
    ensures engine.registry == registry && engine.cfg == cfg && engine.pc == Stopped
    ensures engine.View() == Play(Begin(cfg, t0), log)
    ensures reached >= deadline
    ensures Invariants.Limited(cfg) ==> Theorems.WithinRate(cfg, t0, engine.View())
    ensures Theorems.SlotsConserved(engine.View())
    ensures MM.Conserved(registry.View())
  {
    engine := new RunEngine(cfg, files, registry, t0);
    var k;
    ghost var admitted, drained, full;
    k, admitted, full := engine.Admit(deadline, t);
    reached := t.tick(k);
    k, drained := engine.Drain(drainDeadline, t, k);
    log := admitted + drained;
    PlayTwice(Begin(cfg, t0), admitted, drained);
    FactsOfRun(cfg, t0, log);
  }

  lemma FactsOfRun(cfg: Config, t0: int, log: seq<Event>)
    ensures var e := Play(Begin(cfg, t0), log);
            && (Invariants.Limited(cfg) ==> Theorems.WithinRate(cfg, t0, e))
            && Theorems.SlotsConserved(e) && MM.Conserved(e.registry)
  {
    hide Theorems.WithinRate, Theorems.SlotsConserved, MM.Conserved, Play;
    Theorems.Invariant(cfg, t0, log);
    Theorems.SlotConservation(cfg, t0, log);
    if Invariants.Limited(cfg) {
      Theorems.RateBound(cfg, t0, log);
    }
  }

  /** The summary at the end of a run: per-site sums, and those of the servers without a site. */
  method Summarize(registry: MetricsRegistry)
    returns (sites: map<string, MM.Counters>, bytes: nat, ok: nat, fail: nat)
    requires MM.Conserved(registry.View())
    ensures MM.RolledUp(sites, registry.byDataServer)
    ensures MM.Sum(MM.BySite(sites, MM.Bytes)) + bytes == registry.bytesReadTotal
    ensures MM.Sum(MM.BySite(sites, MM.Ok)) + ok == registry.sessionsOk
    ensures MM.Sum(MM.BySite(sites, MM.Fail)) + fail == registry.sessionsFail
  {
    sites := RollUp(registry.byDataServer);
    bytes, ok, fail := UnmappedTotals(registry.byDataServer);
    ghost var r := registry.View();
    assert MM.Sum(MM.ByServer(r.servers, MM.Bytes)) == MM.Get(r.total, MM.Bytes);
    assert MM.Sum(MM.ByServer(r.servers, MM.Ok)) == MM.Get(r.total, MM.Ok);
    assert MM.Sum(MM.ByServer(r.servers, MM.Fail)) == MM.Get(r.total, MM.Fail);
  }
}
