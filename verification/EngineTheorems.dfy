/** What the admission engine guarantees over whole runs: any configuration, any library behaviour,
    any interleaving of the admission thread, the sessions and their callbacks. */
module EngineTheorems {
  import opened Basics
  import opened RunConfig
  import opened BucketModel
  import opened InFlight
  import opened MetricsModel
  import opened EngineModel
  import opened EngineInvariants
  import Scheduler
  import Classifier = ErrorClassifier
  import S = SessionModel
  import A = SessionAccounting
  import T = SessionTheorems
  import L = SessionLiveness

  ghost predicate Inv(e: Engine) {
    && Sane(e) && SlotsFit(e) && LevelFits(e) && MetricsFit(e)
    && (Limited(e.cfg) ==> TokensFit(e))
  }

  lemma SlotsBegin(cfg: Config, now: int)
    ensures SlotsFit(Begin(cfg, now)) && Sane(Begin(cfg, now))
  {
  }

  lemma MetricsBegin(cfg: Config, now: int)
    ensures MetricsFit(Begin(cfg, now))
  {
    AttributionConserves([]);
  }

  lemma BucketBegin(cfg: Config, now: int)
    ensures BucketFits(Begin(cfg, now)) && TokensFit(Begin(cfg, now)) && LevelFits(Begin(cfg, now))
  {
    var e := Begin(cfg, now);
    assert Drawn(e) == 0;
  }

  lemma InvBegin(cfg: Config, now: int)
    ensures Inv(Begin(cfg, now))
  {
    SlotsBegin(cfg, now);
    MetricsBegin(cfg, now);
    BucketBegin(cfg, now);
  }

  /** The constants of a run. */
  ghost predicate SameRun(e: Engine, e': Engine) {
    e'.cfg == e.cfg && e'.born == e.born && e.clock <= e'.clock
  }

  lemma SameRunStep(e: Engine, ev: Event)
    ensures SameRun(e, Step(e, ev))
  {
  }

  lemma InvStep(e: Engine, ev: Event, e': Engine)
    requires Inv(e) && e' == Step(e, ev)
    ensures Inv(e') && SameRun(e, e')
  {
    SameRunStep(e, ev);
    SaneStep(e, ev);
    SlotsStep(e, ev);
    LevelStep(e, ev);
    MetricsStep(e, ev);
    if Limited(e.cfg) {
      TokensStep(e, ev);
    }
  }

  lemma {:induction false} InvKept(e: Engine, events: seq<Event>)
    requires Inv(e)
    ensures Inv(Play(e, events)) && SameRun(e, Play(e, events))
  {
    if events != [] {
      var before := Play(e, events[..|events| - 1]);
      InvKept(e, events[..|events| - 1]);
      InvStep(before, events[|events| - 1], Play(e, events));
    }
  }

  lemma Invariant(cfg: Config, t0: int, events: seq<Event>)
    ensures var e := Play(Begin(cfg, t0), events);
            Inv(e) && e.cfg == cfg && e.born == t0 && t0 <= e.clock
  {
    InvBegin(cfg, t0);
    InvKept(Begin(cfg, t0), events);
  }

  lemma PlayNone(e: Engine)
    ensures Play(e, []) == e
  {
  }

  lemma PlayOne(e: Engine, events: seq<Event>, ev: Event)
    ensures Play(e, events + [ev]) == Step(Play(e, events), ev)
  {
    assert (events + [ev])[..|events|] == events;
  }

  // ---- rate --------------------------------------------------------------------------------

  /** The bytes sessions have delivered to the registry as successes. */
  function BytesReported(e: Engine): nat {
    e.registry.total.bytes
  }

  lemma BytesWithinDrawn(e: Engine)
    requires Inv(e) && Limited(e.cfg)
    ensures BytesReported(e) <= Drawn(e)
  {
    forall i | 0 <= i < |e.sessions| ensures CountsBytes(e.sessions[i]) <= Owes(e.sessions[i]) {
      var a := e.sessions[i];
      assert GoodSession(e.cfg, a);
      if a.world.s.completed {
        ResultFacts(a.options, a.world);
      }
    }
    TotalOrdered(e.sessions, CountsBytes, Owes);
  }

  lemma CapacityIsBurst(cfg: Config, now: int)
    requires cfg.rate > 0
    ensures New(cfg.rate, ComputeBucketBurst(cfg), now).capacity == ComputeBucketBurst(cfg)
  {
  }

  lemma DrawnIsBounded(e: Engine, burst: nat)
    requires TokensFit(e) && burst == e.bucket.capacity
    ensures Drawn(e) as real <= burst as real + Gain(e.cfg.rate, e.clock - e.born)
  {
    CeilingBounds(e.bucket, e.born, e.clock);
  }

  /** The charges of the sessions not yet settled and the bytes of those settled, ok or failed, are
      together at most the burst plus the rate times the time since the bucket was made. The bytes
      counted in the metrics are part of that. */
  ghost predicate WithinRate(cfg: Config, t0: int, e: Engine) {
    && BytesReported(e) <= Drawn(e)
    && Drawn(e) as real <= ComputeBucketBurst(cfg) as real + Gain(cfg.rate, e.clock - t0)
  }

  lemma RateHolds(cfg: Config, t0: int, e: Engine)
    requires Inv(e) && Limited(cfg) && e.cfg == cfg && e.born == t0
    ensures WithinRate(cfg, t0, e)
  {
    BytesWithinDrawn(e);
    CapacityIsBurst(cfg, t0);
    DrawnIsBounded(e, ComputeBucketBurst(cfg));
  }

  /** The end-to-end rate bound: with a target rate and a byte cap, every run keeps to the rate at
      every moment. */
  lemma RateBound(cfg: Config, t0: int, events: seq<Event>)
    requires Limited(cfg)
    ensures WithinRate(cfg, t0, Play(Begin(cfg, t0), events))
  {
    Invariant(cfg, t0, events);
    RateHolds(cfg, t0, Play(Begin(cfg, t0), events));
  }

  /** The level follows the account: it is never below the capacity less what is drawn, and with a
      byte cap never above that by more than the rate can have brought. Before the clock moves it is
      exactly the capacity less the charges of sessions not settled and the bytes of those settled. */
  lemma LevelFollowsAccount(cfg: Config, t0: int, events: seq<Event>)
    requires cfg.rate > 0
    ensures var e := Play(Begin(cfg, t0), events);
            var left := (e.bucket.capacity - Drawn(e)) as real;
            && left <= e.bucket.tokens
            && (Limited(cfg) ==> e.bucket.tokens <= left + Gain(cfg.rate, e.clock - t0))
            && (Limited(cfg) && e.clock == t0 ==> e.bucket.tokens == left)
  {
    hide Inv, Play, Drawn;
    Invariant(cfg, t0, events);
    LevelFromInvariant(Play(Begin(cfg, t0), events), t0);
  }

  lemma LevelFromInvariant(e: Engine, t0: int)
    requires Inv(e) && e.cfg.rate > 0 && e.born == t0
    ensures var left := (e.bucket.capacity - Drawn(e)) as real;
            && left <= e.bucket.tokens
            && (Limited(e.cfg) ==> e.bucket.tokens <= left + Gain(e.cfg.rate, e.clock - t0))
            && (Limited(e.cfg) && e.clock == t0 ==> e.bucket.tokens == left)
  {
    hide Drawn, Sane, SlotsFit, MetricsFit;
    GainNonNegative(e.cfg.rate, e.clock - e.bucket.last);
    assert Gain(e.cfg.rate, 0) == 0.0;
  }

  /** The settlement of a session never takes more tokens: no session reads more than its charge. */
  lemma SettlementNeverTakes(cfg: Config, t0: int, events: seq<Event>, i: nat)
    requires Limited(cfg) && In(Play(Begin(cfg, t0), events), i, Observed)
    ensures var a := Play(Begin(cfg, t0), events).sessions[i];
            && 0 <= a.world.s.result.bytesRead <= cfg.maxBytes <= a.charge
            && forall now: int ::
                 var access := Settlement(a.charge, a.world.s.result.bytesRead, now);
                 access.Some? ==> access.value.GiveBack?
  {
    Invariant(cfg, t0, events);
    var a := Play(Begin(cfg, t0), events).sessions[i];
    assert GoodSession(cfg, a);
    ResultFacts(a.options, a.world);
  }

  // ---- slots -------------------------------------------------------------------------------

  /** The callback has taken its session off the live ones, and not yet given its slot back. */
  function Leaves(a: Active): int {
    if a.phase == Left then 1 else 0
  }

  lemma {:induction false} HeldAreLiveOrLeaving(sessions: seq<Active>)
    ensures TotalOf(sessions, Holds) == TotalOf(sessions, Lives) + TotalOf(sessions, Leaves)
    ensures 0 <= TotalOf(sessions, Leaves)
    ensures TotalOf(sessions, Leaves) == 0 <==> forall i :: 0 <= i < |sessions| ==> sessions[i].phase != Left
  {
    if sessions != [] {
      HeldAreLiveOrLeaving(sessions[..|sessions| - 1]);
    }
  }

  /** Live sessions and slots in use never exceed the in-flight cap; the peak is below it too. Slots
      in use are the admission thread's, the live sessions' and those of callbacks that are about to
      release theirs; and a Release always finds a slot to give back. */
  ghost predicate SlotsConserved(e: Engine) {
    && e.live == TotalOf(e.sessions, Lives)
    && e.slots.current == HeldByAdmission(e.pc) + e.live + TotalOf(e.sessions, Leaves)
    && e.live <= e.slots.current <= e.slots.peak <= Max(e.cfg.maxInflight, 1)
    && (forall i :: In(e, i, Settled) ==> e.live > 0)
    && (forall i :: In(e, i, Left) ==> e.slots.current > 0)
    && (e.pc.Picked? ==> e.slots.current > 0)
  }

  lemma SlotsFitConserve(e: Engine)
    requires SlotsFit(e)
    ensures SlotsConserved(e)
  {
    hide TotalOf;
    SlotSums(e.sessions);
    HeldAreLiveOrLeaving(e.sessions);
  }

  lemma SlotConservation(cfg: Config, t0: int, events: seq<Event>)
    ensures SlotsConserved(Play(Begin(cfg, t0), events))
  {
    Invariant(cfg, t0, events);
    SlotsFitConserve(Play(Begin(cfg, t0), events));
  }

  /** With admission stopped and no session live, the slots still in use are exactly those of
      callbacks between the end of their session's life and their Release: the drain wait may be over
      before the last Release. */
  lemma SlotsAfterDrain(e: Engine)
    requires SlotsConserved(e) && e.pc == Stopped && e.live == 0
    ensures e.slots.current == TotalOf(e.sessions, Leaves)
    ensures e.slots.current == 0 <==> forall i :: 0 <= i < |e.sessions| ==> e.sessions[i].phase != Left
  {
    HeldAreLiveOrLeaving(e.sessions);
  }

  lemma {:induction false} NoneHeld(sessions: seq<Active>)
    requires forall i :: 0 <= i < |sessions| ==> sessions[i].phase == Freed
    ensures TotalOf(sessions, Holds) == 0 && TotalOf(sessions, Lives) == 0
  {
    if sessions != [] {
      NoneHeld(sessions[..|sessions| - 1]);
    }
  }

  /** When the admission thread is done and every callback has run, all slots are back. */
  lemma AllSlotsReturn(cfg: Config, t0: int, events: seq<Event>)
    requires var e := Play(Begin(cfg, t0), events);
             e.pc == Stopped && forall i :: 0 <= i < |e.sessions| ==> e.sessions[i].phase == Freed
    ensures var e := Play(Begin(cfg, t0), events);
            e.live == 0 && e.slots.current == 0
  {
    Invariant(cfg, t0, events);
    NoneHeld(Play(Begin(cfg, t0), events).sessions);
  }

  /** The largest number of slots in use so far. */
  ghost function MostInUse(e: Engine, events: seq<Event>): nat {
    if events == [] then e.slots.current
    else Max(MostInUse(e, events[..|events| - 1]), Play(e, events).slots.current)
  }

  lemma PeakStep(e: Engine, ev: Event)
    ensures var s := Step(e, ev).slots; s.peak == e.slots.peak || s.peak == Max(e.slots.peak, s.current)
    ensures e.slots.current <= e.slots.peak ==> Step(e, ev).slots.peak == Max(e.slots.peak, Step(e, ev).slots.current)
  {
  }

  /** The reported peak is the running maximum of the slots in use. */
  lemma {:induction false} PeakIsRunningMaximum(cfg: Config, t0: int, events: seq<Event>)
    ensures Play(Begin(cfg, t0), events).slots.peak == MostInUse(Begin(cfg, t0), events)
  {
    if events != [] {
      PeakIsRunningMaximum(cfg, t0, events[..|events| - 1]);
      Invariant(cfg, t0, events[..|events| - 1]);
      PeakStep(Play(Begin(cfg, t0), events[..|events| - 1]), events[|events| - 1]);
    }
  }

  // ---- metrics -----------------------------------------------------------------------------

  lemma {:induction false} OutcomesAddUp(sessions: seq<Active>)
    ensures 0 <= TotalOf(sessions, CountsOk) && 0 <= TotalOf(sessions, CountsFail)
    ensures (forall i :: 0 <= i < |sessions| ==> Reported(sessions[i])) ==>
              TotalOf(sessions, CountsOk) + TotalOf(sessions, CountsFail) == |sessions|
  {
    if sessions != [] {
      OutcomesAddUp(sessions[..|sessions| - 1]);
    }
  }

  /** The registry counts every session that has ended once, as a success with its bytes or as a
      failure with a class other than None; the classes add up to the failures; and the data
      servers' own counters add up to the global ones. */
  lemma MetricsConsistent(cfg: Config, t0: int, events: seq<Event>)
    ensures var e := Play(Begin(cfg, t0), events);
            var total := e.registry.total;
            && total.ok == TotalOf(e.sessions, CountsOk) && total.fail == TotalOf(e.sessions, CountsFail)
            && total.bytes == TotalOf(e.sessions, CountsBytes) && e.registry.ops == TotalOf(e.sessions, CountsOps)
            && Sum(total.errors) == total.fail && ErrorCount(total.errors, Classifier.None) == 0
            && (forall f: Field :: f != Class(Classifier.None) ==>
                  Sum(ByServer(e.registry.servers, f)) == Get(total, f))
            && ((forall i :: 0 <= i < |e.sessions| ==> Reported(e.sessions[i])) ==>
                  total.ok + total.fail == |e.sessions|)
  {
    Invariant(cfg, t0, events);
    OutcomesAddUp(Play(Begin(cfg, t0), events).sessions);
  }

  /** A session that reports a wall timeout is counted as a timeout. */
  lemma TimeoutsCountAsTimeouts(o: S.Options, sub: S.Status, events: seq<S.Event>)
    requires var s := S.Play(o, S.Start(sub), events).s; s.completed && s.result.timedOut
    ensures var r := S.Play(o, S.Start(sub), events).s.result;
            !r.ok && ErrorOf(r) == Classifier.Timeout
  {
    hide S.Play, S.Start, Classifier.Classify;
    var r := S.Play(o, S.Start(sub), events).s.result;
    T.ResultConsistent(o, sub, events);
    Classifier.WallTimeoutIsTimeout(r.statusCode);
  }

  /** How a session's end is observed: a success with its bytes and operations, or a failure with the
      class of its codes and message; on the data server it reports. */
  function OutcomeOf(r: S.Result, mapped: string): Observation
    requires r.bytesRead >= 0
  {
    if r.ok then SessionOk(r.bytesRead, r.ops, r.dataServer, "", mapped)
    else SessionFail(Classifier.Classify(r.statusCode, r.errCode, S.Message(r.error)), r.dataServer, "", mapped)
  }

  /** All that was observed in a run. */
  ghost function History(e: Engine, events: seq<Event>): seq<Observation> {
    if events == [] then [] else
    var before, ev := Play(e, events[..|events| - 1]), events[|events| - 1];
    History(e, events[..|events| - 1]) +
      match ev
      case Recorded(i, mapped) =>
        if In(before, i, Called) && before.sessions[i].world.s.result.bytesRead >= 0
        then [OutcomeOf(before.sessions[i].world.s.result, mapped)] else []
      case SiteFound(server, site) => [SetSite(server, site)]
      case _ => []
  }

  lemma RegistryStep(e: Engine, ev: Event)
    requires Sane(e)
    ensures var r := Step(e, ev).registry;
            match ev
            case Recorded(i, mapped) =>
              if In(e, i, Called) then
                var result := e.sessions[i].world.s.result;
                result.bytesRead >= 0 && r == Observe(e.registry, OutcomeOf(result, mapped))
              else r == e.registry
            case SiteFound(server, site) => r == Observe(e.registry, SetSite(server, site))
            case _ => r == e.registry
  {
    hide S.Step, S.Start, Observe, Classifier.Classify, T.Inv;
    if ev.Recorded? && In(e, ev.i, Called) {
      assert GoodSession(e.cfg, e.sessions[ev.i]);
      ResultFacts(e.sessions[ev.i].options, e.sessions[ev.i].world);
    }
  }

  lemma ObserveMore(observations: seq<Observation>, o: Observation)
    ensures ObserveAll(observations + [o]) == Observe(ObserveAll(observations), o)
  {
    assert (observations + [o])[..|observations|] == observations;
  }

  /** The registry is what these observations make of it: so its global counters are the sums over all
      sessions recorded, and each data server's those over the sessions that report it. */
  lemma {:induction false} RegistryIsHistory(cfg: Config, t0: int, events: seq<Event>)
    ensures Play(Begin(cfg, t0), events).registry == ObserveAll(History(Begin(cfg, t0), events))
  {
    hide Step, Observe, Sane, OutcomeOf, Inv;
    var e := Begin(cfg, t0);
    if events != [] {
      var before, ev := events[..|events| - 1], events[|events| - 1];
      RegistryIsHistory(cfg, t0, before);
      Invariant(cfg, t0, before);
      InvIsSane(Play(e, before));
      RegistryStep(Play(e, before), ev);
      match ev {
        case Recorded(i, mapped) =>
          if In(Play(e, before), i, Called) {
            ObserveMore(History(e, before), OutcomeOf(Play(e, before).sessions[i].world.s.result, mapped));
          } else {
            assert History(e, before) + [] == History(e, before);
          }
        case SiteFound(server, site) => ObserveMore(History(e, before), SetSite(server, site));
        case _ => assert History(e, before) + [] == History(e, before);
      }
    }
  }

  lemma InvIsSane(e: Engine)
    requires Inv(e)
    ensures Sane(e)
  {
  }

  /** Each data server's counters in a run. */
  lemma ServersOfRun(cfg: Config, t0: int, events: seq<Event>, name: string, f: Field)
    requires name != "" && f != Class(Classifier.None)
    ensures var servers := Play(Begin(cfg, t0), events).registry.servers;
            (if name in servers then Get(servers[name].counters, f) else 0)
            == TallyOf(History(Begin(cfg, t0), events), name, f)
    ensures Get(Play(Begin(cfg, t0), events).registry.total, f) == Tally(History(Begin(cfg, t0), events), f)
  {
    hide Play, ObserveAll, TallyOf, Tally;
    RegistryIsHistory(cfg, t0, events);
    EachServerItsOwn(History(Begin(cfg, t0), events), name, f);
    TotalsAreTallies(History(Begin(cfg, t0), events), f);
  }

  // ---- admissions --------------------------------------------------------------------------

  /** AcquireUntil never turns a charge down for being larger than the bucket. */
  lemma ChargeAlwaysFits(cfg: Config, t0: int, events: seq<Event>)
    requires cfg.rate > 0 && Play(Begin(cfg, t0), events).pc.Picked?
    ensures var e := Play(Begin(cfg, t0), events);
            e.pc.item.charge <= e.bucket.capacity == ComputeBucketBurst(cfg)
  {
    Invariant(cfg, t0, events);
    var e := Play(Begin(cfg, t0), events);
    ChargeFitsBurst(cfg, CanVector(cfg));
  }
}
