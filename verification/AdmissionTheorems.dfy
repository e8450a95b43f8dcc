/** Two promises of the rate policy, with the exact conditions under which every run keeps them: that
    filling the pipeline never waits for tokens, and that a run keeps to its target rate. */
module AdmissionTheorems {
  import opened Basics
  import opened RunConfig
  import opened BucketModel
  import opened InFlight
  import opened MetricsModel
  import opened EngineModel
  import opened EngineInvariants
  import opened EngineTheorems
  import Scheduler
  import S = SessionModel
  import A = SessionAccounting
  import T = SessionTheorems
  import L = SessionLiveness

  // ---- filling the pipeline ----------------------------------------------------------------

  lemma PipelineFits(cfg: Config, n: nat)
    requires n < Max(cfg.maxInflight, 1) && TopCharge(cfg) * Max(cfg.maxInflight, 1) <= ComputeBucketBurst(cfg)
    ensures n * TopCharge(cfg) + TopCharge(cfg) <= ComputeBucketBurst(cfg)
  {
    hide TopCharge, ComputeBucketBurst;
    ProductMonotone(TopCharge(cfg), n + 1, Max(cfg.maxInflight, 1));
    assert (n + 1) * TopCharge(cfg) == n * TopCharge(cfg) + TopCharge(cfg);
  }

  /** No session settled so far read more than its charge. */
  ghost predicate WithinCharges(e: Engine) {
    forall i :: 0 <= i < |e.sessions| ==> Owes(e.sessions[i]) <= e.sessions[i].charge
  }

  lemma {:induction false} SumWithin(sessions: seq<Active>, top: nat)
    requires forall i :: 0 <= i < |sessions| ==> Owes(sessions[i]) <= sessions[i].charge <= top
    ensures TotalOf(sessions, Owes) <= |sessions| * top
  {
    hide Owes;
    if sessions == [] {
      assert |sessions| * top == 0;
    } else {
      var n := |sessions| - 1;
      SumWithin(sessions[..n], top);
      assert |sessions| * top == n * top + top;
    }
  }

  /** A level of one more top charge than sessions started is enough. */
  lemma LevelSuffices(e: Engine, spent: nat, now: int)
    requires Sane(e) && LevelFits(e) && e.cfg.rate > 0 && TotalOf(e.sessions, Owes) <= spent && e.pc.Picked?
    requires spent + TopCharge(e.cfg) <= e.bucket.capacity
    ensures Succeeds(e.bucket, e.pc.item.charge, now)
  {
    hide TotalOf, TopCharge;
    RefillRaises(e.bucket, now);
    assert e.pc.item.charge <= TopCharge(e.cfg);
  }

  /** Fewer sessions than the in-flight cap have been started, and the next charge is at hand. */
  ghost predicate AtFirstAdmissions(cfg: Config, e: Engine) {
    e.pc.Picked? && |e.sessions| < Max(cfg.maxInflight, 1)
  }

  lemma PipelineDoesNotWait(e: Engine, now: int)
    requires Inv(e) && AtFirstAdmissions(e.cfg, e) && WithinCharges(e)
    requires e.cfg.rate > 0 && TopCharge(e.cfg) * Max(e.cfg.maxInflight, 1) <= ComputeBucketBurst(e.cfg)
    ensures Succeeds(e.bucket, e.pc.item.charge, now)
  {
    hide TopCharge, ComputeBucketBurst, Succeeds, TotalOf;
    CapacityIsBurst(e.cfg, e.born);
    PipelineFits(e.cfg, |e.sessions|);
    SumWithin(e.sessions, TopCharge(e.cfg));
    LevelSuffices(e, |e.sessions| * TopCharge(e.cfg), now);
  }

  /** As long as fewer sessions than the in-flight cap have been started, and none of them read more
      than its charge, admission does not wait for tokens: the first try succeeds whatever the clock
      shows, provided the bucket holds a pipeline of the largest charges. */
  lemma FirstAdmissionsDoNotWait(cfg: Config, t0: int, events: seq<Event>, now: int)
    requires cfg.rate > 0 && TopCharge(cfg) * Max(cfg.maxInflight, 1) <= ComputeBucketBurst(cfg)
    requires AtFirstAdmissions(cfg, Play(Begin(cfg, t0), events)) && WithinCharges(Play(Begin(cfg, t0), events))
    ensures var e := Play(Begin(cfg, t0), events);
            Succeeds(e.bucket, e.pc.item.charge, now)
  {
    Invariant(cfg, t0, events);
    PipelineDoesNotWait(Play(Begin(cfg, t0), events), now);
  }

  ghost predicate FirstAdmissionsNeverWait(cfg: Config, t0: int) {
    forall events: seq<Event>, now: int ::
      var e := Play(Begin(cfg, t0), events);
      AtFirstAdmissions(cfg, e) ==> Succeeds(e.bucket, e.pc.item.charge, now)
  }

  /** With a byte cap, a bucket that holds a pipeline of the largest charges. Without one, sessions
      that read nothing or are admitted one at a time: else the first session may read beyond its
      charge and empty the bucket for the second. */
  predicate PipelineIsSafe(cfg: Config) {
    || cfg.rate == 0
    || if cfg.maxBytes > 0 then TopCharge(cfg) * Max(cfg.maxInflight, 1) <= ComputeBucketBurst(cfg)
       else cfg.maxInflight <= 1 || cfg.chunkSize == 0
  }

  lemma CappedWithinCharges(e: Engine)
    requires Sane(e) && e.cfg.maxBytes > 0
    ensures WithinCharges(e)
  {
    forall i | 0 <= i < |e.sessions| ensures Owes(e.sessions[i]) <= e.sessions[i].charge {
      var a := e.sessions[i];
      assert GoodSession(e.cfg, a);
      if a.world.s.completed {
        ResultFacts(a.options, a.world);
      }
    }
  }

  /** A charge of nothing, or in a run without a rate, is never refused. */
  lemma NothingToWaitFor(e: Engine, now: int)
    requires Sane(e) && LevelFits(e) && e.pc.Picked? && (e.cfg.rate == 0 || TopCharge(e.cfg) == 0)
    ensures Succeeds(e.bucket, e.pc.item.charge, now)
  {
  }

  lemma SafePipelineDoesNotWait(e: Engine, now: int)
    requires Inv(e) && PipelineIsSafe(e.cfg) && AtFirstAdmissions(e.cfg, e)
    ensures Succeeds(e.bucket, e.pc.item.charge, now)
  {
    hide Succeeds, LevelFits, MetricsFit, TokensFit, SlotsFit;
    if e.cfg.rate == 0 || (e.cfg.maxBytes == 0 && e.cfg.chunkSize == 0) {
      NothingToWaitFor(e, now);
    } else if e.cfg.maxBytes > 0 {
      CappedWithinCharges(e);
      PipelineDoesNotWait(e, now);
    } else {
      ChargeFitsBurst(e.cfg, CanVector(e.cfg));
      assert e.sessions == [];
      PipelineDoesNotWait(e, now);
    }
  }

  // Otherwise the bucket is too small for the pipeline: sessions of the largest charge, all
  // admitted at once, empty it before the in-flight cap is reached.

  function TopItem(cfg: Config): Scheduler.WorkItem {
    var vectorChunks := if CanVector(cfg) then Max(1, cfg.vectorChunks) else 0;
    var options := S.Options(cfg.chunkSize, 0, cfg.maxBytes, vectorChunks, cfg.pattern == Random);
    Scheduler.WorkItem(0, options, TopCharge(cfg))
  }

  lemma TopItemAllowed(cfg: Config)
    ensures Scheduler.Allowed(cfg, TopItem(cfg))
  {
    ChargeCoversMaxBytes(cfg, CanVector(cfg));
    if cfg.rate > 0 {
      ChargeFitsBurst(cfg, CanVector(cfg));
    }
  }

  function TopSession(cfg: Config): Active {
    Active(TopItem(cfg).options, TopCharge(cfg), S.Start(T.FINE), Running)
  }

  /** After n admissions at time t0 that have spent so many tokens. */
  ghost predicate Loaded(e: Engine, cfg: Config, t0: int, n: nat, spent: nat) {
    && e.cfg == cfg && e.clock == t0 && e.pc == Idle && e.registry == EMPTY
    && |e.sessions| == n && (forall i :: 0 <= i < n ==> e.sessions[i] == TopSession(cfg))
    && e.slots.current == n && e.slots.max == Max(cfg.maxInflight, 1)
    && spent <= e.bucket.capacity
    && e.bucket == New(cfg.rate, ComputeBucketBurst(cfg), t0).(tokens := (e.bucket.capacity - spent) as real)
  }

  /** The same, with one more slot taken and an item picked. */
  ghost predicate Loading(e: Engine, cfg: Config, t0: int, n: nat, spent: nat) {
    e.pc == Picked(TopItem(cfg)) && Loaded(e.(pc := Idle, slots := e.slots.(current := n)), cfg, t0, n, spent)
    && e.slots.current == n + 1
  }

  lemma LoadPick(e: Engine, cfg: Config, t0: int, n: nat, spent: nat)
    requires Loaded(e, cfg, t0, n, spent) && n < Max(cfg.maxInflight, 1)
    ensures Loading(Step(Step(e, SlotTaken), ItemPicked(TopItem(cfg))), cfg, t0, n, spent)
  {
    TopItemAllowed(cfg);
  }

  lemma LoadCharge(e: Engine, e': Engine, cfg: Config, t0: int, n: nat, spent: nat)
    requires Loading(e, cfg, t0, n, spent) && cfg.rate > 0 && spent + TopCharge(cfg) <= e.bucket.capacity
    requires e' == Step(Step(e, ChargeTried(t0)), Launched(T.FINE))
    ensures Loaded(e', cfg, t0, n + 1, spent + TopCharge(cfg))
  {
    var item := TopItem(cfg);
    var e1 := TryCharge(e, t0);
    var left := e.bucket.capacity - (spent + TopCharge(cfg));
    assert e1 == e.(bucket := e.bucket.(tokens := left as real), pc := Charged(item));
    assert e' == Launch(e1, S.Start(T.FINE));
  }

  lemma LoadNone(cfg: Config, t0: int)
    requires cfg.rate > 0
    ensures Loaded(Play(Begin(cfg, t0), []), cfg, t0, 0, 0)
  {
    PlayNone(Begin(cfg, t0));
  }

  /** One admission more. */
  lemma LoadOneMore(e: Engine, before: seq<Event>, cfg: Config, t0: int, n: nat, spent: nat)
    returns (events: seq<Event>)
    requires Loaded(Play(e, before), cfg, t0, n, spent) && n < Max(cfg.maxInflight, 1)
    requires cfg.rate > 0 && spent + TopCharge(cfg) <= Play(e, before).bucket.capacity
    ensures Loaded(Play(e, events), cfg, t0, n + 1, spent + TopCharge(cfg))
  {
    var item := TopItem(cfg);
    var picked := before + [SlotTaken] + [ItemPicked(item)];
    events := picked + [ChargeTried(t0)] + [Launched(T.FINE)];
    PlayOne(e, before, SlotTaken);
    PlayOne(e, before + [SlotTaken], ItemPicked(item));
    PlayOne(e, picked, ChargeTried(t0));
    PlayOne(e, picked + [ChargeTried(t0)], Launched(T.FINE));
    LoadPick(Play(e, before), cfg, t0, n, spent);
    LoadCharge(Play(e, picked), Play(e, events), cfg, t0, n, spent);
  }

  /** So many charges, as much as the bucket holds. */
  lemma {:induction false} LoadPipeline(cfg: Config, t0: int, n: nat) returns (events: seq<Event>)
    requires cfg.rate > 0 && n <= Max(cfg.maxInflight, 1) && A.Full(TopCharge(cfg), n) <= ComputeBucketBurst(cfg)
    ensures Loaded(Play(Begin(cfg, t0), events), cfg, t0, n, A.Full(TopCharge(cfg), n))
  {
    if n == 0 {
      events := [];
      LoadNone(cfg, t0);
    } else {
      var before := LoadPipeline(cfg, t0, n - 1);
      CapacityIsBurst(cfg, t0);
      events := LoadOneMore(Begin(cfg, t0), before, cfg, t0, n - 1, A.Full(TopCharge(cfg), n - 1));
    }
  }

  lemma LoadingWaits(e: Engine, cfg: Config, t0: int, n: nat, spent: nat)
    requires Loading(e, cfg, t0, n, spent) && cfg.rate > 0 && e.bucket.capacity < spent + TopCharge(cfg)
    ensures !Succeeds(e.bucket, e.pc.item.charge, t0)
  {
  }

  /** The number of whole charges in the burst is below the cap when the product exceeds it. */
  lemma ShortPipeline(charge: nat, w: nat, burst: nat) returns (n: nat)
    requires burst < charge * w
    ensures n < w && n * charge <= burst < n * charge + charge
  {
    n := burst / charge;
    if n >= w {
      ProductMonotone(charge, w, n);
    }
  }

  lemma ShortBurstWaits(cfg: Config, t0: int)
    requires cfg.rate > 0 && TopCharge(cfg) * Max(cfg.maxInflight, 1) > ComputeBucketBurst(cfg)
    ensures !FirstAdmissionsNeverWait(cfg, t0)
  {
    CapacityIsBurst(cfg, t0);
    var n := ShortPipeline(TopCharge(cfg), Max(cfg.maxInflight, 1), ComputeBucketBurst(cfg));
    var spent := A.Full(TopCharge(cfg), n);
    T.FullIsProduct(TopCharge(cfg), n);
    var e := Begin(cfg, t0);
    var before := LoadPipeline(cfg, t0, n);
    var events := before + [SlotTaken] + [ItemPicked(TopItem(cfg))];
    PlayOne(e, before, SlotTaken);
    PlayOne(e, before + [SlotTaken], ItemPicked(TopItem(cfg)));
    LoadPick(Play(e, before), cfg, t0, n, spent);
    LoadingWaits(Play(e, events), cfg, t0, n, spent);
    assert AtFirstAdmissions(cfg, Play(e, events));
  }

  // Without a byte cap, the first session reads as many bytes as the bucket holds, and its settlement
  // empties the bucket.

  /** The engine is as at `base`, except for its one session. */
  ghost predicate Alone(e: Engine, base: Engine, a: Active) {
    e == base.(sessions := [a])
  }

  /** One session of the largest charge has been started, at time t0. */
  ghost predicate OneStarted(base: Engine, cfg: Config, t0: int) {
    Loaded(base, cfg, t0, 1, TopCharge(cfg)) && base.sessions == [TopSession(cfg)]
  }

  lemma FirstSession(cfg: Config, t0: int) returns (events: seq<Event>)
    requires cfg.rate > 0
    ensures OneStarted(Play(Begin(cfg, t0), events), cfg, t0)
  {
    ChargeFitsBurst(cfg, CanVector(cfg));
    assert A.Full(TopCharge(cfg), 1) == A.Full(TopCharge(cfg), 0) + TopCharge(cfg);
    events := LoadPipeline(cfg, t0, 1);
  }

  /** A session's events as events of the engine. */
  function Moves(events: seq<S.Event>): seq<Event> {
    if events == [] then [] else Moves(events[..|events| - 1]) + [SessionMoved(0, events[|events| - 1])]
  }

  lemma MoveOne(e: Engine, e': Engine, base: Engine, a: Active, w: S.World, event: S.Event)
    requires Alone(e, base, a) && a.phase == Running && w == S.Step(a.options, a.world, event)
    requires e' == Step(e, SessionMoved(0, event))
    ensures Alone(e', base, a.(world := w, phase := if w.s.completed then Called else Running))
  {
    hide S.Step;
  }

  lemma EarlierNotCompleted(o: S.Options, w: S.World, events: seq<S.Event>)
    requires T.Inv(o, w) && events != [] && !S.Play(o, w, events).s.completed
    ensures !S.Play(o, w, events[..|events| - 1]).s.completed
  {
    T.InvKept(o, w, events[..|events| - 1]);
    WorldStep(o, S.Play(o, w, events[..|events| - 1]), events[|events| - 1]);
  }

  /** While a session is not completed, its events only move its world. */
  lemma {:induction false} MovesOfSession(e: Engine, before: seq<Event>, base: Engine, a: Active, events: seq<S.Event>)
    requires Alone(Play(e, before), base, a) && a.phase == Running && T.Inv(a.options, a.world)
    requires events != [] ==> !S.Play(a.options, a.world, events[..|events| - 1]).s.completed
    requires !a.world.s.completed
    ensures var w := S.Play(a.options, a.world, events);
            Alone(Play(e, before + Moves(events)), base,
                  a.(world := w, phase := if w.s.completed then Called else Running))
  {
    hide Alone, T.Inv, S.Step, Step;
    if events == [] {
      assert before + Moves(events) == before;
    } else {
      var init, last := events[..|events| - 1], events[|events| - 1];
      var w := S.Play(a.options, a.world, init);
      if init != [] {
        EarlierNotCompleted(a.options, a.world, init);
      }
      MovesOfSession(e, before, base, a, init);
      assert before + Moves(events) == before + Moves(init) + [SessionMoved(0, last)];
      PlayOne(e, before + Moves(init), SessionMoved(0, last));
      MoveOne(Play(e, before + Moves(init)), Play(e, before + Moves(events)), base, a.(world := w),
              S.Play(a.options, a.world, events), last);
    }
  }

  /** The first session has read a whole file, and its callback is called. */
  ghost predicate HasRead(e: Engine, base: Engine, cfg: Config, size: nat) {
    && |e.sessions| == 1 && Alone(e, base, e.sessions[0])
    && var a := e.sessions[0];
       a.phase == Called && a.charge == TopCharge(cfg) && a.world.s.result.ok && a.world.s.result.bytesRead == size
  }

  lemma StartsAlone(base: Engine, cfg: Config, t0: int)
    requires OneStarted(base, cfg, t0)
    ensures Alone(base, base, TopSession(cfg)) && !TopSession(cfg).world.s.completed
  {
  }

  /** Without a byte cap one session can read a whole file, however large, at once. */
  lemma UncappedSession(cfg: Config, t0: int, size: nat) returns (events: seq<Event>, base: Engine)
    requires cfg.rate > 0 && cfg.maxBytes == 0 && cfg.chunkSize >= 1 && size > 0
    ensures OneStarted(base, cfg, t0) && HasRead(Play(Begin(cfg, t0), events), base, cfg, size)
  {
    hide OneStarted, S.Step, Step, S.Start;
    var e, item, a := Begin(cfg, t0), TopItem(cfg), TopSession(cfg);
    var admitted := FirstSession(cfg, t0);
    base := Play(e, admitted);
    StartsAlone(base, cfg, t0);
    var answers := L.CooperationSucceeds(item.options, size);
    T.Invariant(item.options, T.FINE, []);
    L.PlayNone(item.options, S.Start(T.FINE));
    MovesOfSession(e, admitted, base, a, answers);
    events := admitted + Moves(answers);
  }

  lemma RecordOne(e: Engine, e': Engine, base: Engine, cfg: Config, t0: int, size: nat)
    requires OneStarted(base, cfg, t0) && HasRead(e, base, cfg, size) && e' == Step(e, Recorded(0, []))
    ensures |e'.sessions| == 1 && e' == base.(sessions := [e'.sessions[0]], registry := e'.registry)
    ensures var a := e'.sessions[0];
            a.phase == Observed && a.charge == TopCharge(cfg) && a.world.s.result.bytesRead == size
    ensures BytesReported(e') == size
  {
  }

  /** The settlement of a session that has read as much as the bucket holds empties the bucket. */
  lemma SettleOne(e: Engine, e': Engine, a: Active, t0: int)
    requires e.sessions == [a] && a.phase == Observed && e.clock == t0 == e.bucket.last && e.bucket.rate > 0
    requires 0 < a.charge <= e.bucket.capacity == a.world.s.result.bytesRead
    requires e.bucket.tokens == (e.bucket.capacity - a.charge) as real
    requires e' == Step(e, TokensSettled(0, t0))
    ensures e' == e.(sessions := [a.(phase := Settled)], bucket := e.bucket.(tokens := 0.0))
  {
  }

  lemma NextWaits(e: Engine, e': Engine, item: Scheduler.WorkItem)
    requires e.pc == Idle && e.slots.current < e.slots.max && Scheduler.Allowed(e.cfg, item) && item.charge > 0
    requires e.bucket.tokens == 0.0 && e.bucket.rate > 0
    requires e' == Step(Step(e, SlotTaken), ItemPicked(item))
    ensures e'.pc == Picked(item) && e'.sessions == e.sessions && !Succeeds(e'.bucket, item.charge, e.bucket.last)
  {
    hide Scheduler.Allowed;
  }

  lemma UncappedWaits(cfg: Config, t0: int)
    requires cfg.rate > 0 && cfg.maxBytes == 0 && cfg.chunkSize >= 1 && cfg.maxInflight >= 2
    ensures !FirstAdmissionsNeverWait(cfg, t0)
  {
    hide Step, HasRead;
    var e, item, burst := Begin(cfg, t0), TopItem(cfg), ComputeBucketBurst(cfg);
    ChargeFitsBurst(cfg, CanVector(cfg));
    CapacityIsBurst(cfg, t0);
    TopItemAllowed(cfg);
    var read, base := UncappedSession(cfg, t0, burst);
    var recorded := read + [Recorded(0, [])];
    var settled := recorded + [TokensSettled(0, t0)];
    var events := settled + [SlotTaken] + [ItemPicked(item)];
    PlayOne(e, read, Recorded(0, []));
    PlayOne(e, recorded, TokensSettled(0, t0));
    PlayOne(e, settled, SlotTaken);
    PlayOne(e, settled + [SlotTaken], ItemPicked(item));
    RecordOne(Play(e, read), Play(e, recorded), base, cfg, t0, burst);
    var a := Play(e, recorded).sessions[0];
    SettleOne(Play(e, recorded), Play(e, settled), a, t0);
    NextWaits(Play(e, settled), Play(e, events), item);
    assert AtFirstAdmissions(cfg, Play(e, events));
  }

  /** Filling the pipeline never waits for tokens exactly when the configuration is safe. */
  lemma FirstAdmissionsExactlyIfPipelineIsSafe(cfg: Config, t0: int)
    ensures FirstAdmissionsNeverWait(cfg, t0) <==> PipelineIsSafe(cfg)
  {
    if PipelineIsSafe(cfg) {
      forall events: seq<Event>, now: int | AtFirstAdmissions(cfg, Play(Begin(cfg, t0), events))
        ensures var e := Play(Begin(cfg, t0), events); Succeeds(e.bucket, e.pc.item.charge, now)
      {
        Invariant(cfg, t0, events);
        SafePipelineDoesNotWait(Play(Begin(cfg, t0), events), now);
      }
    } else if cfg.maxBytes > 0 {
      ShortBurstWaits(cfg, t0);
    } else {
      UncappedWaits(cfg, t0);
    }
  }

  /** Unless a mixed pattern has a vector fraction of zero, with a byte cap that is exactly when the
      product fits in 64 bits; with such a pattern the burst is sized for vector reads that never
      come. */
  lemma FirstAdmissionsExactlyWithoutOverflow(cfg: Config, t0: int)
    requires Typed(cfg) && cfg.rate > 0 && CanVector(cfg) == MayVector(cfg)
    ensures FirstAdmissionsNeverWait(cfg, t0) <==>
            if cfg.maxBytes > 0 then TopCharge(cfg) * Max(cfg.maxInflight, 1) < U64
            else cfg.maxInflight <= 1 || cfg.chunkSize == 0
  {
    FirstAdmissionsExactlyIfPipelineIsSafe(cfg, t0);
    BurstCoversPipeline(cfg);
  }

  /** Overflow alone does no harm: here the pipeline of vector reads, which a fraction of zero rules
      out, exceeds 64 bits, and yet filling the real pipeline never waits. */
  lemma OverflowMayBeHarmless(t0: int)
    ensures var cfg := Config(1, 0x10_0000, Mixed, 0x8000_0000, 0x8000, 0.0, 1, false);
            && Typed(cfg) && EstimateSessionCharge(cfg, MayVector(cfg)) * cfg.maxInflight >= U64
            && FirstAdmissionsNeverWait(cfg, t0)
  {
    FirstAdmissionsExactlyIfPipelineIsSafe(Config(1, 0x10_0000, Mixed, 0x8000_0000, 0x8000, 0.0, 1, false), t0);
  }

  /** A bucket that holds the whole pipeline of charges is not enough without a byte cap. */
  lemma FullBurstMayWait(t0: int)
    ensures var cfg := Config(1, 2, Sequential, 1, 1, 0.0, 0, false);
            && Typed(cfg) && TopCharge(cfg) * cfg.maxInflight == ComputeBucketBurst(cfg) == 32
            && !FirstAdmissionsNeverWait(cfg, t0)
  {
    FirstAdmissionsExactlyIfPipelineIsSafe(Config(1, 2, Sequential, 1, 1, 0.0, 0, false), t0);
  }

  // ---- keeping to the rate -----------------------------------------------------------------

  /** The metrics' bytes are within the burst and the rate. */
  ghost predicate KeepsRate(cfg: Config, t0: int, e: Engine) {
    BytesReported(e) as real <= ComputeBucketBurst(cfg) as real + Gain(cfg.rate, e.clock - t0)
  }

  ghost predicate ObeysRate(cfg: Config, t0: int) {
    forall events: seq<Event> :: KeepsRate(cfg, t0, Play(Begin(cfg, t0), events))
  }

  /** Without a byte cap one session can report a file of any size at once. */
  lemma UncappedRun(cfg: Config, t0: int, size: nat) returns (events: seq<Event>)
    requires cfg.rate > 0 && cfg.maxBytes == 0 && cfg.chunkSize >= 1 && size > 0
    ensures var e := Play(Begin(cfg, t0), events); e.clock == t0 && BytesReported(e) == size
  {
    hide Step, HasRead;
    var read, base := UncappedSession(cfg, t0, size);
    var e := Begin(cfg, t0);
    events := read + [Recorded(0, [])];
    PlayOne(e, read, Recorded(0, []));
    RecordOne(Play(e, read), Play(e, events), base, cfg, t0, size);
  }

  lemma {:induction false} NothingGot(ds: seq<S.Delivery>)
    requires forall j :: 0 <= j < |ds| ==> 0 <= ds[j].got <= ds[j].asked <= 0
    ensures A.SumGot(ds) == 0
  {
    if ds != [] {
      NothingGot(ds[..|ds| - 1]);
    }
  }

  /** Without chunks a session reads nothing. */
  lemma NothingWithoutChunks(o: S.Options, w: S.World)
    requires T.Inv(o, w) && o.chunkSize == 0
    ensures w.s.bytesRead == 0
  {
    assert S.OpSize(o) == 0;
    NothingGot(w.deliveries);
  }

  lemma {:induction false} NothingReported(cfg: Config, sessions: seq<Active>)
    requires cfg.chunkSize == 0 && forall i :: 0 <= i < |sessions| ==> GoodSession(cfg, sessions[i])
    ensures TotalOf(sessions, CountsBytes) == 0
  {
    if sessions != [] {
      var a := sessions[|sessions| - 1];
      NothingReported(cfg, sessions[..|sessions| - 1]);
      NothingWithoutChunks(a.options, a.world);
    }
  }

  lemma IdleKeepsRate(cfg: Config, t0: int, e: Engine)
    requires Inv(e) && e.cfg == cfg && cfg.chunkSize == 0 && t0 <= e.clock
    ensures KeepsRate(cfg, t0, e)
  {
    hide TotalOf, GoodSession, Gain;
    NothingReported(cfg, e.sessions);
    GainNonNegative(cfg.rate, e.clock - t0);
  }

  lemma CappedKeepsRate(cfg: Config, t0: int, e: Engine)
    requires WithinRate(cfg, t0, e)
    ensures KeepsRate(cfg, t0, e)
  {
    hide Gain, ComputeBucketBurst, Drawn;
  }

  /** A run at a target rate is sure to keep to it exactly when it has a byte cap (or reads nothing at
      all): without one, the charge is only a guess, and what a session reads beyond it may not be
      taken from the bucket. */
  lemma RateObeyedExactlyWithByteCap(cfg: Config, t0: int)
    requires cfg.rate > 0
    ensures ObeysRate(cfg, t0) <==> cfg.maxBytes > 0 || cfg.chunkSize == 0
  {
    if cfg.maxBytes > 0 || cfg.chunkSize == 0 {
      forall events: seq<Event>
        ensures KeepsRate(cfg, t0, Play(Begin(cfg, t0), events))
      {
        var e := Play(Begin(cfg, t0), events);
        if cfg.maxBytes > 0 {
          RateBound(cfg, t0, events);
          CappedKeepsRate(cfg, t0, e);
        } else {
          Invariant(cfg, t0, events);
          IdleKeepsRate(cfg, t0, e);
        }
      }
    } else {
      var events := UncappedRun(cfg, t0, ComputeBucketBurst(cfg) + 1);
      assert Gain(cfg.rate, 0) == 0.0;
      assert !KeepsRate(cfg, t0, Play(Begin(cfg, t0), events));
    }
  }
}
