/** What every step of the admission engine keeps: the sessions' own invariants, the slot count, the
    token account and the metrics. */
module EngineInvariants {
  import opened Basics
  import opened RunConfig
  import opened BucketModel
  import opened InFlight
  import opened MetricsModel
  import opened EngineModel
  import Scheduler
  import Classifier = ErrorClassifier
  import S = SessionModel
  import A = SessionAccounting
  import T = SessionTheorems

  // ---- sessions ----------------------------------------------------------------------------

  ghost predicate GoodSession(cfg: Config, a: Active) {
    && T.Inv(a.options, a.world)
    && a.options.chunkSize == cfg.chunkSize && a.options.maxBytes == cfg.maxBytes <= a.charge <= TopCharge(cfg)
    && (a.phase == Running <==> !a.world.s.completed)
  }

  ghost predicate GoodItem(cfg: Config, item: Scheduler.WorkItem) {
    && item.options.chunkSize == cfg.chunkSize
    && item.options.maxBytes == cfg.maxBytes <= item.charge <= TopCharge(cfg)
  }

  ghost predicate Sane(e: Engine) {
    && (forall i :: 0 <= i < |e.sessions| ==> GoodSession(e.cfg, e.sessions[i]))
    && (e.pc.Picked? || e.pc.Charged? ==> GoodItem(e.cfg, e.pc.item))
  }

  lemma AllowedIsGood(cfg: Config, item: Scheduler.WorkItem)
    requires Scheduler.Allowed(cfg, item)
    ensures GoodItem(cfg, item)
  {
  }

  /** One event of a session's world. */
  lemma WorldStep(o: S.Options, w: S.World, event: S.Event)
    requires T.Inv(o, w)
    ensures var w' := S.Step(o, w, event);
            T.Inv(o, w') && (w.s.completed ==> w'.s.completed && w'.s.result == w.s.result)
  {
    T.InvKept(o, w, [event]);
    assert S.Play(o, w, [event]) == S.Step(o, w, event) by {
      assert [event][..0] == [];
    }
    if w.s.completed {
      T.CompletionIsFinal(o, w, [event]);
    }
  }

  lemma WorldStarts(o: S.Options, sub: S.Status)
    ensures T.Inv(o, S.Start(sub))
  {
    T.Invariant(o, sub, []);
  }

  /** A completed session's result: its bytes respect the cap, and it is ok or names an error. */
  lemma ResultFacts(o: S.Options, w: S.World)
    requires T.Inv(o, w) && w.s.completed
    ensures 0 <= w.s.result.bytesRead && (o.maxBytes > 0 ==> w.s.result.bytesRead <= o.maxBytes)
    ensures w.s.result.ok <==> w.s.result.error == S.Nothing
  {
    A.BudgetFits(o, w.s.fileSize);
    T.SumNonNegative(o, w.budget, w.deliveries);
  }

  /** A failure is never recorded under the class None. */
  lemma FailureHasClass(r: S.Result)
    requires r.error != S.Nothing
    ensures ErrorOf(r) != Classifier.None
  {
    Classifier.NoneMeansNoError(r.statusCode, r.errCode, S.Message(r.error));
    T.MessageEmpty(r.error);
  }

  /** Events that touch neither sessions nor bucket nor the pending charge. */
  predicate IsQuiet(ev: Event) {
    ev.SlotTaken? || ev.DeadlinePassed? || ev.ItemPicked? || ev.GivenUp? || ev.SiteFound?
  }

  lemma QuietStep(e: Engine, ev: Event)
    requires IsQuiet(ev)
    ensures var e' := Step(e, ev);
            && e'.sessions == e.sessions && e'.bucket == e.bucket && e'.clock == e.clock && e'.live == e.live
            && e'.cfg == e.cfg && e'.born == e.born && (ev.SiteFound? || e'.registry == e.registry)
            && (e'.pc.Charged? <==> e.pc.Charged?) && (e.pc.Charged? ==> e'.pc == e.pc)
  {
  }

  // ---- slots -------------------------------------------------------------------------------

  function Holds(a: Active): int {
    if a.phase == Freed then 0 else 1
  }

  function Lives(a: Active): int {
    if a.phase == Left || a.phase == Freed then 0 else 1
  }

  function HeldByAdmission(pc: Admission): int {
    if pc == Idle || pc == Stopped then 0 else 1
  }

  /** Slots in use are those of the admission thread and of the sessions not yet freed; `live`
      counts the sessions before their callback takes them off. */
  ghost predicate SlotsFit(e: Engine) {
    && e.slots.max == Max(e.cfg.maxInflight, 1)
    && e.slots.current == HeldByAdmission(e.pc) + TotalOf(e.sessions, Holds)
    && e.live == TotalOf(e.sessions, Lives)
    && e.slots.current <= e.slots.peak <= e.slots.max
  }

  lemma {:induction false} SlotSums(sessions: seq<Active>)
    ensures 0 <= TotalOf(sessions, Lives) <= TotalOf(sessions, Holds)
    ensures forall i :: 0 <= i < |sessions| && sessions[i].phase != Freed ==> TotalOf(sessions, Holds) > 0
    ensures forall i :: 0 <= i < |sessions| && Lives(sessions[i]) == 1 ==> TotalOf(sessions, Lives) > 0
  {
    if sessions != [] {
      SlotSums(sessions[..|sessions| - 1]);
    }
  }

  /** Replacing one session. */
  lemma SlotsReplaced(e: Engine, i: nat, a: Active)
    requires i < |e.sessions|
    ensures TotalOf(With(e, i, a).sessions, Holds) == TotalOf(e.sessions, Holds) - Holds(e.sessions[i]) + Holds(a)
    ensures TotalOf(With(e, i, a).sessions, Lives) == TotalOf(e.sessions, Lives) - Lives(e.sessions[i]) + Lives(a)
  {
    TotalReplaced(e.sessions, i, a, Holds);
    TotalReplaced(e.sessions, i, a, Lives);
  }

  /** The session a is launched. */
  ghost predicate Launches(e: Engine, e': Engine, a: Active) {
    e' == e.(live := e.live + 1, sessions := e.sessions + [a], pc := Idle)
  }

  lemma LaunchLaunches(e: Engine, e': Engine, sub: S.Status)
    requires e.pc.Charged? && e' == Step(e, Launched(sub))
    ensures Launches(e, e', Started(e.pc.item, S.Start(sub)))
  {
  }

  lemma SlotsLaunch(e: Engine, e': Engine, a: Active)
    requires SlotsFit(e) && e.pc.Charged? && Launches(e, e', a) && Holds(a) == Lives(a) == 1
    ensures SlotsFit(e')
  {
    hide TotalOf, Holds, Lives;
    TotalGrown(e.sessions, a, Holds);
    TotalGrown(e.sessions, a, Lives);
  }

  /** A session moves on without giving anything up. */
  lemma SlotsMoved(e: Engine, e': Engine, i: nat, a: Active)
    requires SlotsFit(e) && i < |e.sessions|
    requires e'.sessions == e.sessions[i := a] && e'.slots == e.slots && e'.live == e.live && e'.cfg == e.cfg
    requires e'.pc == e.pc && Holds(a) == Holds(e.sessions[i]) && Lives(a) == Lives(e.sessions[i])
    ensures SlotsFit(e')
  {
    SlotsReplaced(e, i, a);
  }

  lemma SlotsRetire(e: Engine, i: nat)
    requires SlotsFit(e) && In(e, i, Settled)
    ensures SlotsFit(Retire(e, i))
  {
    SlotSums(e.sessions);
    SlotsReplaced(e, i, e.sessions[i].(phase := Left));
  }

  lemma SlotsFree(e: Engine, i: nat)
    requires SlotsFit(e) && In(e, i, Left)
    ensures SlotsFit(Free(e, i)) && e.slots.current > 0
  {
    SlotSums(e.sessions);
    SlotsReplaced(e, i, e.sessions[i].(phase := Freed));
  }

  lemma SlotsAdvance(e: Engine, i: nat, w: S.World)
    requires SlotsFit(e) && (In(e, i, Running) || In(e, i, Freed))
    ensures SlotsFit(Advance(e, i, w))
  {
    SlotsMoved(e, Advance(e, i, w), i, Advance(e, i, w).sessions[i]);
  }

  lemma SlotsQuiet(e: Engine, ev: Event)
    requires SlotsFit(e) && IsQuiet(ev)
    ensures SlotsFit(Step(e, ev))
  {
    SlotSums(e.sessions);
  }

  /** The callback of session i records its outcome or settles its tokens. */
  lemma SlotsPhase(e: Engine, ev: Event)
    requires SlotsFit(e) && Enabled(e, ev) && (ev.Recorded? || ev.TokensSettled?)
    ensures SlotsFit(Step(e, ev))
  {
    SlotsMoved(e, Step(e, ev), ev.i, Step(e, ev).sessions[ev.i]);
  }

  lemma SlotsStep(e: Engine, ev: Event)
    requires SlotsFit(e)
    ensures SlotsFit(Step(e, ev))
  {
    hide S.Step, S.Start, TotalOf;
    if Enabled(e, ev) {
      match ev
      case Launched(sub) =>
        LaunchLaunches(e, Step(e, ev), sub);
        SlotsLaunch(e, Step(e, ev), Started(e.pc.item, S.Start(sub)));
      case SessionMoved(i, event) => SlotsAdvance(e, i, S.Step(e.sessions[i].options, e.sessions[i].world, event));
      case Recorded(_, _) => SlotsPhase(e, ev);
      case TokensSettled(_, _) => SlotsPhase(e, ev);
      case Retired(i) => SlotsRetire(e, i);
      case SlotFreed(i) => SlotsFree(e, i);
      case ChargeTried(now) =>
      case BucketPeeked(now) =>
      case _ => SlotsQuiet(e, ev);
    }
  }

  // ---- sessions stay good ------------------------------------------------------------------

  lemma SaneAdvance(e: Engine, i: nat, event: S.Event)
    requires Sane(e) && (In(e, i, Running) || In(e, i, Freed))
    ensures Sane(Advance(e, i, S.Step(e.sessions[i].options, e.sessions[i].world, event)))
  {
    var a := e.sessions[i];
    var w := S.Step(a.options, a.world, event);
    WorldStep(a.options, a.world, event);
    assert GoodSession(e.cfg, Advance(e, i, w).sessions[i]);
  }

  lemma StartedIsGood(e: Engine, sub: S.Status)
    requires Sane(e) && e.pc.Charged?
    ensures GoodSession(e.cfg, Started(e.pc.item, S.Start(sub)))
  {
    hide T.Inv, S.Start;
    WorldStarts(e.pc.item.options, sub);
  }

  lemma SaneLaunch(e: Engine, e': Engine, a: Active)
    requires Sane(e) && Launches(e, e', a) && GoodSession(e.cfg, a)
    ensures Sane(e')
  {
    hide GoodSession;
  }

  /** Only the callback's progress of session i changes, after its completion. */
  lemma SanePhase(e: Engine, e': Engine, i: nat, phase: Phase)
    requires Sane(e) && i < |e.sessions| && e.sessions[i].phase != Running && phase != Running
    requires e'.sessions == e.sessions[i := e.sessions[i].(phase := phase)] && e'.pc == e.pc && e'.cfg == e.cfg
    ensures Sane(e')
  {
  }

  lemma SaneStep(e: Engine, ev: Event)
    requires Sane(e)
    ensures Sane(Step(e, ev))
  {
    hide GoodSession, T.Inv, S.Step, S.Start;
    if Enabled(e, ev) {
      match ev
      case ItemPicked(item) => AllowedIsGood(e.cfg, item);
      case Launched(sub) =>
        LaunchLaunches(e, Step(e, ev), sub);
        StartedIsGood(e, sub);
        SaneLaunch(e, Step(e, ev), Started(e.pc.item, S.Start(sub)));
      case SessionMoved(i, event) => SaneAdvance(e, i, event);
      case Recorded(i, mapped) => SanePhase(e, Step(e, ev), i, Observed);
      case TokensSettled(i, now) => SanePhase(e, Settle(e, i, now), i, Settled);
      case Retired(i) => SanePhase(e, Retire(e, i), i, Left);
      case SlotFreed(i) => SanePhase(e, Free(e, i), i, Freed);
      case _ =>
    }
  }

  // ---- tokens ------------------------------------------------------------------------------

  /** What a session has drawn from the bucket, net: its charge, and once settled its bytes. */
  function Owes(a: Active): int {
    if a.phase == Settled || a.phase == Left || a.phase == Freed then a.world.s.result.bytesRead else a.charge
  }

  function ChargeHeld(pc: Admission): int {
    if pc.Charged? then pc.item.charge else 0
  }

  /** All that is drawn: charges of sessions not settled, bytes of those that are. */
  function Drawn(e: Engine): int {
    TotalOf(e.sessions, Owes) + ChargeHeld(e.pc)
  }

  /** A rate-limited engine with a byte cap. */
  predicate Limited(cfg: Config) {
    cfg.rate > 0 && cfg.maxBytes > 0
  }

  ghost predicate BucketFits(e: Engine) {
    && e.bucket.rate == e.cfg.rate
    && e.bucket.capacity == New(e.cfg.rate, ComputeBucketBurst(e.cfg), e.born).capacity
    && Valid(e.bucket) && e.born <= e.bucket.last <= e.clock
  }

  /** What is drawn, plus all that could still be drawn until now, is what the bucket gave. */
  ghost predicate TokensFit(e: Engine) {
    && BucketFits(e)
    && Drawn(e) as real + Ceiling(e.bucket, e.born, e.clock)
       <= e.bucket.capacity as real + Gain(e.cfg.rate, e.clock - e.born)
  }

  lemma CeilingAtLaterClock(b: Bucket, born: int, clock: int, clock': int)
    requires born <= b.last <= clock <= clock'
    ensures Ceiling(b, born, clock') - Gain(b.rate, clock' - born)
            == Ceiling(b, born, clock) - Gain(b.rate, clock - born)
  {
    GainAdds(b.rate, clock - b.last, clock' - clock);
    GainAdds(b.rate, clock - born, clock' - clock);
    assert clock - b.last + (clock' - clock) == clock' - b.last;
    assert clock - born + (clock' - clock) == clock' - born;
  }

  /** A bucket access that takes or gives as much as the account changes keeps the account. */
  lemma TokensAccess(e: Engine, e': Engine, a: Access)
    requires TokensFit(e) && e.cfg.rate > 0 && e'.cfg == e.cfg && e'.born == e.born && e'.clock == Max(e.clock, a.now)
    requires e'.bucket == Do(e.bucket, a) && (a.Look? || e.clock <= a.now)
    requires Drawn(e') == Drawn(e) + TakenBy(e.bucket, a) - if a.GiveBack? then a.n else 0
    ensures TokensFit(e')
  {
    CeilingAtLaterClock(e.bucket, e.born, e.clock, e'.clock);
    AccessLowersCeiling(e.bucket, a, e.born, e'.clock);
  }

  lemma DrawnReplaced(e: Engine, i: nat, a: Active)
    requires i < |e.sessions|
    ensures Drawn(With(e, i, a)) == Drawn(e) - Owes(e.sessions[i]) + Owes(a)
  {
    TotalReplaced(e.sessions, i, a, Owes);
  }

  /** With a byte cap no session reads more than its charge. */
  lemma SettledWithinCharge(e: Engine, i: nat)
    requires Sane(e) && Limited(e.cfg) && In(e, i, Observed)
    ensures 0 <= e.sessions[i].world.s.result.bytesRead <= e.sessions[i].charge
  {
    hide T.Inv;
    assert GoodSession(e.cfg, e.sessions[i]);
    ResultFacts(e.sessions[i].options, e.sessions[i].world);
  }

  lemma TokensSettle(e: Engine, i: nat, now: int)
    requires TokensFit(e) && Sane(e) && Limited(e.cfg) && In(e, i, Observed) && e.clock <= now
    ensures TokensFit(Settle(e, i, now))
  {
    hide TokensFit, Sane, TotalOf;
    var a := e.sessions[i];
    SettledWithinCharge(e, i);
    DrawnReplaced(e, i, a.(phase := Settled));
    var access := Settlement(a.charge, a.world.s.result.bytesRead, now);
    assert Drawn(Settle(e, i, now)) == Drawn(With(e, i, a.(phase := Settled)));
    if access.Some? {
      TokensAccess(e, Settle(e, i, now), access.value);
    } else {
      TokensSame(e, Settle(e, i, now));
    }
  }

  lemma TokensSame(e: Engine, e': Engine)
    requires TokensFit(e) && Drawn(e') == Drawn(e)
    requires e'.cfg == e.cfg && e'.born == e.born && e'.clock == e.clock && e'.bucket == e.bucket
    ensures TokensFit(e')
  {
  }

  lemma TokensLaunch(e: Engine, e': Engine, a: Active)
    requires TokensFit(e) && e.pc.Charged? && Launches(e, e', a) && Owes(a) == e.pc.item.charge
    ensures TokensFit(e')
  {
    hide TotalOf, Owes, TokensFit;
    TotalGrown(e.sessions, a, Owes);
    TokensSame(e, e');
  }

  /** A session moves on without touching the bucket. */
  lemma TokensMoved(e: Engine, e': Engine, i: nat, a: Active)
    requires TokensFit(e) && i < |e.sessions| && Owes(a) == Owes(e.sessions[i])
    requires e'.sessions == e.sessions[i := a] && e'.pc == e.pc
    requires e'.cfg == e.cfg && e'.born == e.born && e'.clock == e.clock && e'.bucket == e.bucket
    ensures TokensFit(e')
  {
    DrawnReplaced(e, i, a);
    TokensSame(e, e');
  }

  lemma TokensAdvance(e: Engine, e': Engine, i: nat, w: S.World)
    requires TokensFit(e) && (In(e, i, Running) || In(e, i, Freed)) && e' == Advance(e, i, w)
    requires e.sessions[i].phase == Freed ==> w.s.result == e.sessions[i].world.s.result
    ensures TokensFit(e')
  {
    var a' := e'.sessions[i];
    assert Owes(a') == Owes(e.sessions[i]);
    TokensMoved(e, e', i, a');
  }

  /** What a session has reported stays. */
  lemma AdvanceKeepsResult(e: Engine, i: nat, event: S.Event)
    requires Sane(e) && (In(e, i, Running) || In(e, i, Freed))
    ensures var a := e.sessions[i];
            a.phase == Freed ==> S.Step(a.options, a.world, event).s.result == a.world.s.result
  {
    var a := e.sessions[i];
    assert GoodSession(e.cfg, a);
    WorldStep(a.options, a.world, event);
  }

  /** The callback of session i moves on without touching the bucket. */
  lemma TokensPhase(e: Engine, ev: Event)
    requires TokensFit(e) && Enabled(e, ev) && (ev.Recorded? || ev.Retired? || ev.SlotFreed?)
    ensures TokensFit(Step(e, ev))
  {
    var e' := Step(e, ev);
    TokensMoved(e, e', ev.i, e'.sessions[ev.i]);
  }

  lemma TokensQuiet(e: Engine, ev: Event)
    requires TokensFit(e) && IsQuiet(ev)
    ensures TokensFit(Step(e, ev))
  {
    QuietStep(e, ev);
    TokensSame(e, Step(e, ev));
  }

  lemma TokensStep(e: Engine, ev: Event)
    requires TokensFit(e) && Sane(e) && Limited(e.cfg)
    ensures TokensFit(Step(e, ev))
  {
    hide TokensFit, Sane, S.Step, S.Start;
    if Enabled(e, ev) {
      match ev
      case ChargeTried(now) => TokensAccess(e, TryCharge(e, now), Take(e.pc.item.charge, now));
      case BucketPeeked(now) => TokensAccess(e, Peek(e, now), Look(now));
      case Launched(sub) =>
        LaunchLaunches(e, Step(e, ev), sub);
        TokensLaunch(e, Step(e, ev), Started(e.pc.item, S.Start(sub)));
      case SessionMoved(i, event) =>
        AdvanceKeepsResult(e, i, event);
        TokensAdvance(e, Step(e, ev), i, Step(e, ev).sessions[i].world);
      case TokensSettled(i, now) => TokensSettle(e, i, now);
      case Recorded(_, _) => TokensPhase(e, ev);
      case Retired(_) => TokensPhase(e, ev);
      case SlotFreed(_) => TokensPhase(e, ev);
      case _ => TokensQuiet(e, ev);
    }
  }

  // ---- the level ---------------------------------------------------------------------------

  /** The level has sunk by no more than what is drawn now: what a session did not read of its charge
      has been given back. */
  ghost predicate LevelFits(e: Engine) {
    && BucketFits(e)
    && (e.cfg.rate > 0 ==> e.bucket.capacity as real <= e.bucket.tokens + Drawn(e) as real)
  }

  lemma RefillRaises(b: Bucket, now: int)
    requires Valid(b)
    ensures b.tokens <= Refill(b, now).tokens <= b.capacity as real
  {
    if b.rate > 0 && now > b.last {
      GainNonNegative(b.rate, now - b.last);
    }
  }

  lemma BucketFitsAccess(e: Engine, a: Access, clock: int)
    requires BucketFits(e) && clock == Max(e.clock, a.now)
    ensures var b := Do(e.bucket, a);
            && b.rate == e.bucket.rate && b.capacity == e.bucket.capacity && Valid(b) && e.born <= b.last <= clock
            && (a.Take? ==> e.bucket.tokens <= b.tokens + TakenBy(e.bucket, a) as real || b == e.bucket)
            && (!a.Take? ==> e.bucket.tokens <= b.tokens)
  {
    RefillRaises(e.bucket, a.now);
  }

  lemma LevelTryCharge(e: Engine, now: int)
    requires LevelFits(e) && e.pc.Picked? && e.clock <= now
    ensures LevelFits(TryCharge(e, now))
  {
    hide Do, ComputeBucketBurst, TotalOf;
    BucketFitsAccess(e, Take(e.pc.item.charge, now), now);
  }

  lemma OwesNonNegative(cfg: Config, a: Active)
    requires GoodSession(cfg, a)
    ensures Owes(a) >= 0
  {
    if a.world.s.completed {
      ResultFacts(a.options, a.world);
    }
  }

  lemma {:induction false} SumNonNegative(cfg: Config, sessions: seq<Active>)
    requires forall i :: 0 <= i < |sessions| ==> GoodSession(cfg, sessions[i])
    ensures TotalOf(sessions, Owes) >= 0
  {
    hide GoodSession, Owes;
    if sessions != [] {
      SumNonNegative(cfg, sessions[..|sessions| - 1]);
      OwesNonNegative(cfg, sessions[|sessions| - 1]);
    }
  }

  /** Giving n tokens back raises the level by n, or to the capacity. */
  lemma GiveBackRaises(b: Bucket, n: nat, now: int)
    requires Valid(b) && b.rate > 0 && n > 0
    ensures var tokens := Do(b, GiveBack(n, now)).tokens; b.tokens + n as real <= tokens || tokens == b.capacity as real
  {
    RefillRaises(b, now);
  }

  lemma LevelSettle(e: Engine, e': Engine, i: nat, now: int)
    requires LevelFits(e) && In(e, i, Observed) && e.clock <= now && e' == Settle(e, i, now) && Sane(e) && Sane(e')
    ensures LevelFits(e')
  {
    hide Do, ComputeBucketBurst, TotalOf, GoodSession;
    var a := e.sessions[i];
    var bytes := a.world.s.result.bytesRead;
    assert GoodSession(e.cfg, a);
    SettledBytes(e.cfg, a);
    SumNonNegative(e.cfg, e'.sessions);
    DrawnReplaced(e, i, a.(phase := Settled));
    assert Drawn(e') == Drawn(e) - a.charge + bytes;
    var access := Settlement(a.charge, bytes, now);
    if access.Some? {
      BucketFitsAccess(e, access.value, now);
      if e.cfg.rate > 0 && bytes < a.charge {
        GiveBackRaises(e.bucket, a.charge - bytes, now);
      }
    }
  }

  lemma SettledBytes(cfg: Config, a: Active)
    requires GoodSession(cfg, a) && a.phase != Running
    ensures a.world.s.result.bytesRead >= 0
  {
    ResultFacts(a.options, a.world);
  }

  lemma LevelPeek(e: Engine, now: int)
    requires LevelFits(e)
    ensures LevelFits(Peek(e, now))
  {
    hide Do, ComputeBucketBurst, TotalOf;
    BucketFitsAccess(e, Look(now), Max(e.clock, now));
  }

  lemma LevelSame(e: Engine, e': Engine)
    requires LevelFits(e) && Drawn(e') == Drawn(e)
    requires e'.cfg == e.cfg && e'.born == e.born && e'.clock == e.clock && e'.bucket == e.bucket
    ensures LevelFits(e')
  {
    hide Drawn;
  }

  lemma LevelMoved(e: Engine, e': Engine, i: nat, a: Active)
    requires LevelFits(e) && i < |e.sessions| && Owes(a) == Owes(e.sessions[i])
    requires e'.sessions == e.sessions[i := a] && e'.pc == e.pc
    requires e'.cfg == e.cfg && e'.born == e.born && e'.clock == e.clock && e'.bucket == e.bucket
    ensures LevelFits(e')
  {
    hide TotalOf, LevelFits;
    DrawnReplaced(e, i, a);
    LevelSame(e, e');
  }

  lemma LevelAdvance(e: Engine, e': Engine, i: nat, w: S.World)
    requires LevelFits(e) && (In(e, i, Running) || In(e, i, Freed)) && e' == Advance(e, i, w)
    requires e.sessions[i].phase == Freed ==> w.s.result == e.sessions[i].world.s.result
    ensures LevelFits(e')
  {
    hide LevelFits;
    LevelMoved(e, e', i, e'.sessions[i]);
  }

  lemma LevelLaunch(e: Engine, e': Engine, a: Active)
    requires LevelFits(e) && e.pc.Charged? && Launches(e, e', a) && Owes(a) == e.pc.item.charge
    ensures LevelFits(e')
  {
    hide TotalOf, LevelFits, Owes;
    TotalGrown(e.sessions, a, Owes);
    LevelSame(e, e');
  }

  /** The callback of session i moves on without touching the bucket. */
  lemma LevelPhase(e: Engine, ev: Event)
    requires LevelFits(e) && Enabled(e, ev) && (ev.Recorded? || ev.Retired? || ev.SlotFreed?)
    ensures LevelFits(Step(e, ev))
  {
    hide LevelFits;
    LevelMoved(e, Step(e, ev), ev.i, Step(e, ev).sessions[ev.i]);
  }

  lemma LevelQuiet(e: Engine, ev: Event)
    requires LevelFits(e) && IsQuiet(ev)
    ensures LevelFits(Step(e, ev))
  {
    hide LevelFits;
    QuietStep(e, ev);
    LevelSame(e, Step(e, ev));
  }

  lemma LevelStep(e: Engine, ev: Event)
    requires LevelFits(e) && Sane(e) && Sane(Step(e, ev))
    ensures LevelFits(Step(e, ev))
  {
    hide LevelFits, Sane, S.Step, S.Start;
    if Enabled(e, ev) {
      match ev
      case ChargeTried(now) => LevelTryCharge(e, now);
      case BucketPeeked(now) => LevelPeek(e, now);
      case Launched(sub) =>
        LaunchLaunches(e, Step(e, ev), sub);
        LevelLaunch(e, Step(e, ev), Started(e.pc.item, S.Start(sub)));
      case SessionMoved(i, event) =>
        AdvanceKeepsResult(e, i, event);
        LevelAdvance(e, Step(e, ev), i, Step(e, ev).sessions[i].world);
      case TokensSettled(i, now) => LevelSettle(e, Step(e, ev), i, now);
      case Recorded(_, _) => LevelPhase(e, ev);
      case Retired(_) => LevelPhase(e, ev);
      case SlotFreed(_) => LevelPhase(e, ev);
      case _ => LevelQuiet(e, ev);
    }
  }

  // ---- metrics -----------------------------------------------------------------------------

  predicate Reported(a: Active) {
    a.phase != Running && a.phase != Called
  }

  function CountsOk(a: Active): int {
    if Reported(a) && a.world.s.result.ok then 1 else 0
  }

  function CountsFail(a: Active): int {
    if Reported(a) && !a.world.s.result.ok then 1 else 0
  }

  function CountsBytes(a: Active): int {
    if Reported(a) && a.world.s.result.ok then a.world.s.result.bytesRead else 0
  }

  function CountsOps(a: Active): int {
    if Reported(a) && a.world.s.result.ok then a.world.s.result.ops else 0
  }

  /** The registry has counted exactly the recorded sessions, none of them as an error None. */
  ghost predicate MetricsFit(e: Engine) {
    && Conserved(e.registry)
    && ErrorCount(e.registry.total.errors, Classifier.None) == 0
    && e.registry.total.ok == TotalOf(e.sessions, CountsOk)
    && e.registry.total.fail == TotalOf(e.sessions, CountsFail)
    && e.registry.total.bytes == TotalOf(e.sessions, CountsBytes)
    && e.registry.ops == TotalOf(e.sessions, CountsOps)
  }

  lemma MetricsMoved(e: Engine, e': Engine, i: nat, a: Active)
    requires MetricsFit(e) && i < |e.sessions| && e'.sessions == e.sessions[i := a] && e'.registry == e.registry
    requires Reported(a) == Reported(e.sessions[i])
    requires Reported(a) ==> a.world.s.result == e.sessions[i].world.s.result
    ensures MetricsFit(e')
  {
    TotalReplaced(e.sessions, i, a, CountsOk);
    TotalReplaced(e.sessions, i, a, CountsFail);
    TotalReplaced(e.sessions, i, a, CountsBytes);
    TotalReplaced(e.sessions, i, a, CountsOps);
  }

  lemma MetricsLaunch(e: Engine, e': Engine, a: Active)
    requires MetricsFit(e) && Launches(e, e', a) && !Reported(a)
    ensures MetricsFit(e')
  {
    hide TotalOf, Conserved;
    TotalGrown(e.sessions, a, CountsOk);
    TotalGrown(e.sessions, a, CountsFail);
    TotalGrown(e.sessions, a, CountsBytes);
    TotalGrown(e.sessions, a, CountsOps);
  }

  /** Recording session i under class `error` counts it once. */
  lemma MetricsRecord(e: Engine, i: nat, error: Classifier.ErrorClass, mapped: string)
    requires MetricsFit(e) && In(e, i, Called)
    requires var r := e.sessions[i].world.s.result; 0 <= r.bytesRead && (r.ok || error != Classifier.None)
    ensures MetricsFit(Record(e, i, error, mapped))
  {
    var r := e.sessions[i].world.s.result;
    var a := e.sessions[i].(phase := Observed);
    TotalReplaced(e.sessions, i, a, CountsOk);
    TotalReplaced(e.sessions, i, a, CountsFail);
    TotalReplaced(e.sessions, i, a, CountsBytes);
    TotalReplaced(e.sessions, i, a, CountsOps);
    ObserveConserves(e.registry, if r.ok then SessionOk(Unsigned(r.bytesRead), r.ops, r.dataServer, [], mapped)
                                 else SessionFail(error, r.dataServer, [], mapped));
  }

  lemma MetricsAdvance(e: Engine, e': Engine, i: nat, w: S.World)
    requires MetricsFit(e) && (In(e, i, Running) || In(e, i, Freed)) && e' == Advance(e, i, w)
    requires e.sessions[i].phase == Freed ==> w.s.result == e.sessions[i].world.s.result
    ensures MetricsFit(e')
  {
    MetricsMoved(e, e', i, e'.sessions[i]);
  }

  lemma MetricsRecorded(e: Engine, i: nat, mapped: string)
    requires MetricsFit(e) && Sane(e) && In(e, i, Called)
    ensures MetricsFit(Record(e, i, ErrorOf(e.sessions[i].world.s.result), mapped))
  {
    var a := e.sessions[i];
    ResultFacts(a.options, a.world);
    if !a.world.s.result.ok {
      FailureHasClass(a.world.s.result);
    }
    MetricsRecord(e, i, ErrorOf(a.world.s.result), mapped);
  }

  lemma MetricsPhase(e: Engine, ev: Event)
    requires MetricsFit(e) && Enabled(e, ev) && (ev.TokensSettled? || ev.Retired? || ev.SlotFreed?)
    ensures MetricsFit(Step(e, ev))
  {
    var e' := Step(e, ev);
    MetricsMoved(e, e', ev.i, e'.sessions[ev.i]);
  }

  lemma MetricsSite(e: Engine, server: string, site: string)
    requires MetricsFit(e)
    ensures MetricsFit(Step(e, SiteFound(server, site)))
  {
    ObserveConserves(e.registry, SetSite(server, site));
  }

  lemma MetricsStep(e: Engine, ev: Event)
    requires MetricsFit(e) && Sane(e)
    ensures MetricsFit(Step(e, ev))
  {
    hide Sane, S.Step, S.Start, Conserved, TotalOf;
    if Enabled(e, ev) {
      match ev
      case Launched(sub) =>
        LaunchLaunches(e, Step(e, ev), sub);
        MetricsLaunch(e, Step(e, ev), Started(e.pc.item, S.Start(sub)));
      case SessionMoved(i, event) =>
        AdvanceKeepsResult(e, i, event);
        MetricsAdvance(e, Step(e, ev), i, Step(e, ev).sessions[i].world);
      case Recorded(i, mapped) => MetricsRecorded(e, i, mapped);
      case TokensSettled(_, _) => MetricsPhase(e, ev);
      case Retired(_) => MetricsPhase(e, ev);
      case SlotFreed(_) => MetricsPhase(e, ev);
      case SiteFound(server, site) => MetricsSite(e, server, site);
      case ChargeTried(now) =>
      case BucketPeeked(now) =>
      case _ => QuietStep(e, ev);
    }
  }
}
