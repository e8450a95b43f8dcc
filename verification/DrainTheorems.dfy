/** Every run of the engine gets through: as long as a session's callback is not through, some step of
    its session or its callback is enabled, and there are only so many such steps. */
module DrainTheorems {
  import opened Basics
  import opened RunConfig
  import opened EngineModel
  import opened EngineInvariants
  import opened EngineTheorems
  import S = SessionModel
  import A = SessionAccounting
  import T = SessionTheorems

  /** A step that brings a session forward: an answer of the library, or a part of the completion
      callback. */
  ghost predicate Progress(e: Engine, ev: Event) {
    && Enabled(e, ev)
    && match ev
       case SessionMoved(i, event) => T.IsAnswer(event) && S.Enabled(e.sessions[i].world, event)
       case Recorded(_, _) => true
       case TokensSettled(_, _) => true
       case Retired(_) => true
       case SlotFreed(_) => true
       case _ => false
  }

  /** The progress made during a run. */
  ghost function Steps(e: Engine, events: seq<Event>): nat {
    if events == [] then 0 else
    var before, last := events[..|events| - 1], events[|events| - 1];
    Steps(e, before) + if Progress(Play(e, before), last) then 1 else 0
  }

  // ---- progress is possible ----------------------------------------------------------------

  lemma AnswerPossible(o: S.Options, w: S.World) returns (event: S.Event)
    requires T.Inv(o, w) && !w.s.completed
    ensures T.IsAnswer(event) && S.Enabled(w, event)
  {
    assert w.wire.owed != [];
    event := match w.wire.owed[0]
      case Open => S.Opened(T.FINE, "", T.FINE)
      case Stat => S.Statted(T.FINE, None, T.FINE, [])
      case Read => S.ReadDone(T.FINE, None, T.FINE, [])
      case Close => S.Closed(T.FINE);
  }

  lemma ProgressPossible(e: Engine, i: nat) returns (ev: Event)
    requires Inv(e) && i < |e.sessions| && e.sessions[i].phase != Freed
    ensures Progress(e, ev)
  {
    var a := e.sessions[i];
    match a.phase {
      case Running =>
        assert GoodSession(e.cfg, a);
        var event := AnswerPossible(a.options, a.world);
        ev := SessionMoved(i, event);
      case Called => ev := Recorded(i, []);
      case Observed => ev := TokensSettled(i, e.clock);
      case Settled => ev := Retired(i);
      case Left => ev := SlotFreed(i);
    }
  }

  /** In every reachable state in which some session's callback is not through, the library can answer
      or a callback can go on. */
  lemma NeverStuck(cfg: Config, t0: int, events: seq<Event>, i: nat)
    requires var e := Play(Begin(cfg, t0), events); i < |e.sessions| && e.sessions[i].phase != Freed
    ensures exists ev :: Progress(Play(Begin(cfg, t0), events), ev)
  {
    hide Progress;
    Invariant(cfg, t0, events);
    var ev := ProgressPossible(Play(Begin(cfg, t0), events), i);
  }

  // ---- progress is bounded -----------------------------------------------------------------

  /** The parts of the completion callback that are done. */
  function Parts(p: Phase): nat {
    match p
    case Running => 0
    case Called => 0
    case Observed => 1
    case Settled => 2
    case Left => 3
    case Freed => 4
  }

  /** The progress a session has made. */
  function Done(a: Active): int {
    a.world.wire.answered + Parts(a.phase)
  }

  /** The progress a session can make: its callbacks, and the four parts of its completion. */
  function MostSteps(a: Active): int
  {
    7 + if S.OpSize(a.options) >= 1 && a.world.budget >= 0 then T.CeilDiv(a.world.budget, S.OpSize(a.options)) else 0
  }

  lemma AnswersWithin(o: S.Options, w: S.World)
    requires T.Inv(o, w) && o.chunkSize >= 1
    ensures S.OpSize(o) >= 1 && w.budget >= 0 && w.wire.answered <= 3 + T.CeilDiv(w.budget, S.OpSize(o))
  {
    T.OpSizePositive(o);
    T.PlansBound(S.OpSize(o), o, w);
  }

  lemma DoneWithin(e: Engine)
    requires Sane(e) && e.cfg.chunkSize >= 1
    ensures TotalOf(e.sessions, Done) <= TotalOf(e.sessions, MostSteps)
  {
    hide T.Inv, S.OpSize, T.CeilDiv;
    forall i | 0 <= i < |e.sessions| ensures Done(e.sessions[i]) <= MostSteps(e.sessions[i]) {
      var a := e.sessions[i];
      assert GoodSession(e.cfg, a);
      AnswersWithin(a.options, a.world);
    }
    TotalOrdered(e.sessions, Done, MostSteps);
  }

  lemma DoneLaunch(e: Engine, e': Engine, sub: S.Status)
    requires e.pc.Charged? && e' == Step(e, Launched(sub))
    ensures TotalOf(e'.sessions, Done) == TotalOf(e.sessions, Done)
  {
    hide TotalOf;
    LaunchLaunches(e, e', sub);
    TotalGrown(e.sessions, Started(e.pc.item, S.Start(sub)), Done);
  }

  lemma DoneMoved(e: Engine, e': Engine, i: nat, event: S.Event)
    requires Enabled(e, SessionMoved(i, event)) && e' == Step(e, SessionMoved(i, event))
    ensures TotalOf(e'.sessions, Done) ==
            TotalOf(e.sessions, Done) + if Progress(e, SessionMoved(i, event)) then 1 else 0
  {
    hide TotalOf, S.Step, S.Enabled;
    var a := e.sessions[i];
    T.AnswerCounts(a.options, a.world, event);
    TotalReplaced(e.sessions, i, e'.sessions[i], Done);
  }

  lemma DonePart(e: Engine, e': Engine, ev: Event)
    requires Enabled(e, ev) && (ev.Recorded? || ev.TokensSettled? || ev.Retired? || ev.SlotFreed?)
    requires e' == Step(e, ev)
    ensures TotalOf(e'.sessions, Done) == TotalOf(e.sessions, Done) + 1
  {
    hide TotalOf;
    TotalReplaced(e.sessions, ev.i, e'.sessions[ev.i], Done);
  }

  lemma DoneStep(e: Engine, ev: Event)
    ensures TotalOf(Step(e, ev).sessions, Done) == TotalOf(e.sessions, Done) + if Progress(e, ev) then 1 else 0
  {
    hide TotalOf, S.Step, S.Start;
    if Enabled(e, ev) {
      match ev
      case Launched(sub) => DoneLaunch(e, Step(e, ev), sub);
      case SessionMoved(i, event) => DoneMoved(e, Step(e, ev), i, event);
      case Recorded(_, _) => DonePart(e, Step(e, ev), ev);
      case TokensSettled(_, _) => DonePart(e, Step(e, ev), ev);
      case Retired(_) => DonePart(e, Step(e, ev), ev);
      case SlotFreed(_) => DonePart(e, Step(e, ev), ev);
      case _ =>
    }
  }

  lemma {:induction false} StepsCounted(e: Engine, events: seq<Event>)
    ensures TotalOf(Play(e, events).sessions, Done) == TotalOf(e.sessions, Done) + Steps(e, events)
  {
    hide Step, TotalOf, Progress;
    if events != [] {
      StepsCounted(e, events[..|events| - 1]);
      DoneStep(Play(e, events[..|events| - 1]), events[|events| - 1]);
    }
  }

  /** With chunks, no run makes more progress than the callbacks its sessions can take and the four
      parts of each completion. So when the library answers what it owes and the callbacks run, every
      started session is through after so many steps. */
  lemma ProgressIsBounded(cfg: Config, t0: int, events: seq<Event>)
    requires cfg.chunkSize >= 1
    ensures Steps(Begin(cfg, t0), events) <= TotalOf(Play(Begin(cfg, t0), events).sessions, MostSteps)
  {
    hide MostSteps;
    Invariant(cfg, t0, events);
    StepsCounted(Begin(cfg, t0), events);
    DoneWithin(Play(Begin(cfg, t0), events));
  }

  // ---- after the admission thread has stopped ----------------------------------------------

  /** Nothing starts any more. */
  lemma {:induction false} StoppedStays(e: Engine, more: seq<Event>)
    requires e.pc == Stopped
    ensures Play(e, more).pc == Stopped && |Play(e, more).sessions| == |e.sessions|
  {
    hide S.Step;
    if more != [] {
      StoppedStays(e, more[..|more| - 1]);
    }
  }

  /** With a byte cap, what a session can still do is bounded in advance. */
  function CappedSteps(cfg: Config): nat {
    7 + cfg.maxBytes
  }

  lemma SessionCapped(cfg: Config, a: Active)
    requires cfg.maxBytes > 0 && GoodSession(cfg, a)
    ensures MostSteps(a) <= CappedSteps(cfg)
  {
    hide S.OpSize;
    A.BudgetFits(a.options, a.world.s.fileSize);
    if S.OpSize(a.options) >= 1 {
      T.CeilDivAtMost(a.world.budget, S.OpSize(a.options));
    }
  }

  lemma {:induction false} MostStepsCapped(cfg: Config, sessions: seq<Active>, capped: nat)
    requires cfg.maxBytes > 0 && capped == CappedSteps(cfg)
    requires forall i :: 0 <= i < |sessions| ==> GoodSession(cfg, sessions[i])
    ensures TotalOf(sessions, MostSteps) <= |sessions| * capped
  {
    hide GoodSession, MostSteps, CappedSteps;
    if sessions == [] {
      assert |sessions| * capped == 0;
    } else {
      var n := |sessions| - 1;
      MostStepsCapped(cfg, sessions[..n], capped);
      SessionCapped(cfg, sessions[n]);
      assert |sessions| * capped == n * capped + capped;
    }
  }

  /** Every callback is through, and no slot is in use. */
  ghost predicate AllFreed(e: Engine) {
    e.live == 0 && e.slots.current == 0 && forall i :: 0 <= i < |e.sessions| ==> e.sessions[i].phase == Freed
  }

  /** Once admission has stopped, however the run goes on, only so much progress is left, and while a
      callback is not through, more progress is possible: every run in which the library answers and
      the callbacks run gets all slots back. */
  lemma DrainEnds(cfg: Config, t0: int, events: seq<Event>, more: seq<Event>)
    requires cfg.chunkSize >= 1 && cfg.maxBytes > 0 && Play(Begin(cfg, t0), events).pc == Stopped
    ensures var e := Play(Begin(cfg, t0), events);
            var e' := Play(e, more);
            && Steps(e, more) <= |e.sessions| * CappedSteps(cfg)
            && e'.pc == Stopped && |e'.sessions| == |e.sessions|
            && ((exists ev :: Progress(e', ev)) || AllFreed(e'))
  {
    hide Progress, Inv, Step, TotalOf, MostSteps, CappedSteps;
    var e := Play(Begin(cfg, t0), events);
    var e' := Play(e, more);
    Invariant(cfg, t0, events);
    InvKept(e, more);
    StoppedStays(e, more);
    StepsCounted(e, more);
    RemainingSteps(e, e', Steps(e, more));
    if i :| 0 <= i < |e'.sessions| && e'.sessions[i].phase != Freed {
      var ev := ProgressPossible(e', i);
    } else {
      AllThrough(e');
    }
  }

  lemma RemainingSteps(e: Engine, e': Engine, steps: nat)
    requires Inv(e) && Inv(e') && e'.cfg == e.cfg && e.cfg.chunkSize >= 1 && e.cfg.maxBytes > 0
    requires |e'.sessions| == |e.sessions| && TotalOf(e'.sessions, Done) == TotalOf(e.sessions, Done) + steps
    ensures steps <= |e.sessions| * CappedSteps(e.cfg)
  {
    hide TotalOf, GoodSession, MostSteps, CappedSteps;
    DoneNonNegative(e.sessions);
    DoneWithin(e');
    MostStepsCapped(e.cfg, e'.sessions, CappedSteps(e.cfg));
  }

  lemma {:induction false} DoneNonNegative(sessions: seq<Active>)
    ensures 0 <= TotalOf(sessions, Done)
  {
    if sessions != [] {
      DoneNonNegative(sessions[..|sessions| - 1]);
    }
  }

  lemma AllThrough(e: Engine)
    requires Inv(e) && e.pc == Stopped && forall i :: 0 <= i < |e.sessions| ==> e.sessions[i].phase == Freed
    ensures AllFreed(e)
  {
    hide TotalOf;
    NoneHeld(e.sessions);
  }
}
