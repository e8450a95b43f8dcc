/** The admission engine of src/run_command.cc on values: the admission thread, the completion
    callbacks of all sessions, the token bucket, the in-flight semaphore and the metrics registry.
    Each atomic or locked region is one step; steps of different threads interleave freely. */
module EngineModel {
  import opened Basics
  import opened RunConfig
  import opened BucketModel
  import opened InFlight
  import opened MetricsModel
  import Scheduler
  import Classifier = ErrorClassifier
  import S = SessionModel

  /** How far the completion callback of a session has got: called, outcome recorded, tokens
      settled, no longer live, slot released. */
  datatype Phase = Running | Called | Observed | Settled | Left | Freed

  datatype Active = Active(options: S.Options, charge: nat, world: S.World, phase: Phase)

  /** Where the admission thread is. */
  datatype Admission =
    | Idle
    | Holding
    | Picked(item: Scheduler.WorkItem)
    | Charged(item: Scheduler.WorkItem)
    | Stopped

  /** `clock` is the latest reading any thread made, `born` the one the bucket was built with. */
  datatype Engine = Engine(cfg: Config, born: int, clock: int, bucket: Bucket, slots: Slots, pc: Admission,
                           live: nat, sessions: seq<Active>, registry: Registry)

  function Begin(cfg: Config, now: int): Engine {
    Engine(cfg, now, now, New(cfg.rate, ComputeBucketBurst(cfg), now), NewSlots(cfg.maxInflight), Idle, 0, [], EMPTY)
  }

  // ---- the admission thread ----------------------------------------------------------------

  function TakeSlot(e: Engine): Engine {
    e.(slots := Enter(e.slots), pc := Holding)
  }

  function Pick(e: Engine, item: Scheduler.WorkItem): Engine {
    e.(pc := Picked(item))
  }

  /** One locked try of AcquireUntil; without success the thread stays where it is. */
  function TryCharge(e: Engine, now: int): Engine
    requires e.pc.Picked?
  {
    var n := e.pc.item.charge;
    e.(clock := now, bucket := Do(e.bucket, Take(n, now)),
       pc := if Succeeds(e.bucket, n, now) then Charged(e.pc.item) else e.pc)
  }

  /** The second locked region of AcquireUntil; its clock reading may be old by now. */
  function Peek(e: Engine, now: int): Engine {
    e.(clock := Max(e.clock, now), bucket := Do(e.bucket, Look(now)))
  }

  function GiveUp(e: Engine): Engine {
    e.(slots := Leave(e.slots), pc := Stopped)
  }

  /** A session that starts in world w, which may be completed already. */
  function Started(item: Scheduler.WorkItem, w: S.World): Active {
    Active(item.options, item.charge, w, if w.s.completed then Called else Running)
  }

  function Launch(e: Engine, w: S.World): Engine
    requires e.pc.Charged?
  {
    e.(live := e.live + 1, sessions := e.sessions + [Started(e.pc.item, w)], pc := Idle)
  }

  // ---- sessions and their callbacks --------------------------------------------------------

  function With(e: Engine, i: nat, a: Active): Engine
    requires i < |e.sessions|
  {
    e.(sessions := e.sessions[i := a])
  }

  /** Session i moves on to world w; completing calls the callback. */
  function Advance(e: Engine, i: nat, w: S.World): Engine
    requires i < |e.sessions|
  {
    var a := e.sessions[i];
    With(e, i, a.(world := w, phase := if a.phase == Running && w.s.completed then Called else a.phase))
  }

  function Unsigned(x: int): nat {
    if x < 0 then 0 else x
  }

  /** The class of a failed session's error. */
  function ErrorOf(r: S.Result): Classifier.ErrorClass {
    Classifier.Classify(r.statusCode, r.errCode, S.Message(r.error))
  }

  /** Record the outcome; `error` is the class of a failure. */
  function Record(e: Engine, i: nat, error: Classifier.ErrorClass, mapped: string): Engine
    requires i < |e.sessions|
  {
    var r := e.sessions[i].world.s.result;
    var o := if r.ok then SessionOk(Unsigned(r.bytesRead), r.ops, r.dataServer, [], mapped)
             else SessionFail(error, r.dataServer, [], mapped);
    With(e, i, e.sessions[i].(phase := Observed)).(registry := Observe(e.registry, o))
  }

  /** How the charge is squared with the bytes read: take the excess if the bucket has it, give
      back what was not used. */
  function Settlement(charge: nat, bytes: int, now: int): Option<Access> {
    if bytes > charge then Some(Take(bytes - charge, now))
    else if bytes < charge then Some(GiveBack(charge - Unsigned(bytes), now))
    else None
  }

  function Settle(e: Engine, i: nat, now: int): Engine
    requires i < |e.sessions|
  {
    var a := e.sessions[i];
    var access := Settlement(a.charge, a.world.s.result.bytesRead, now);
    With(e, i, a.(phase := Settled)).(clock := if access.Some? then now else e.clock,
                                      bucket := if access.Some? then Do(e.bucket, access.value) else e.bucket)
  }

  function Retire(e: Engine, i: nat): Engine
    requires i < |e.sessions|
  {
    With(e, i, e.sessions[i].(phase := Left)).(live := Unsigned(e.live - 1))
  }

  function Free(e: Engine, i: nat): Engine
    requires i < |e.sessions|
  {
    With(e, i, e.sessions[i].(phase := Freed)).(slots := Leave(e.slots))
  }

  // ---- runs --------------------------------------------------------------------------------

  datatype Event =
    | SlotTaken
    | DeadlinePassed
    | ItemPicked(item: Scheduler.WorkItem)
    | ChargeTried(now: int)
    | BucketPeeked(now: int)
    | GivenUp
    | Launched(sub: S.Status)
    | SessionMoved(i: nat, e: S.Event)
    | Recorded(i: nat, mapped: string)
    | TokensSettled(i: nat, now: int)
    | Retired(i: nat)
    | SlotFreed(i: nat)
    | SiteFound(server: string, site: string)

  predicate In(e: Engine, i: nat, phase: Phase) {
    i < |e.sessions| && e.sessions[i].phase == phase
  }

  /** Clock readings under the bucket's lock never go back; while its callback runs, a session is
      locked. */
  ghost predicate Enabled(e: Engine, ev: Event) {
    match ev
    case SlotTaken => e.pc == Idle && e.slots.current < e.slots.max
    case DeadlinePassed => e.pc == Idle
    case ItemPicked(item) => e.pc == Holding && Scheduler.Allowed(e.cfg, item)
    case ChargeTried(now) => e.pc.Picked? && e.clock <= now
    case BucketPeeked(_) => true
    case GivenUp => e.pc.Picked?
    case Launched(_) => e.pc.Charged?
    case SessionMoved(i, _) => In(e, i, Running) || In(e, i, Freed)
    case Recorded(i, _) => In(e, i, Called)
    case TokensSettled(i, now) => In(e, i, Observed) && e.clock <= now
    case Retired(i) => In(e, i, Settled)
    case SlotFreed(i) => In(e, i, Left)
    case SiteFound(_, _) => true
  }

  ghost function Step(e: Engine, ev: Event): Engine {
    if !Enabled(e, ev) then e else
    match ev
    case SlotTaken => TakeSlot(e)
    case DeadlinePassed => e.(pc := Stopped)
    case ItemPicked(item) => Pick(e, item)
    case ChargeTried(now) => TryCharge(e, now)
    case BucketPeeked(now) => Peek(e, now)
    case GivenUp => GiveUp(e)
    case Launched(sub) => Launch(e, S.Start(sub))
    case SessionMoved(i, event) => Advance(e, i, S.Step(e.sessions[i].options, e.sessions[i].world, event))
    case Recorded(i, mapped) => Record(e, i, ErrorOf(e.sessions[i].world.s.result), mapped)
    case TokensSettled(i, now) => Settle(e, i, now)
    case Retired(i) => Retire(e, i)
    case SlotFreed(i) => Free(e, i)
    case SiteFound(server, site) => e.(registry := Observe(e.registry, SetSite(server, site)))
  }

  ghost function Play(e: Engine, events: seq<Event>): Engine {
    if events == [] then e else Step(Play(e, events[..|events| - 1]), events[|events| - 1])
  }

  // ---- sums over the sessions --------------------------------------------------------------

  function TotalOf(sessions: seq<Active>, f: Active -> int): int {
    if sessions == [] then 0 else TotalOf(sessions[..|sessions| - 1], f) + f(sessions[|sessions| - 1])
  }

  lemma {:induction false} TotalReplaced(sessions: seq<Active>, i: nat, a: Active, f: Active -> int)
    requires i < |sessions|
    ensures TotalOf(sessions[i := a], f) == TotalOf(sessions, f) - f(sessions[i]) + f(a)
  {
    var n := |sessions| - 1;
    if i < n {
      assert sessions[i := a][..n] == sessions[..n][i := a];
      TotalReplaced(sessions[..n], i, a, f);
    } else {
      assert sessions[i := a][..n] == sessions[..n];
    }
  }

  lemma TotalGrown(sessions: seq<Active>, a: Active, f: Active -> int)
    ensures TotalOf(sessions + [a], f) == TotalOf(sessions, f) + f(a)
  {
    assert (sessions + [a])[..|sessions|] == sessions;
  }

  lemma {:induction false} TotalOrdered(sessions: seq<Active>, f: Active -> int, g: Active -> int)
    requires forall i :: 0 <= i < |sessions| ==> f(sessions[i]) <= g(sessions[i])
    ensures TotalOf(sessions, f) <= TotalOf(sessions, g)
  {
    if sessions != [] {
      TotalOrdered(sessions[..|sessions| - 1], f, g);
    }
  }
}
