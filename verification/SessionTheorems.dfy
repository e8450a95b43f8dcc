/** What the FileSession protocol guarantees in every reachable world: for all options, all
    library behaviours and every interleaving of handlers with the watchdog. */
module SessionTheorems {
  import opened Basics
  import opened SessionModel
  import opened SessionReads
  import opened SessionInvariants
  import opened SessionAccounting

  ghost predicate Inv(o: Options, w: World) {
    Protocol(w) && Outcome(w) && Accounting(o, w)
  }

  lemma {:induction false} InvKept(o: Options, w: World, events: seq<Event>)
    requires Inv(o, w)
    ensures Inv(o, Play(o, w, events))
  {
    if events != [] {
      var e := events[|events| - 1];
      var before := Play(o, w, events[..|events| - 1]);
      InvKept(o, w, events[..|events| - 1]);
      ProtocolStep(o, before, e);
      OutcomeStep(o, before, e);
      AccountingStep(o, before, e);
    }
  }

  lemma Invariant(o: Options, sub: Status, events: seq<Event>)
    ensures Inv(o, Play(o, Start(sub), events))
  {
    ProtocolStart(sub);
    OutcomeStart(sub);
    AccountingStart(o, sub);
    InvKept(o, Start(sub), events);
  }

  /** An answer from the library, as opposed to the watchdog's request. */
  predicate IsAnswer(e: Event) {
    !e.WallTimeout?
  }

  lemma PlayOne(o: Options, w: World, events: seq<Event>, e: Event)
    ensures Play(o, w, []) == w
    ensures Play(o, w, events + [e]) == Step(o, Play(o, w, events), e)
  {
    hide Step;
    assert (events + [e])[..|events|] == events;
  }

  // ---- lifetime ----------------------------------------------------------------------------

  /** The self reference is dropped exactly when the session is completed and no callback is
      owed; the pending counter is the number of owed callbacks. So no callback ever runs on a
      released session. */
  lemma LifetimeSafety(o: Options, sub: Status, events: seq<Event>)
    ensures var w := Play(o, Start(sub), events);
            && w.s.pending == |w.wire.owed|
            && w.wire.answered + |w.wire.owed| == |w.wire.accepted|
            && (w.s.selfKeep <==> !(w.s.completed && w.wire.owed == []))
            && forall e: Event :: IsAnswer(e) && Enabled(w, e) ==> w.s.selfKeep && w.s.pending > 0
  {
    Invariant(o, sub, events);
  }

  // ---- completion --------------------------------------------------------------------------

  /** on_done has fired at most once, and once exactly when the session is completed; an
      uncompleted session is owed a callback, and one the library can deliver. */
  lemma CompletesExactlyOnce(o: Options, sub: Status, events: seq<Event>)
    ensures var w := Play(o, Start(sub), events);
            && |w.s.calls| == (if w.s.completed then 1 else 0)
            && (w.wire.owed == [] ==> w.s.completed)
            && (w.wire.owed != [] ==> exists e: Event :: IsAnswer(e) && Enabled(w, e))
  {
    Invariant(o, sub, events);
    var w := Play(o, Start(sub), events);
    if w.wire.owed != [] {
      var e := match w.wire.owed[0]
        case Open => Opened(sub, "", sub)
        case Stat => Statted(sub, None, sub, [])
        case Read => ReadDone(sub, None, sub, [])
        case Close => Closed(sub);
      assert IsAnswer(e) && Enabled(w, e);
    }
  }

  /** Once on_done has fired, nothing that happens later fires it again or changes the result. */
  lemma {:induction false} CompletionIsFinal(o: Options, w: World, events: seq<Event>)
    requires Inv(o, w) && w.s.completed
    ensures var w' := Play(o, w, events);
            w'.s.completed && w'.s.calls == w.s.calls && w'.s.result == w.s.result
  {
    if events != [] {
      CompletionIsFinal(o, w, events[..|events| - 1]);
      LateStep(o, Play(o, w, events[..|events| - 1]), events[|events| - 1]);
    }
  }

  function CeilDiv(a: nat, b: nat): nat
    requires b > 0
  {
    (a + b - 1) / b
  }

  lemma {:induction false} FullIsProduct(op: nat, j: nat)
    ensures Full(op, j) == op * j
  {
    if j > 0 {
      FullIsProduct(op, j - 1);
      assert op * j == op * (j - 1) + op;
    }
  }

  lemma QuotientAtLeast(x: nat, b: nat, m: nat)
    requires b > 0 && b * m <= x
    ensures m <= x / b
  {
    var q := x / b;
    assert x < b * q + b;
    assert b * (q + 1) == b * q + b;
    if q < m {
      ProductMonotone(b, q + 1, m);
    }
  }

  lemma CeilDivBound(a: nat, b: nat, n: nat)
    requires b > 0 && b * n < a
    ensures n + 1 <= CeilDiv(a, b)
  {
    assert b * (n + 1) == b * n + b;
    QuotientAtLeast(a + b - 1, b, n + 1);
  }

  /** The answers that reached the session during a run. */
  function Answers(o: Options, w: World, events: seq<Event>): nat {
    if events == [] then 0 else
    var before := Play(o, w, events[..|events| - 1]);
    Answers(o, w, events[..|events| - 1])
      + (if IsAnswer(events[|events| - 1]) && Enabled(before, events[|events| - 1]) then 1 else 0)
  }

  lemma IssueNextAnswers(o: Options, w: World, sub: Status, draws: seq<nat>)
    ensures SubmitClose(w, sub).wire.answered == w.wire.answered
    ensures IssueNext(o, w, sub, draws).wire.answered == w.wire.answered
  {
    var w1 := if w.s.timedOut then w.(s := w.s.(remaining := 0)) else w;
    assert SubmitClose(w1, sub).wire.answered == w.wire.answered;
    if w1.s.remaining != 0 {
      assert SendRead(w1, sub, NextChunks(o, w1.s, draws), o.vectorChunks == 0).wire.answered == w.wire.answered;
    }
  }

  lemma StatAnswerCounts(o: Options, w: World, st: Status, size: Option<nat>, sub: Status, draws: seq<nat>)
    requires Stat in w.wire.owed
    ensures OnStat(o, w, st, size, sub, draws).wire.answered == w.wire.answered + 1
  {
    IssueNextAnswers(o, Ready(o, Receive(w, Stat), SizeOf(size)), sub, draws);
  }

  lemma ReadAnswerCounts(o: Options, w: World, st: Status, got: Option<nat>, sub: Status, draws: seq<nat>)
    requires Read in w.wire.owed
    ensures OnRead(o, w, st, got, sub, draws).wire.answered == w.wire.answered + 1
  {
    var w1 := Receive(w, Read);
    IssueNextAnswers(o, Taken(o, w1, Got(o, w1.s, got)), sub, draws);
  }

  lemma OpenAnswerCounts(o: Options, w: World, st: Status, server: string, sub: Status)
    requires Open in w.wire.owed
    ensures OnOpen(o, w, st, server, sub).wire.answered == w.wire.answered + 1
  {
    var w1 := Receive(w, Open);
    IssueNextAnswers(o, w1.(s := w1.s.(dataServer := server)), sub, []);
  }

  lemma TimeoutCounts(o: Options, w: World, sub: Status)
    ensures RequestWallTimeout(w, sub).wire.answered == w.wire.answered
  {
    IssueNextAnswers(o, w.(s := w.s.(timedOut := true)), sub, []);
  }

  lemma AnswerCounts(o: Options, w: World, e: Event)
    ensures Step(o, w, e).wire.answered == w.wire.answered + (if IsAnswer(e) && Enabled(w, e) then 1 else 0)
  {
    if Enabled(w, e) {
      match e
      case Opened(st, server, sub) => OpenAnswerCounts(o, w, st, server, sub);
      case Statted(st, size, sub, draws) => StatAnswerCounts(o, w, st, size, sub, draws);
      case ReadDone(st, got, sub, draws) => ReadAnswerCounts(o, w, st, got, sub, draws);
      case Closed(st) =>
      case WallTimeout(sub) => TimeoutCounts(o, w, sub);
    }
  }

  lemma {:induction false} AnswersCounted(o: Options, w: World, events: seq<Event>)
    ensures Play(o, w, events).wire.answered == w.wire.answered + Answers(o, w, events)
  {
    if events != [] {
      AnswersCounted(o, w, events[..|events| - 1]);
      AnswerCounts(o, Play(o, w, events[..|events| - 1]), events[|events| - 1]);
    }
  }

  lemma OpSizePositive(o: Options)
    requires o.chunkSize >= 1
    ensures OpSize(o) >= 1
  {
    assert o.vectorChunks > 0 ==> o.chunkSize * o.vectorChunks >= o.vectorChunks;
  }

  /** So many full-sized reads fit into the budget. */
  lemma PlansBound(op: nat, o: Options, w: World)
    requires op == OpSize(o) >= 1 && Ledger(o, w)
    ensures w.budget >= 0 && |w.wire.plans| <= CeilDiv(w.budget, op)
  {
    BudgetFits(o, w.s.fileSize);
    var n := |w.wire.plans|;
    if n > 0 {
      assert Tile(o, w.s.fileSize, w.budget, n - 1, w.wire.plans[n - 1]);
      FullIsProduct(op, n - 1);
      CeilDivBound(w.budget, op, n - 1);
    }
  }

  /** A session takes at most three callbacks plus one per full read operation of its budget:
      when the library answers all it owes, the session ends. */
  lemma CallbackBound(o: Options, sub: Status, events: seq<Event>)
    requires o.chunkSize >= 1
    ensures OpSize(o) >= 1
    ensures var w := Play(o, Start(sub), events);
            w.budget >= 0 && Answers(o, Start(sub), events) <= 3 + CeilDiv(w.budget, OpSize(o))
  {
    OpSizePositive(o);
    Invariant(o, sub, events);
    AnswersCounted(o, Start(sub), events);
    PlansBound(OpSize(o), o, Play(o, Start(sub), events));
  }

  lemma CeilDivAtMost(a: nat, b: nat)
    requires b >= 1
    ensures CeilDiv(a, b) <= a
  {
    var q := (a + b - 1) / b;
    assert b * q <= a + b - 1;
    assert b * (a + 1) == a * b + b;
    ProductMonotone(a, 1, b);
    if q > a {
      ProductMonotone(b, a + 1, q);
    }
  }

  // With chunk_size 0 a session with something to read never gets anywhere: every read asks for
  // nothing, is answered with nothing, and is followed by another one.

  const FINE := Status(true, 0, 0, "")

  /** Open, Stat of a file one byte longer than the offset, then n empty reads. */
  function EmptyReads(o: Options, n: nat): seq<Event> {
    if n == 0 then [Opened(FINE, "", FINE), Statted(FINE, Some(o.offset + 1), FINE, [])]
    else EmptyReads(o, n - 1) + [ReadDone(FINE, Some(0), FINE, [])]
  }

  /** Still reading, nothing got, no timeout. */
  ghost predicate Spinning(o: Options, w: World) {
    && !w.s.completed && !w.s.timedOut && !w.s.closeRequested
    && w.wire.owed == [Read] && w.s.requested == 0 && w.s.remaining == w.budget > 0
    && w.s.fileSize == o.offset + 1
  }

  lemma {:induction false} EmptyPlan(o: Options, fileSize: nat, n: nat, off: int, left: int, buf: int,
                                     draws: seq<nat>, i: nat)
    requires o.chunkSize == 0
    ensures TotalLen(Plan(o, fileSize, n, off, left, buf, draws, i)) == 0
    decreases n
  {
    if n > 0 && left > 0 {
      EmptyPlan(o, fileSize, n - 1, off, left, buf, draws, i + 1);
    }
  }

  lemma EmptyChunks(o: Options, s: Session, draws: seq<nat>)
    requires o.chunkSize == 0 && s.remaining > 0
    ensures TotalLen(NextChunks(o, s, draws)) == 0
  {
    EmptyPlan(o, s.fileSize, o.vectorChunks, s.nextOffset, s.remaining, 0, draws, 0);
  }

  lemma FineOpening(o: Options, w1: World)
    requires w1 == Step(o, Start(FINE), Opened(FINE, "", FINE))
    ensures w1.wire.owed == [Stat] && w1.wire.answered == 1 && w1.wire.plans == []
    ensures !w1.s.completed && !w1.s.timedOut && !w1.s.closeRequested && w1.s.pending == 1
  {
  }

  lemma SpinningStarts(o: Options, w1: World, w: World)
    requires o.chunkSize == 0 && w1.wire.owed == [Stat] && w1.wire.answered == 1
    requires !w1.s.completed && !w1.s.timedOut && !w1.s.closeRequested
    requires w == Step(o, w1, Statted(FINE, Some(o.offset + 1), FINE, []))
    ensures Spinning(o, w) && w.wire.answered == 2 && w.budget == Budget(o, o.offset + 1)
  {
    EmptyChunks(o, Ready(o, Receive(w1, Stat), o.offset + 1).s, []);
  }

  lemma SpinningStep(o: Options, w: World)
    requires o.chunkSize == 0 && Spinning(o, w)
    ensures var w' := Step(o, w, ReadDone(FINE, Some(0), FINE, []));
            Spinning(o, w') && w'.wire.answered == w.wire.answered + 1 && w'.budget == w.budget
  {
    EmptyChunks(o, Taken(o, Receive(w, Read), 0).s, []);
  }

  lemma {:induction false} SpinsForever(o: Options, n: nat)
    requires o.chunkSize == 0
    ensures var w := Play(o, Start(FINE), EmptyReads(o, n));
            Spinning(o, w) && w.wire.answered == n + 2 && w.budget == Budget(o, o.offset + 1)
  {
    var events := EmptyReads(o, n);
    if n == 0 {
      assert events[..1] == [Opened(FINE, "", FINE)];
      assert Play(o, Start(FINE), events[..1]) == Step(o, Start(FINE), Opened(FINE, "", FINE)) by {
        assert events[..1][..0] == [];
      }
      var w1 := Step(o, Start(FINE), Opened(FINE, "", FINE));
      FineOpening(o, w1);
      SpinningStarts(o, w1, Step(o, w1, Statted(FINE, Some(o.offset + 1), FINE, [])));
    } else {
      SpinsForever(o, n - 1);
      assert events[..|events| - 1] == EmptyReads(o, n - 1);
      SpinningStep(o, Play(o, Start(FINE), EmptyReads(o, n - 1)));
    }
  }

  /** The number of callbacks a session takes is bounded by its byte budget exactly when
      chunk_size is at least one. */
  lemma BoundedExactlyWithChunks(o: Options)
    ensures o.chunkSize >= 1 <==>
            forall sub: Status, events: seq<Event> ::
              Answers(o, Start(sub), events) <= 3 + Play(o, Start(sub), events).budget
  {
    if o.chunkSize >= 1 {
      forall sub: Status, events: seq<Event>
        ensures Answers(o, Start(sub), events) <= 3 + Play(o, Start(sub), events).budget
      {
        CallbackBound(o, sub, events);
        CeilDivAtMost(Play(o, Start(sub), events).budget, OpSize(o));
      }
    } else {
      var n := Budget(o, o.offset + 1) + 2;
      SpinsForever(o, n);
      AnswersCounted(o, Start(FINE), EmptyReads(o, n));
    }
  }

  // ---- closing -----------------------------------------------------------------------------

  /** The session has begun to wind down. */
  predicate Closing(w: World) {
    w.s.timedOut || Close in w.wire.accepted
  }

  /** The Stat answer of a sequential session puts its offset beyond the end of the file. */
  predicate Beyond(o: Options, e: Event) {
    e.Statted? && !o.randomOffset && o.offset >= SizeOf(e.size)
  }

  /** The failure a session reports when this answer is an error. */
  function FailureOf(o: Options, e: Event): Failure
    requires IsAnswer(e)
  {
    match e
    case Opened(st, _, _) => Failed(Open, false, st.text)
    case Statted(st, _, _, _) => Failed(Stat, false, st.text)
    case ReadDone(st, _, _, _) => Failed(Read, o.vectorChunks > 0, st.text)
    case Closed(st) => Failed(Close, false, st.text)
  }

  /** The session ends with this failure and these codes, and makes no request. */
  ghost predicate EndsBy(w: World, w': World, f: Failure, code: int, errNo: int) {
    var r := w'.s.result;
    && w'.s.completed && w'.wire.submitted == w.wire.submitted
    && r.error == f && r.statusCode == code && r.errCode == errNo && !r.timedOut
  }

  ghost predicate EndsTimedOut(w': World, code: int) {
    var r := w'.s.result;
    w'.s.completed && r.timedOut && r.error == WallTimeoutHit && r.statusCode == code && r.errCode == 110
  }

  /** Only the Close is left to be answered. */
  ghost predicate AwaitsClose(w': World) {
    !w'.s.completed && w'.s.closeRequested && w'.wire.owed == [Close]
  }

  /** What an answer does after the wall timeout. The answer of the Close ends the session as timed
      out. An error of another op ends it with that op's failure, an offset beyond the file with
      that. Otherwise the session waits for the Close on its way, or submits Close again and, if that
      is refused, ends as timed out. */
  ghost predicate WindsDown(o: Options, w: World, e: Event, w': World)
    requires IsAnswer(e)
  {
    && w'.s.timedOut
    && if e.Closed? then EndsTimedOut(w', e.st.code) && w'.wire.submitted == w.wire.submitted
       else if !e.st.ok then EndsBy(w, w', FailureOf(o, e), e.st.code, e.st.errNo)
       else if Beyond(o, e) then EndsBy(w, w', BeyondFile, 0, 0)
       else if w.s.closeRequested then AwaitsClose(w') && w'.wire.submitted == w.wire.submitted
       else
         && w'.wire.submitted == w.wire.submitted + [Close]
         && if e.sub.ok then AwaitsClose(w') else EndsTimedOut(w', e.sub.code)
  }

  /** IssueNext after the wall timeout: nothing if a Close is on its way, else submit Close. */
  lemma IssueNextCutShort(o: Options, w: World, sub: Status, draws: seq<nat>)
    requires InHandler(w) && w.s.timedOut && w.s.result == EMPTY_RESULT
    ensures var w' := ReleaseIfIdle(IssueNext(o, w, sub, draws));
            && w'.s.timedOut
            && if w.s.closeRequested then AwaitsClose(w') && w'.wire.submitted == w.wire.submitted
               else
                 && w'.wire.submitted == w.wire.submitted + [Close]
                 && if sub.ok then AwaitsClose(w') else EndsTimedOut(w', sub.code)
  {
  }

  /** A world in which a handler has just taken in its answer, after the wall timeout. */
  lemma ReceiveTimedOut(o: Options, w: World, op: Op)
    requires Inv(o, w) && !w.s.completed && w.s.timedOut && op in w.wire.owed && op != Close
    ensures var w1 := Receive(w, op);
            && InHandler(w1) && w1.s.timedOut && w1.s.result == EMPTY_RESULT
            && w1.s.closeRequested == w.s.closeRequested && w1.wire.submitted == w.wire.submitted
  {
    ReceiveInHandler(w, op);
  }

  lemma OpenedWindsDown(o: Options, w: World, st: Status, server: string, sub: Status)
    requires Inv(o, w) && !w.s.completed && w.s.timedOut && Open in w.wire.owed
    ensures WindsDown(o, w, Opened(st, server, sub), OnOpen(o, w, st, server, sub))
  {
    hide Inv;
    ReceiveTimedOut(o, w, Open);
  }

  lemma StattedWindsDown(o: Options, w: World, st: Status, size: Option<nat>, sub: Status, draws: seq<nat>)
    requires Inv(o, w) && !w.s.completed && w.s.timedOut && Stat in w.wire.owed
    ensures WindsDown(o, w, Statted(st, size, sub, draws), OnStat(o, w, st, size, sub, draws))
  {
    hide Inv, IssueNext;
    ReceiveTimedOut(o, w, Stat);
    IssueNextCutShort(o, Ready(o, Receive(w, Stat), SizeOf(size)), sub, draws);
  }

  lemma ReadDoneWindsDown(o: Options, w: World, st: Status, got: Option<nat>, sub: Status, draws: seq<nat>)
    requires Inv(o, w) && !w.s.completed && w.s.timedOut && Read in w.wire.owed
    ensures WindsDown(o, w, ReadDone(st, got, sub, draws), OnRead(o, w, st, got, sub, draws))
  {
    hide Inv, IssueNext;
    var w1 := Receive(w, Read);
    ReceiveTimedOut(o, w, Read);
    IssueNextCutShort(o, Taken(o, w1, Got(o, w1.s, got)), sub, draws);
  }

  lemma ClosedWindsDown(o: Options, w: World, st: Status)
    requires Inv(o, w) && !w.s.completed && w.s.timedOut && Close in w.wire.owed
    ensures WindsDown(o, w, Closed(st), OnClose(w, st))
  {
  }

  lemma AnswerWindsDown(o: Options, w: World, e: Event)
    requires Inv(o, w) && !w.s.completed && w.s.timedOut && Enabled(w, e) && IsAnswer(e)
    ensures WindsDown(o, w, e, Step(o, w, e))
  {
    hide Inv, WindsDown, OnOpen, OnStat, OnRead, OnClose;
    match e
    case Opened(st, server, sub) => OpenedWindsDown(o, w, st, server, sub);
    case Statted(st, size, sub, draws) => StattedWindsDown(o, w, st, size, sub, draws);
    case ReadDone(st, got, sub, draws) => ReadDoneWindsDown(o, w, st, got, sub, draws);
    case Closed(st) => ClosedWindsDown(o, w, st);
  }

  /** From w to w', at most one request was made, and that a Close. */
  ghost predicate OnlyClose(w: World, w': World) {
    w'.wire.submitted == w.wire.submitted || w'.wire.submitted == w.wire.submitted + [Close]
  }

  lemma RestWindsDown(o: Options, w: World, st: Status, sub: Status)
    requires Inv(o, w) && Closing(w) && !w.s.completed
    ensures Closing(RequestWallTimeout(w, sub))
    ensures OnlyClose(w, RequestWallTimeout(w, sub))
    ensures Close in w.wire.owed ==> Closing(OnClose(w, st)) && OnClose(w, st).wire.submitted == w.wire.submitted
  {
  }

  lemma ClosingAnswer(o: Options, w: World, e: Event, w': World)
    requires Inv(o, w) && w.s.timedOut && !w.s.completed && Enabled(w, e) && IsAnswer(e) && !e.Closed?
    requires w' == Step(o, w, e)
    ensures Closing(w') && OnlyClose(w, w')
  {
    AnswerWindsDown(o, w, e);
  }

  lemma LastIsClose(accepted: seq<Op>)
    requires InOrder(accepted)
    ensures Close in accepted ==> accepted[|accepted| - 1] == Close
  {
    if Close in accepted {
      var i :| 0 <= i < |accepted| && accepted[i] == Close;
      assert Placed(accepted[i], i, |accepted|);
    }
  }

  /** In a session that is not completed, an accepted Close without the wall timeout is the only
      thing owed. */
  lemma ClosingIsTimedOut(o: Options, w: World, op: Op)
    requires Inv(o, w) && Closing(w) && !w.s.completed && op in w.wire.owed && op != Close
    ensures w.s.timedOut
  {
    LastIsClose(w.wire.accepted);
  }

  lemma ClosingStep(o: Options, w: World, e: Event)
    requires Inv(o, w) && Closing(w)
    ensures Closing(Step(o, w, e)) && OnlyClose(w, Step(o, w, e))
  {
    if w.s.completed {
      LateStep(o, w, e);
    } else if Enabled(w, e) {
      match e
      case Closed(st) => RestWindsDown(o, w, st, st);
      case WallTimeout(sub) => RestWindsDown(o, w, sub, sub);
      case Opened(_, _, _) =>
        ClosingIsTimedOut(o, w, Open);
        ClosingAnswer(o, w, e, Step(o, w, e));
      case Statted(_, _, _, _) =>
        ClosingIsTimedOut(o, w, Stat);
        ClosingAnswer(o, w, e, Step(o, w, e));
      case ReadDone(_, _, _, _) =>
        ClosingIsTimedOut(o, w, Read);
        ClosingAnswer(o, w, e, Step(o, w, e));
    }
  }

  /** Once the wall timeout is set or a Close is accepted, the only request ever made is Close. */
  lemma {:induction false} OnlyCloseAfterClosing(o: Options, w: World, more: seq<Event>)
    requires Inv(o, w) && Closing(w)
    ensures var w' := Play(o, w, more);
            && Closing(w')
            && |w.wire.submitted| <= |w'.wire.submitted|
            && w'.wire.submitted[..|w.wire.submitted|] == w.wire.submitted
            && forall i :: |w.wire.submitted| <= i < |w'.wire.submitted| ==> w'.wire.submitted[i] == Close
  {
    if more != [] {
      var before := Play(o, w, more[..|more| - 1]);
      OnlyCloseAfterClosing(o, w, more[..|more| - 1]);
      InvKept(o, w, more[..|more| - 1]);
      ClosingStep(o, before, more[|more| - 1]);
    }
  }

  /** At most one Close is ever accepted, and nothing is accepted after it. */
  lemma OneClose(o: Options, sub: Status, events: seq<Event>)
    ensures var accepted := Play(o, Start(sub), events).wire.accepted;
            forall i :: 0 <= i < |accepted| && accepted[i] == Close ==> i == |accepted| - 1
  {
    Invariant(o, sub, events);
    var accepted := Play(o, Start(sub), events).wire.accepted;
    forall i | 0 <= i < |accepted| && accepted[i] == Close ensures i == |accepted| - 1 {
      assert Placed(accepted[i], i, |accepted|);
    }
  }

  /** The watchdog's request never completes a session. It does nothing once the session is completed
      or a Close is on its way; else it sets the timeout mark and submits Close, which joins the
      callbacks owed if it is accepted, and leaves no other trace if it is refused. */
  lemma TimeoutNeverCompletes(o: Options, start: Status, events: seq<Event>, sub: Status)
    ensures var w := Play(o, Start(start), events);
            var w' := RequestWallTimeout(w, sub);
            && w'.s.completed == w.s.completed && w'.s.calls == w.s.calls && w'.s.result == w.s.result
            && (w.s.completed || w.s.closeRequested ==> w' == w)
            && (!w.s.completed && !w.s.closeRequested ==>
                  && w.s.pending > 0 && w'.s.timedOut && w'.wire.submitted == w.wire.submitted + [Close]
                  && (sub.ok ==> w'.s.closeRequested && w'.wire.owed == w.wire.owed + [Close])
                  && (!sub.ok ==>
                        w'.s == w.s.(timedOut := true) && w'.wire == w.wire.(submitted := w'.wire.submitted)))
  {
    Invariant(o, start, events);
  }

  /** What every answer does to a session that has been asked to time out. */
  lemma TimedOutSessionWindsDown(o: Options, sub: Status, events: seq<Event>, e: Event)
    requires IsAnswer(e) && Enabled(Play(o, Start(sub), events), e)
    requires !Play(o, Start(sub), events).s.completed && Play(o, Start(sub), events).s.timedOut
    ensures var w := Play(o, Start(sub), events); WindsDown(o, w, e, Step(o, w, e))
  {
    hide WindsDown, Step;
    Invariant(o, sub, events);
    AnswerWindsDown(o, Play(o, Start(sub), events), e);
  }

  /** After a refused Close of the watchdog, the handler of the op in flight ends the session or
      retries: an error ends it with the op's own failure; otherwise Close is submitted again, and
      unless that is accepted the session completes as timed out. (A Stat answer that puts the offset
      beyond the end of the file completes without a Close.) */
  lemma RefusedCloseIsRetried(o: Options, sub: Status, events: seq<Event>, e: Event)
    requires IsAnswer(e) && Enabled(Play(o, Start(sub), events), e)
    requires !Play(o, Start(sub), events).s.completed
    requires Play(o, Start(sub), events).s.timedOut && !Play(o, Start(sub), events).s.closeRequested
    ensures var w := Play(o, Start(sub), events);
            var w' := Step(o, w, e);
            && !e.Closed?
            && (!e.st.ok ==> EndsBy(w, w', FailureOf(o, e), e.st.code, e.st.errNo))
            && (e.st.ok && Beyond(o, e) ==> EndsBy(w, w', BeyondFile, 0, 0))
            && (e.st.ok && !Beyond(o, e) ==>
                  && w'.wire.submitted == w.wire.submitted + [Close]
                  && if e.sub.ok then AwaitsClose(w') else EndsTimedOut(w', e.sub.code))
  {
    hide Step;
    Invariant(o, sub, events);
    var w := Play(o, Start(sub), events);
    assert |w.wire.owed| == 1 && Close !in w.wire.owed;
    AnswerWindsDown(o, w, e);
  }

  /** A session that has been asked to time out reports a timeout exactly when it is the Close's
      answer that ends it, or an answer without error that does not put the offset beyond the file;
      an error of any other op is what it reports. */
  lemma ReportsTimeoutExactly(o: Options, sub: Status, events: seq<Event>, e: Event)
    requires IsAnswer(e) && Enabled(Play(o, Start(sub), events), e)
    requires !Play(o, Start(sub), events).s.completed && Play(o, Start(sub), events).s.timedOut
    requires Step(o, Play(o, Start(sub), events), e).s.completed
    ensures var r := Step(o, Play(o, Start(sub), events), e).s.result;
            && (r.timedOut <==> e.Closed? || (e.st.ok && !Beyond(o, e)))
            && (!e.Closed? && !e.st.ok ==> r.error == FailureOf(o, e))
            && (!e.Closed? && e.st.ok && Beyond(o, e) ==> r.error == BeyondFile)
  {
    hide Step;
    TimedOutSessionWindsDown(o, sub, events, e);
  }

  /** Such a run: Open is answered, the watchdog asks for the timeout, and then Stat fails. */
  function FailsWhileTimingOut(close: Status, bad: Status): seq<Event> {
    [] + [Opened(FINE, "", FINE)] + [WallTimeout(close)] + [Statted(bad, None, FINE, [])]
  }

  /** The session has been asked to time out, and reports the failure of Stat: whether or not the
      library had accepted the watchdog's Close. */
  lemma FailureHidesTimeout(o: Options, close: Status, bad: Status)
    requires !bad.ok
    ensures var w := Play(o, Start(FINE), FailsWhileTimingOut(close, bad));
            w.s.completed && w.s.timedOut && w.s.result.error == Failed(Stat, false, bad.text) && !w.s.result.timedOut
  {
    var e1, e2, e3 := Opened(FINE, "", FINE), WallTimeout(close), Statted(bad, None, FINE, []);
    PlayOne(o, Start(FINE), [], e1);
    PlayOne(o, Start(FINE), [] + [e1], e2);
    PlayOne(o, Start(FINE), [] + [e1] + [e2], e3);
    var w1 := Step(o, Start(FINE), e1);
    FineOpening(o, w1);
    var w2 := Step(o, w1, e2);
    TimeoutDuringStat(o, w1, w2, close);
    assert w2 == Play(o, Start(FINE), [] + [e1] + [e2]);
    TimedOutSessionWindsDown(o, FINE, [] + [e1] + [e2], e3);
  }

  lemma TimeoutDuringStat(o: Options, w1: World, w2: World, close: Status)
    requires w1.wire.owed == [Stat] && w1.s.pending == 1 && !w1.s.completed && !w1.s.closeRequested
    requires w2 == Step(o, w1, WallTimeout(close))
    ensures !w2.s.completed && w2.s.timedOut && Stat in w2.wire.owed
  {
  }

  // ---- bytes -------------------------------------------------------------------------------

  /** The j-th read of a session asks for this piece of its budget: op bytes, or what is left. */
  ghost predicate TilesFile(o: Options, op: nat, fileSize: int, budget: int, j: nat, chunks: seq<Chunk>) {
    var from, to := op * j, Min(op * (j + 1), budget);
    && from < budget <= fileSize
    && |chunks| <= Max(1, o.vectorChunks)
    && Packed(chunks, 0, to - from)
    && InBounds(o, fileSize, chunks)
    && (!o.randomOffset ==> Aligned(chunks, o.offset + from) && o.offset + to <= fileSize)
  }

  lemma GoodReadTiles(o: Options, op: nat, fileSize: nat, budget: int, j: nat, chunks: seq<Chunk>)
    requires op == OpSize(o) && budget == Budget(o, fileSize) && Full(op, j) < budget
    requires GoodRead(o, fileSize, o.offset + Full(op, j), Min(op, budget - Full(op, j)), chunks)
    ensures TilesFile(o, op, fileSize, budget, j, chunks)
  {
    BudgetFits(o, fileSize);
    FullIsProduct(op, j);
    assert op * (j + 1) == op * j + op;
  }

  /** The j-th accepted read operation of a sequential session reads exactly the file range
      [offset + j * op, offset + min((j + 1) * op, budget)) into the front of the buffer. In
      either mode it stays in the file, and it uses no more chunks than allowed. */
  lemma ReadsTileTheFile(o: Options, sub: Status, events: seq<Event>, j: nat)
    requires j < |Play(o, Start(sub), events).wire.plans|
    ensures var w := Play(o, Start(sub), events);
            TilesFile(o, OpSize(o), w.s.fileSize, w.budget, j, w.wire.plans[j])
  {
    Invariant(o, sub, events);
    var w := Play(o, Start(sub), events);
    assert Tile(o, w.s.fileSize, w.budget, j, w.wire.plans[j]);
    GoodReadTiles(o, OpSize(o), w.s.fileSize, w.budget, j, w.wire.plans[j]);
  }

  /** The session's byte counter is the sum of what was delivered; it stays within the file (from
      the offset on) and within max_bytes. A session that is ok and got no short answer has read the
      file from the offset on, or in random mode as many bytes as the file has, up to max_bytes. */
  lemma BytesAddUp(o: Options, sub: Status, events: seq<Event>)
    ensures var w := Play(o, Start(sub), events);
            && w.s.bytesRead == SumGot(w.deliveries) && w.s.ops == |w.deliveries|
            && 0 <= w.s.bytesRead <= w.s.fileSize
            && (o.maxBytes > 0 ==> w.s.bytesRead <= o.maxBytes)
            && (!o.randomOffset && 0 < w.s.bytesRead ==> o.offset + w.s.bytesRead <= w.s.fileSize)
            && (w.s.completed && w.s.result.ok && AllFull(w.deliveries) ==>
                  var there := if o.randomOffset then w.s.fileSize else Max(0, w.s.fileSize - o.offset);
                  w.s.bytesRead == if o.maxBytes > 0 then Min(there, o.maxBytes) else there)
  {
    hide Play, Start, Budget, Protocol, Tiled, Delivered;
    Invariant(o, sub, events);
    var w := Play(o, Start(sub), events);
    assert Ledger(o, w);
    BudgetFits(o, w.s.fileSize);
    BudgetInPlainWords(o, w.s.fileSize);
    DeliveredNonNegative(o, w);
  }

  lemma DeliveredNonNegative(o: Options, w: World)
    requires Ledger(o, w)
    ensures SumGot(w.deliveries) >= 0
  {
    SumNonNegative(o, w.budget, w.deliveries);
  }

  lemma {:induction false} SumNonNegative(o: Options, budget: int, ds: seq<Delivery>)
    requires forall j :: 0 <= j < |ds| ==> 0 <= ds[j].got
    ensures 0 <= SumGot(ds)
  {
    if ds != [] {
      SumNonNegative(o, budget, ds[..|ds| - 1]);
    }
  }

  /** The budget in plain words: what is there from the offset on, or in random mode the size of the
      file, up to max_bytes. */
  lemma BudgetInPlainWords(o: Options, fileSize: nat)
    ensures var there := if o.randomOffset then fileSize else Max(0, fileSize - o.offset);
            Budget(o, fileSize) == if o.maxBytes > 0 then Min(there, o.maxBytes) else there
  {
  }

  // ---- what an answer does when nothing is amiss --------------------------------------------

  /** The session makes this one request; if it is refused, the session ends with that. */
  ghost predicate Asks(w: World, w': World, op: Op, sub: Status) {
    && w'.wire.submitted == w.wire.submitted + [op]
    && if sub.ok then !w'.s.completed && w'.wire.owed == [op]
       else
         var r := w'.s.result;
         && w'.s.completed && !r.ok && !r.timedOut
         && r.error == Refused(op, sub.text) && r.statusCode == sub.code && r.errCode == sub.errNo
  }

  /** The bytes a read answer brings: a missing response object stands for all that was asked for in a
      VectorRead, and for nothing in a Read. */
  function Brought(o: Options, w: World, got: Option<nat>): int {
    match got
    case Some(n) => n
    case None => if o.vectorChunks > 0 then w.s.requested else 0
  }

  /** What an answer does in a session that has not been asked to time out: an error ends it with that
      op's failure. Otherwise Open is followed by Stat; Stat by a read if there is something to read,
      by Close if not, and by nothing if the offset is beyond the file; a read by the next one, or by
      Close if it was short or the last; and Close ends the session ok. */
  ghost predicate GoesOn(o: Options, w: World, e: Event, w': World)
    requires IsAnswer(e)
  {
    if !e.st.ok then EndsBy(w, w', FailureOf(o, e), e.st.code, e.st.errNo)
    else
      match e
      case Opened(_, _, sub) => Asks(w, w', Stat, sub)
      case Statted(_, size, sub, _) =>
        if Beyond(o, e) then EndsBy(w, w', BeyondFile, 0, 0)
        else Asks(w, w', if size.Some? && size.value > 0 then Read else Close, sub)
      case ReadDone(_, got, sub, _) =>
        var n := Brought(o, w, got);
        Asks(w, w', if n < w.s.requested || n == w.s.remaining then Close else Read, sub)
      case Closed(_) =>
        w'.s.completed && w'.s.result.ok && w'.s.result.error == Nothing && w'.wire.submitted == w.wire.submitted
  }

  /** A session that is in a handler, with no Close on its way. */
  ghost predicate Clear(w: World) {
    InHandler(w) && !w.s.timedOut && w.s.result == EMPTY_RESULT && !w.s.closeRequested
  }

  lemma ReceiveClear(o: Options, w: World, op: Op)
    requires Inv(o, w) && !w.s.completed && !w.s.timedOut && op in w.wire.owed && op != Close
    ensures Clear(Receive(w, op)) && Receive(w, op).wire.submitted == w.wire.submitted
    ensures op == Read ==> Reading(o, w)
  {
    ReceiveInHandler(w, op);
    ReadsComeLater(w);
  }

  lemma IssueNextAsks(o: Options, w: World, sub: Status, draws: seq<nat>)
    requires Clear(w)
    ensures Asks(w, ReleaseIfIdle(IssueNext(o, w, sub, draws)), if w.s.remaining == 0 then Close else Read, sub)
  {
    hide NextChunks;
  }

  lemma OpenedGoesOn(o: Options, w: World, st: Status, server: string, sub: Status)
    requires Inv(o, w) && !w.s.completed && !w.s.timedOut && Open in w.wire.owed
    ensures GoesOn(o, w, Opened(st, server, sub), OnOpen(o, w, st, server, sub))
  {
    hide Inv;
    ReceiveClear(o, w, Open);
  }

  lemma StattedGoesOn(o: Options, w: World, st: Status, size: Option<nat>, sub: Status, draws: seq<nat>)
    requires Inv(o, w) && !w.s.completed && !w.s.timedOut && Stat in w.wire.owed
    ensures GoesOn(o, w, Statted(st, size, sub, draws), OnStat(o, w, st, size, sub, draws))
  {
    hide Inv, IssueNext;
    ReceiveClear(o, w, Stat);
    var ready := Ready(o, Receive(w, Stat), SizeOf(size));
    BudgetInPlainWords(o, SizeOf(size));
    IssueNextAsks(o, ready, sub, draws);
  }

  lemma ReadDoneGoesOn(o: Options, w: World, st: Status, got: Option<nat>, sub: Status, draws: seq<nat>)
    requires Inv(o, w) && !w.s.completed && !w.s.timedOut && Read in w.wire.owed
    requires got.Some? ==> got.value <= w.s.requested
    ensures GoesOn(o, w, ReadDone(st, got, sub, draws), OnRead(o, w, st, got, sub, draws))
  {
    hide Inv, IssueNext;
    var w1 := Receive(w, Read);
    ReceiveClear(o, w, Read);
    IssueNextAsks(o, Taken(o, w1, Got(o, w1.s, got)), sub, draws);
  }

  lemma ClosedGoesOn(o: Options, w: World, st: Status)
    requires Inv(o, w) && !w.s.completed && !w.s.timedOut && Close in w.wire.owed
    ensures GoesOn(o, w, Closed(st), OnClose(w, st))
  {
  }

  /** Every answer, in every reachable session that is neither over nor asked to time out. */
  lemma SessionGoesOn(o: Options, sub: Status, events: seq<Event>, e: Event)
    requires IsAnswer(e) && Enabled(Play(o, Start(sub), events), e)
    requires !Play(o, Start(sub), events).s.completed && !Play(o, Start(sub), events).s.timedOut
    ensures var w := Play(o, Start(sub), events); GoesOn(o, w, e, Step(o, w, e))
  {
    hide GoesOn, Inv, OnOpen, OnStat, OnRead, OnClose;
    Invariant(o, sub, events);
    var w := Play(o, Start(sub), events);
    match e
    case Opened(st, server, s) => OpenedGoesOn(o, w, st, server, s);
    case Statted(st, size, s, draws) => StattedGoesOn(o, w, st, size, s, draws);
    case ReadDone(st, got, s, draws) => ReadDoneGoesOn(o, w, st, got, s, draws);
    case Closed(st) => ClosedGoesOn(o, w, st);
  }

  /** Start submits Open and holds the self reference; a refusal ends the session at once. */
  lemma StartAsksForOpen(sub: Status)
    ensures var w := Start(sub);
            && w.wire.submitted == [Open]
            && if sub.ok then w.wire.owed == [Open] && !w.s.completed && w.s.selfKeep && w.s.calls == []
               else
                 && w.wire.owed == [] && w.s.completed && !w.s.selfKeep && w.s.calls == [w.s.result]
                 && w.s.result.error == Refused(Open, sub.text)
                 && w.s.result.statusCode == sub.code && w.s.result.errCode == sub.errNo
  {
  }

  /** What a session knows is what it was told: the data server when Open was answered, the size of the
      file when Stat was, and one operation and its bytes for each read that was. */
  ghost predicate Learns(o: Options, w: World, e: Event, w': World) {
    var told := IsAnswer(e) && Enabled(w, e) && !w.s.completed && e.st.ok;
    && w'.s.dataServer == (if told && e.Opened? then e.server else w.s.dataServer)
    && w'.s.fileSize == (if told && e.Statted? then (if e.size.Some? then e.size.value else 0) else w.s.fileSize)
    && w'.s.ops == w.s.ops + (if told && e.ReadDone? then 1 else 0)
    && w'.s.bytesRead == w.s.bytesRead + if told && e.ReadDone? then Brought(o, w, e.got) else 0
  }

  /** What the session knows is the same. */
  ghost predicate KnowsSame(w: World, w': World) {
    && w'.s.dataServer == w.s.dataServer && w'.s.fileSize == w.s.fileSize
    && w'.s.ops == w.s.ops && w'.s.bytesRead == w.s.bytesRead
  }

  lemma SubmissionsKnowSame(w: World, op: Op, sub: Status, r: Result)
    ensures KnowsSame(w, Submit(w, op, sub)) && KnowsSame(w, Complete(w, r)) && KnowsSame(w, ReleaseIfIdle(w))
    ensures KnowsSame(w, SubmitClose(w, sub)) && KnowsSame(w, SendStat(w, sub))
  {
  }

  lemma ReadsKnowSame(w: World, sub: Status, chunks: seq<Chunk>, plain: bool)
    requires plain ==> chunks != []
    ensures KnowsSame(w, SendRead(w, sub, chunks, plain))
  {
  }

  lemma IssueNextKnowsSame(o: Options, w: World, sub: Status, draws: seq<nat>)
    ensures KnowsSame(w, IssueNext(o, w, sub, draws))
  {
    hide NextChunks, SubmitClose, SendRead;
    var w1 := if w.s.timedOut then w.(s := w.s.(remaining := 0)) else w;
    SubmissionsKnowSame(w1, Close, sub, w.s.result);
    if !w.s.completed && w1.s.remaining != 0 {
      NextChunksNotEmpty(o, w1.s, draws);
      ReadsKnowSame(w1, sub, NextChunks(o, w1.s, draws), o.vectorChunks == 0);
    }
  }

  lemma NextChunksNotEmpty(o: Options, s: Session, draws: seq<nat>)
    ensures o.vectorChunks == 0 ==> NextChunks(o, s, draws) != []
  {
  }

  lemma OpenLearns(o: Options, w: World, st: Status, server: string, sub: Status)
    requires Open in w.wire.owed
    ensures Learns(o, w, Opened(st, server, sub), OnOpen(o, w, st, server, sub))
  {
    hide SubmitClose, SendStat;
    var w1 := Receive(w, Open);
    SubmissionsKnowSame(w1.(s := w1.s.(dataServer := server)), Stat, sub, w.s.result);
  }

  lemma StatLearns(o: Options, w: World, st: Status, size: Option<nat>, sub: Status, draws: seq<nat>)
    requires Stat in w.wire.owed
    ensures Learns(o, w, Statted(st, size, sub, draws), OnStat(o, w, st, size, sub, draws))
  {
    hide IssueNext;
    IssueNextKnowsSame(o, Ready(o, Receive(w, Stat), SizeOf(size)), sub, draws);
  }

  lemma ReadLearns(o: Options, w: World, st: Status, got: Option<nat>, sub: Status, draws: seq<nat>)
    requires Read in w.wire.owed && (got.Some? ==> got.value <= w.s.requested)
    ensures Learns(o, w, ReadDone(st, got, sub, draws), OnRead(o, w, st, got, sub, draws))
  {
    hide IssueNext;
    var w1 := Receive(w, Read);
    IssueNextKnowsSame(o, Taken(o, w1, Got(o, w1.s, got)), sub, draws);
  }

  lemma RestLearns(o: Options, w: World, st: Status, sub: Status)
    ensures Close in w.wire.owed ==> Learns(o, w, Closed(st), OnClose(w, st))
    ensures Learns(o, w, WallTimeout(sub), RequestWallTimeout(w, sub))
  {
    hide SubmitClose;
    var marked := w.(s := w.s.(timedOut := true));
    SubmissionsKnowSame(marked, Close, sub, w.s.result);
  }

  lemma SessionLearns(o: Options, w: World, e: Event)
    ensures Learns(o, w, e, Step(o, w, e))
  {
    hide OnOpen, OnStat, OnRead, OnClose, RequestWallTimeout;
    if Enabled(w, e) {
      hide Learns;
      match e
      case Opened(st, server, sub) => OpenLearns(o, w, st, server, sub);
      case Statted(st, size, sub, draws) => StatLearns(o, w, st, size, sub, draws);
      case ReadDone(st, got, sub, draws) => ReadLearns(o, w, st, got, sub, draws);
      case Closed(st) => RestLearns(o, w, st, st);
      case WallTimeout(sub) => RestLearns(o, w, sub, sub);
    }
  }

  // ---- the receive buffer ------------------------------------------------------------------

  /** Every read request of every run fits the receive buffer, which is sized in 32 bits. */
  ghost predicate BufferSuffices(o: Options) {
    forall sub: Status, events: seq<Event>, j: nat ::
      j < |Play(o, Start(sub), events).wire.plans| ==>
        TotalLen(Play(o, Start(sub), events).wire.plans[j]) <= OpBytes(o)
  }

  /** A request asks for no more than an operation's bytes, and for no more than max_bytes. */
  lemma RequestBounds(o: Options, sub: Status, events: seq<Event>, j: nat)
    requires j < |Play(o, Start(sub), events).wire.plans|
    ensures var asked := TotalLen(Play(o, Start(sub), events).wire.plans[j]);
            asked <= OpSize(o) && (o.maxBytes > 0 ==> asked <= o.maxBytes)
  {
    hide Play, Start, Budget;
    Invariant(o, sub, events);
    var w := Play(o, Start(sub), events);
    BudgetFits(o, w.s.fileSize);
    assert Tile(o, w.s.fileSize, w.budget, j, w.wire.plans[j]);
  }

  /** After the Stat answer of a large file, the first read asks for all it can. */
  lemma FirstRequest(o: Options, w1: World, w: World, fileSize: nat)
    requires w1.wire.owed == [Stat] && !w1.s.completed && !w1.s.timedOut && !w1.s.closeRequested
    requires w1.wire.plans == [] && Budget(o, fileSize) > 0
    requires w == Step(o, w1, Statted(FINE, Some(fileSize), FINE, []))
    ensures |w.wire.plans| == 1 && TotalLen(w.wire.plans[0]) == Min(OpSize(o), Budget(o, fileSize))
  {
    BudgetFits(o, fileSize);
    var ready := Ready(o, Receive(w1, Stat), fileSize);
    NextChunksGood(o, ready.s, []);
    hide NextChunks, GoodRead, Budget, OpSize;
    assert w.wire.plans == [NextChunks(o, ready.s, [])];
  }

  /** The run that asks for more than the buffer holds: the file is one byte too long. */
  lemma BufferOverrun(o: Options)
    requires OpSize(o) >= 0x1_0000_0000 && !(0 < o.maxBytes <= OpBytes(o))
    ensures !BufferSuffices(o)
  {
    var fileSize := o.offset + OpBytes(o) + 1;
    var e1, e2 := Opened(FINE, "", FINE), Statted(FINE, Some(fileSize), FINE, []);
    var w1 := Step(o, Start(FINE), e1);
    FineOpening(o, w1);
    FirstRequest(o, w1, Step(o, w1, e2), fileSize);
    PlayOne(o, Start(FINE), [], e1);
    PlayOne(o, Start(FINE), [] + [e1], e2);
    var w := Play(o, Start(FINE), [] + [e1] + [e2]);
    assert TotalLen(w.wire.plans[0]) > OpBytes(o);
  }

  /** The receive buffer holds every read request of every run exactly when an operation's bytes
      fit in 32 bits, or max_bytes keeps every request within the wrapped size. */
  lemma BufferSufficesExactly(o: Options)
    ensures BufferSuffices(o) <==> OpSize(o) < 0x1_0000_0000 || 0 < o.maxBytes <= OpBytes(o)
  {
    hide OpSize;
    if OpSize(o) < 0x1_0000_0000 || 0 < o.maxBytes <= OpBytes(o) {
      forall sub: Status, events: seq<Event>, j: nat | j < |Play(o, Start(sub), events).wire.plans|
        ensures TotalLen(Play(o, Start(sub), events).wire.plans[j]) <= OpBytes(o)
      {
        RequestBounds(o, sub, events, j);
      }
    } else {
      BufferOverrun(o);
    }
  }

  // ---- results -----------------------------------------------------------------------------

  lemma MessageEmpty(f: Failure)
    ensures Message(f) == "" <==> f == Nothing
  {
  }

  /** The message of an op's failure names the op first and ends with the library's own text. */
  lemma MessageNamesOp(op: Op, vector: bool, text: string)
    ensures var m := Message(Refused(op, text)); |m| > |text| && m[|m| - |text|..] == text && m[0] == Initial(op, false)
    ensures var m := Message(Failed(op, vector, text));
            |m| > |text| && m[|m| - |text|..] == text && m[0] == Initial(op, vector)
  {
  }

  function Initial(op: Op, vector: bool): char {
    match op
    case Open => 'o'
    case Stat => 's'
    case Read => if vector then 'v' else 'r'
    case Close => 'c'
  }

  /** The result on_done is called with is ok with an empty error text, or not ok with a text;
      it is ok only if no wall timeout was requested; its byte count is what was delivered. */
  lemma ResultConsistent(o: Options, sub: Status, events: seq<Event>)
    requires Play(o, Start(sub), events).s.completed
    ensures var w := Play(o, Start(sub), events);
            var r := w.s.result;
            && w.s.calls == [r]
            && (r.ok <==> Message(r.error) == "")
            && (r.ok ==> !w.s.timedOut)
            && (r.timedOut <==> r.error == WallTimeoutHit)
            && (r.timedOut ==> w.s.timedOut && r.errCode == ETIMEDOUT)
            && r.bytesRead == SumGot(w.deliveries) && r.ops == |w.deliveries|
            && if StatRefused(r.error) then r.dataServer == "" && r.fileSize == 0
               else r.dataServer == w.s.dataServer && r.fileSize == w.s.fileSize
  {
    Invariant(o, sub, events);
    MessageEmpty(Play(o, Start(sub), events).s.result.error);
  }
}
