/** What every locked region of a session keeps: three invariants over a world, each preserved by
    every event, hence true of every interleaving of library answers and watchdog timeouts. */
module SessionInvariants {
  import opened Basics
  import opened SessionModel
  import opened SessionReads

  // ---- which callbacks are outstanding -----------------------------------------------------

  /** Open first, Stat second, then reads; a Close only at the very end. */
  ghost predicate Placed(op: Op, i: nat, n: nat) {
    match op
    case Open => i == 0
    case Stat => i == 1
    case Read => i >= 2
    case Close => 0 < i == n - 1
  }

  ghost predicate InOrder(accepted: seq<Op>) {
    forall i :: 0 <= i < |accepted| ==> Placed(accepted[i], i, |accepted|)
  }

  ghost predicate Protocol(w: World) {
    var s, wire := w.s, w.wire;
    && s.pending == |wire.owed|
    && wire.answered + |wire.owed| == |wire.accepted|
    && InOrder(wire.accepted)
    && (s.selfKeep <==> !(s.completed && s.pending == 0))
    && if s.completed then |wire.owed| <= 1
       else
         && (Close in wire.accepted <==> s.closeRequested)
         && wire.owed == wire.accepted[|wire.accepted| - |wire.owed|..]
         && (|wire.owed| == 1 || (|wire.owed| == 2 && s.timedOut && s.closeRequested))
  }

  lemma ProtocolStart(sub: Status)
    ensures Protocol(Start(sub))
  {
  }

  /** The session is inside a handler: nothing is in flight, save a Close that the watchdog got
      accepted meanwhile. */
  ghost predicate InHandler(w: World) {
    && !w.s.completed && w.s.selfKeep
    && w.s.pending == |w.wire.owed| && w.wire.answered + |w.wire.owed| == |w.wire.accepted|
    && InOrder(w.wire.accepted) && |w.wire.accepted| >= 1
    && (Close in w.wire.accepted <==> w.s.closeRequested)
    && (w.s.closeRequested ==> w.s.timedOut && w.wire.accepted[|w.wire.accepted| - 1] == Close)
    && w.wire.owed == if w.s.closeRequested then [Close] else []
  }

  lemma ProtocolSubmitClose(w: World, sub: Status)
    requires InHandler(w)
    ensures Protocol(ReleaseIfIdle(SubmitClose(w, sub)))
  {
  }

  lemma ProtocolSendRead(w: World, sub: Status, chunks: seq<Chunk>, plain: bool)
    requires InHandler(w) && !w.s.timedOut && |w.wire.accepted| >= 2
    requires plain ==> chunks != []
    ensures Protocol(ReleaseIfIdle(SendRead(w, sub, chunks, plain)))
  {
  }

  lemma ProtocolIssueNext(o: Options, w: World, sub: Status, draws: seq<nat>)
    requires InHandler(w) && |w.wire.accepted| >= 2
    ensures Protocol(ReleaseIfIdle(IssueNext(o, w, sub, draws)))
  {
    var w1 := if w.s.timedOut then w.(s := w.s.(remaining := 0)) else w;
    if w1.s.remaining == 0 {
      ProtocolSubmitClose(w1, sub);
    } else {
      ProtocolSendRead(w1, sub, NextChunks(o, w1.s, draws), o.vectorChunks == 0);
    }
  }

  /** Taking in the answer of an op leaves at most the watchdog's Close in flight. */
  lemma ReceiveInHandler(w: World, op: Op)
    requires Protocol(w) && !w.s.completed && op in w.wire.owed && op != Close
    ensures InHandler(Receive(w, op)) && !Receive(w, op).s.completed
    ensures op != Open ==> |w.wire.accepted| >= 2
  {
  }

  lemma InHandlerNamed(w: World, server: string)
    requires InHandler(w)
    ensures InHandler(w.(s := w.s.(dataServer := server)))
  {
  }

  lemma ProtocolFail(w: World, op: Op, vector: bool, st: Status)
    requires InHandler(w)
    ensures Protocol(ReleaseIfIdle(Fail(w, op, vector, st)))
  {
  }

  lemma ProtocolSendStat(w: World, sub: Status)
    requires InHandler(w) && !w.s.timedOut && |w.wire.accepted| == 1
    ensures Protocol(ReleaseIfIdle(SendStat(w, sub)))
  {
  }

  /** While Open is owed nothing else has been accepted, save the watchdog's Close. */
  lemma OpenComesFirst(w: World)
    requires Protocol(w) && !w.s.completed && Open in w.wire.owed && !w.s.timedOut
    ensures |w.wire.accepted| == 1
  {
  }

  lemma ProtocolOpened(o: Options, w: World, st: Status, server: string, sub: Status)
    requires Protocol(w) && !w.s.completed && Open in w.wire.owed
    ensures Protocol(OnOpen(o, w, st, server, sub))
  {
    hide Protocol, InHandler, SubmitClose, SendStat, Fail, ReleaseIfIdle;
    var w1 := Receive(w, Open);
    var w2 := w1.(s := w1.s.(dataServer := server));
    ReceiveInHandler(w, Open);
    if !st.ok {
      ProtocolFail(w1, Open, false, st);
    } else {
      InHandlerNamed(w1, server);
      if w.s.timedOut {
        ProtocolSubmitClose(w2, sub);
      } else {
        OpenComesFirst(w);
        ProtocolSendStat(w2, sub);
      }
    }
  }

  /** The file size is taken in; an offset beyond the file completes the session. */
  lemma ProtocolSized(o: Options, w: World, fileSize: nat, r: Result)
    requires InHandler(w)
    ensures InHandler(Ready(o, w, fileSize)) && Ready(o, w, fileSize).wire == w.wire
    ensures Protocol(ReleaseIfIdle(Complete(Sized(o, w, fileSize), r)))
  {
  }

  lemma ProtocolStatted(o: Options, w: World, st: Status, size: Option<nat>, sub: Status, draws: seq<nat>)
    requires Protocol(w) && !w.s.completed && Stat in w.wire.owed
    ensures Protocol(OnStat(o, w, st, size, sub, draws))
  {
    hide Protocol, InHandler, IssueNext, Fail, ReleaseIfIdle, Sized, Ready, Complete;
    var w1, n := Receive(w, Stat), SizeOf(size);
    ReceiveInHandler(w, Stat);
    var w2 := Sized(o, w1, n);
    ProtocolSized(o, w1, n, w2.s.result.(error := BeyondFile, fileSize := n, dataServer := w2.s.dataServer));
    ProtocolFail(w1, Stat, false, st);
    ProtocolIssueNext(o, Ready(o, w1, n), sub, draws);
  }

  lemma ProtocolTaken(o: Options, w: World, got: int)
    requires InHandler(w)
    ensures InHandler(Taken(o, w, got)) && Taken(o, w, got).wire == w.wire
  {
  }

  lemma ProtocolReadDone(o: Options, w: World, st: Status, got: Option<nat>, sub: Status, draws: seq<nat>)
    requires Protocol(w) && !w.s.completed && Read in w.wire.owed
    ensures Protocol(OnRead(o, w, st, got, sub, draws))
  {
    hide Protocol, InHandler, IssueNext, Fail, ReleaseIfIdle, Taken;
    var w1 := Receive(w, Read);
    ReceiveInHandler(w, Read);
    ProtocolFail(w1, Read, o.vectorChunks > 0, st);
    ProtocolTaken(o, w1, Got(o, w1.s, got));
    ProtocolIssueNext(o, Taken(o, w1, Got(o, w1.s, got)), sub, draws);
  }

  lemma ProtocolClosed(w: World, st: Status)
    requires Protocol(w) && !w.s.completed && Close in w.wire.owed
    ensures Protocol(OnClose(w, st))
  {
  }

  lemma ProtocolLate(o: Options, w: World, e: Event)
    requires Protocol(w) && w.s.completed
    ensures Protocol(Step(o, w, e))
  {
  }

  lemma CloseComesLast(accepted: seq<Op>)
    requires InOrder(accepted) && Close !in accepted && accepted != []
    ensures InOrder(accepted + [Close])
  {
    forall i | 0 <= i < |accepted| + 1 ensures Placed((accepted + [Close])[i], i, |accepted| + 1) {
      if i < |accepted| {
        assert Placed(accepted[i], i, |accepted|) && accepted[i] != Close;
      }
    }
  }

  /** The watchdog's Close goes beside the op in flight, or is refused and leaves no trace. */
  lemma ProtocolWatchdogClose(w: World, w': World, sub: Status)
    requires Protocol(w) && !w.s.completed && !w.s.closeRequested
    requires w' == SubmitClose(w.(s := w.s.(timedOut := true)), sub)
    ensures Protocol(w') && w'.s.pending > 0
  {
    if sub.ok {
      CloseComesLast(w.wire.accepted);
      assert w'.wire.accepted == w.wire.accepted + [Close] && w'.wire.owed == w.wire.owed + [Close];
    } else {
      assert w'.wire == w.wire.(submitted := w.wire.submitted + [Close]);
    }
  }

  lemma ProtocolTimeout(w: World, sub: Status)
    requires Protocol(w)
    ensures Protocol(RequestWallTimeout(w, sub))
  {
    if !w.s.completed && !w.s.closeRequested {
      ProtocolWatchdogClose(w, SubmitClose(w.(s := w.s.(timedOut := true)), sub), sub);
    }
  }

  lemma ProtocolStep(o: Options, w: World, e: Event)
    requires Protocol(w)
    ensures Protocol(Step(o, w, e))
  {
    hide Protocol, OnOpen, OnStat, OnRead, OnClose, RequestWallTimeout;
    if w.s.completed {
      ProtocolLate(o, w, e);
    } else if Enabled(w, e) {
      match e
      case Opened(st, server, sub) => ProtocolOpened(o, w, st, server, sub);
      case Statted(st, size, sub, draws) => ProtocolStatted(o, w, st, size, sub, draws);
      case ReadDone(st, got, sub, draws) => ProtocolReadDone(o, w, st, got, sub, draws);
      case Closed(st) => ProtocolClosed(w, st);
      case WallTimeout(sub) => ProtocolTimeout(w, sub);
    }
  }

  /** From w to w', at most callbacks were taken off the list, and the self reference dropped. */
  ghost predicate Fades(w: World, w': World) {
    && w'.s == w.s.(pending := w'.s.pending, selfKeep := w'.s.selfKeep)
    && w'.wire == w.wire.(owed := w'.wire.owed, answered := w'.wire.answered)
    && w'.deliveries == w.deliveries && w'.budget == w.budget
  }

  lemma LateAnswer(w: World, op: Op)
    requires op in w.wire.owed
    ensures Fades(w, ReleaseIfIdle(Receive(w, op)))
  {
  }

  lemma LateAnswerIs(o: Options, w: World, e: Event, op: Op)
    requires w.s.completed && Enabled(w, e) && op in w.wire.owed
    requires match op {
               case Open => e.Opened? case Stat => e.Statted? case Read => e.ReadDone? case Close => e.Closed?
             }
    ensures Step(o, w, e) == ReleaseIfIdle(Receive(w, op))
  {
  }

  /** A completed session only takes callbacks off the list. */
  lemma LateStep(o: Options, w: World, e: Event)
    requires w.s.completed
    ensures Fades(w, Step(o, w, e))
  {
    if Enabled(w, e) && !e.WallTimeout? {
      var op := match e
        case Opened(_, _, _) => Open
        case Statted(_, _, _, _) => Stat
        case ReadDone(_, _, _, _) => Read
        case Closed(_) => Close;
      LateAnswer(w, op);
      LateAnswerIs(o, w, e, op);
    }
  }

  // ---- what is reported --------------------------------------------------------------------

  /** The result handed to on_done: ok without an error, or an error; a wall timeout carries its
      own error and code; the byte count is the one the session kept. */
  ghost predicate Reported(s: Session, r: Result) {
    && (r.ok <==> r.error == Nothing)
    && (r.ok ==> !s.timedOut)
    && (r.timedOut ==> s.timedOut)
    && (r.timedOut <==> r.error == WallTimeoutHit)
    && (r.timedOut ==> r.errCode == ETIMEDOUT)
    && r.bytesRead == s.bytesRead && r.ops == s.ops
    && if StatRefused(r.error) then r.dataServer == "" && r.fileSize == 0
       else r.dataServer == s.dataServer && r.fileSize == s.fileSize
  }

  predicate StatRefused(f: Failure) {
    f.Refused? && f.op == Stat
  }

  ghost predicate Outcome(w: World) {
    && (Read !in w.wire.accepted ==> w.s.bytesRead == w.s.ops == 0)
    && w.s.ops == |w.deliveries|
    && if w.s.completed then w.s.calls == [w.s.result] && Reported(w.s, w.s.result)
       else w.s.calls == [] && w.s.result == EMPTY_RESULT
  }

  lemma OutcomeStart(sub: Status)
    ensures Outcome(Start(sub))
  {
  }

  lemma OutcomeSubmitClose(w: World, sub: Status)
    requires Outcome(w) && !w.s.completed
    ensures Outcome(SubmitClose(w, sub))
  {
  }

  lemma OutcomeIssueNext(o: Options, w: World, sub: Status, draws: seq<nat>)
    requires Outcome(w) && !w.s.completed
    ensures Outcome(IssueNext(o, w, sub, draws))
  {
    var w1 := if w.s.timedOut then w.(s := w.s.(remaining := 0)) else w;
    if w1.s.remaining == 0 {
      OutcomeSubmitClose(w1, sub);
    } else {
      var w2 := SendRead(w1, sub, NextChunks(o, w1.s, draws), o.vectorChunks == 0);
      assert Outcome(w2);
    }
  }

  lemma OutcomeSendStat(w: World, sub: Status)
    requires Outcome(w) && !w.s.completed && Read !in w.wire.accepted
    ensures Outcome(SendStat(w, sub))
  {
  }

  lemma OutcomeFail(w: World, op: Op, vector: bool, st: Status)
    requires Outcome(w) && !w.s.completed
    ensures Outcome(Fail(w, op, vector, st))
  {
  }

  lemma OutcomeRelease(w: World)
    requires Outcome(w)
    ensures Outcome(ReleaseIfIdle(w))
  {
  }

  lemma OutcomeReceive(w: World, op: Op)
    requires Outcome(w) && !w.s.completed && op in w.wire.owed
    ensures Outcome(Receive(w, op)) && !Receive(w, op).s.completed
  {
  }

  lemma OutcomeNamed(w: World, server: string)
    requires Outcome(w) && !w.s.completed
    ensures Outcome(w.(s := w.s.(dataServer := server)))
  {
  }

  lemma OutcomeOpened(o: Options, w: World, st: Status, server: string, sub: Status)
    requires Outcome(w) && !w.s.completed && Open in w.wire.owed && Read !in w.wire.accepted
    ensures Outcome(OnOpen(o, w, st, server, sub))
  {
    hide Outcome, SubmitClose, SendStat, Fail, ReleaseIfIdle;
    var w1 := Receive(w, Open);
    var w2 := w1.(s := w1.s.(dataServer := server));
    OutcomeReceive(w, Open);
    var w' := if !st.ok then Fail(w1, Open, false, st)
              else if w2.s.timedOut then SubmitClose(w2, sub)
              else SendStat(w2, sub);
    assert Outcome(w') by {
      OutcomeFail(w1, Open, false, st);
      OutcomeNamed(w1, server);
      OutcomeSubmitClose(w2, sub);
      OutcomeSendStat(w2, sub);
    }
    OutcomeRelease(w');
  }

  lemma OutcomeSized(o: Options, w: World, fileSize: nat, error: Failure)
    requires Outcome(w) && !w.s.completed && Read !in w.wire.accepted && error == BeyondFile
    ensures Outcome(Ready(o, w, fileSize)) && !Ready(o, w, fileSize).s.completed
    ensures var w2 := Sized(o, w, fileSize);
            Outcome(Complete(w2, w2.s.result.(error := error, fileSize := fileSize, dataServer := w2.s.dataServer)))
  {
  }

  lemma OutcomeStatted(o: Options, w: World, st: Status, size: Option<nat>, sub: Status, draws: seq<nat>)
    requires Outcome(w) && !w.s.completed && Stat in w.wire.owed && Read !in w.wire.accepted
    ensures Outcome(OnStat(o, w, st, size, sub, draws))
  {
    hide Outcome, IssueNext, Fail, ReleaseIfIdle, Sized, Ready, Complete;
    var w1, n := Receive(w, Stat), SizeOf(size);
    OutcomeReceive(w, Stat);
    OutcomeFail(w1, Stat, false, st);
    OutcomeRelease(Fail(w1, Stat, false, st));
    OutcomeSized(o, w1, n, BeyondFile);
    OutcomeIssueNext(o, Ready(o, w1, n), sub, draws);
    OutcomeRelease(IssueNext(o, Ready(o, w1, n), sub, draws));
    var w2 := Sized(o, w1, n);
    OutcomeRelease(Complete(w2, w2.s.result.(error := BeyondFile, fileSize := n, dataServer := w2.s.dataServer)));
  }

  lemma OutcomeTaken(o: Options, w: World, got: int)
    requires Outcome(w) && !w.s.completed && Read in w.wire.accepted
    ensures Outcome(Taken(o, w, got)) && !Taken(o, w, got).s.completed
  {
  }

  lemma OutcomeReadDone(o: Options, w: World, st: Status, got: Option<nat>, sub: Status, draws: seq<nat>)
    requires Outcome(w) && !w.s.completed && Read in w.wire.owed && Read in w.wire.accepted
    ensures Outcome(OnRead(o, w, st, got, sub, draws))
  {
    hide Outcome, IssueNext, Fail, ReleaseIfIdle, Taken;
    var w1 := Receive(w, Read);
    var w2 := Taken(o, w1, Got(o, w1.s, got));
    OutcomeReceive(w, Read);
    OutcomeFail(w1, Read, o.vectorChunks > 0, st);
    OutcomeRelease(Fail(w1, Read, o.vectorChunks > 0, st));
    OutcomeTaken(o, w1, Got(o, w1.s, got));
    OutcomeIssueNext(o, w2, sub, draws);
    OutcomeRelease(IssueNext(o, w2, sub, draws));
  }

  lemma OutcomeClosed(w: World, st: Status)
    requires Outcome(w) && !w.s.completed && Close in w.wire.owed
    ensures Outcome(OnClose(w, st))
  {
  }

  lemma OutcomeTimeout(w: World, sub: Status)
    requires Outcome(w) && !w.s.completed
    ensures Outcome(RequestWallTimeout(w, sub))
  {
    OutcomeSubmitClose(w.(s := w.s.(timedOut := true)), sub);
  }

  /** Reads come after Open and Stat have been answered. */
  lemma ReadsComeLater(w: World)
    requires Protocol(w) && !w.s.completed
    ensures Open in w.wire.owed || Stat in w.wire.owed ==> Read !in w.wire.accepted
    ensures Read in w.wire.owed ==> Read in w.wire.accepted
  {
  }

  lemma OutcomeStep(o: Options, w: World, e: Event)
    requires Protocol(w) && Outcome(w)
    ensures Outcome(Step(o, w, e))
  {
    hide OnOpen, OnStat, OnRead, OnClose, RequestWallTimeout;
    if w.s.completed {
      LateStep(o, w, e);
    } else if Enabled(w, e) {
      ReadsComeLater(w);
      match e
      case Opened(st, server, sub) => OutcomeOpened(o, w, st, server, sub);
      case Statted(st, size, sub, draws) => OutcomeStatted(o, w, st, size, sub, draws);
      case ReadDone(st, got, sub, draws) => OutcomeReadDone(o, w, st, got, sub, draws);
      case Closed(st) => OutcomeClosed(w, st);
      case WallTimeout(sub) => OutcomeTimeout(w, sub);
    }
  }
}
