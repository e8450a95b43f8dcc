/** With a library that cooperates, a session reads its whole budget and ends ok. */
module SessionLiveness {
  import opened Basics
  import opened SessionModel
  import opened SessionReads
  import opened SessionInvariants
  import opened SessionAccounting
  import opened SessionTheorems

  lemma {:induction false} PlayCons(o: Options, w: World, e: Event, rest: seq<Event>)
    ensures Play(o, w, [e] + rest) == Play(o, Step(o, w, e), rest)
  {
    hide Step;
    if rest == [] {
      assert [e] + rest == [e] && [e][..0] == [];
    } else {
      assert ([e] + rest)[..|rest|] == [e] + rest[..|rest| - 1];
      PlayCons(o, w, e, rest[..|rest| - 1]);
    }
  }

  /** A read is in flight and nothing stands in its way. */
  ghost predicate Smooth(o: Options, w: World) {
    Inv(o, w) && !w.s.completed && !w.s.timedOut && !w.s.closeRequested && w.wire.owed == [Read]
  }

  /** The run's last event completes it ok, with all of the budget. */
  ghost predicate Succeeds(o: Options, w: World, events: seq<Event>) {
    && events != []
    && !Play(o, w, events[..|events| - 1]).s.completed
    && var w' := Play(o, w, events);
       w'.s.completed && w'.s.result.ok && w'.s.result.bytesRead == w'.budget == w.budget
  }

  function FullAnswer(w: World): Event {
    ReadDone(FINE, Some(if w.s.requested < 0 then 0 else w.s.requested), FINE, [])
  }

  /** Where a full answer leaves a session: `w2` is the world that has taken it in. */
  lemma FullAnswerTaken(o: Options, w: World, w2: World)
    requires Smooth(o, w) && o.chunkSize >= 1
    requires w2 == Taken(o, Receive(w, Read), w.s.requested)
    ensures 1 <= w.s.requested <= w.s.remaining
    ensures w2.wire.owed == [] && !w2.s.completed && !w2.s.timedOut && !w2.s.closeRequested
    ensures w2.s.remaining == w.s.remaining - w.s.requested && w2.budget == w.budget
    ensures w2.s.remaining == 0 ==> w2.s.bytesRead == w.budget
  {
    OpSizePositive(o);
    assert Reading(o, w);
  }

  /** IssueNext with an accepted submission: a Close when nothing is left, else a read. */
  lemma IssueNextAccepted(o: Options, w: World, w': World)
    requires w' == ReleaseIfIdle(IssueNext(o, w, FINE, []))
    requires w.wire.owed == [] && !w.s.completed && !w.s.timedOut && !w.s.closeRequested
    ensures !w'.s.completed && !w'.s.timedOut && w'.budget == w.budget && w'.s.remaining == w.s.remaining
    ensures w'.s.bytesRead == w.s.bytesRead
    ensures if w.s.remaining == 0 then w'.wire.owed == [Close] else w'.wire.owed == [Read] && !w'.s.closeRequested
  {
    if w.s.remaining == 0 {
      assert w' == ReleaseIfIdle(SubmitClose(w, FINE));
    } else {
      assert w' == ReleaseIfIdle(SendRead(w, FINE, NextChunks(o, w.s, []), o.vectorChunks == 0));
    }
  }

  lemma FullAnswerIs(o: Options, w: World)
    requires Smooth(o, w) && w.s.requested >= 1
    ensures Enabled(w, FullAnswer(w))
    ensures Step(o, w, FullAnswer(w)) ==
            ReleaseIfIdle(IssueNext(o, Taken(o, Receive(w, Read), w.s.requested), FINE, []))
  {
  }

  lemma InvStep(o: Options, w: World, e: Event)
    requires Inv(o, w)
    ensures Inv(o, Step(o, w, e))
  {
    ProtocolStep(o, w, e);
    OutcomeStep(o, w, e);
    AccountingStep(o, w, e);
  }

  /** A full answer brings the session forward: to the next read, or to an accepted Close. */
  lemma FullAnswerStep(o: Options, w: World, w': World)
    requires Smooth(o, w) && o.chunkSize >= 1 && w' == Step(o, w, FullAnswer(w))
    ensures Inv(o, w') && !w'.s.completed && !w'.s.timedOut && w'.budget == w.budget
    ensures if w.s.remaining == w.s.requested
            then w'.wire.owed == [Close] && w'.s.bytesRead == w.budget
            else Smooth(o, w') && 0 < w'.s.remaining < w.s.remaining
  {
    var w2 := Taken(o, Receive(w, Read), w.s.requested);
    FullAnswerTaken(o, w, w2);
    FullAnswerIs(o, w);
    IssueNextAccepted(o, w2, w');
    InvStep(o, w, FullAnswer(w));
  }

  lemma CloseStep(o: Options, w: World, w': World)
    requires Inv(o, w) && !w.s.completed && !w.s.timedOut && w.wire.owed == [Close]
    requires w' == Step(o, w, Closed(FINE))
    ensures w'.s.completed && w'.s.result.ok && w'.s.result.bytesRead == w.s.bytesRead && w'.budget == w.budget
  {
  }

  lemma PlayNone(o: Options, w: World)
    ensures Play(o, w, []) == w
  {
  }

  /** One more event in front of a successful run. */
  lemma SucceedsCons(o: Options, w: World, w': World, e: Event, rest: seq<Event>)
    requires w' == Step(o, w, e) && w'.budget == w.budget && Succeeds(o, w', rest)
    ensures Succeeds(o, w, [e] + rest)
  {
    assert ([e] + rest)[..|rest|] == [e] + rest[..|rest| - 1];
    PlayCons(o, w, e, rest);
    PlayCons(o, w, e, rest[..|rest| - 1]);
  }

  lemma SucceedsLast(o: Options, w: World, w': World, e: Event)
    requires w' == Step(o, w, e) && !w.s.completed
    requires w'.s.completed && w'.s.result.ok && w'.s.result.bytesRead == w'.budget == w.budget
    ensures Succeeds(o, w, [e])
  {
    PlayNone(o, w);
    PlayCons(o, w, e, []);
    PlayNone(o, w');
    assert [e] + [] == [e] && [e][..0] == [];
  }

  /** From any world that is reading, full answers lead to success. */
  lemma {:induction false} FullAnswersSucceed(o: Options, w: World) returns (events: seq<Event>)
    requires Smooth(o, w) && o.chunkSize >= 1
    ensures Succeeds(o, w, events)
    decreases w.s.remaining
  {
    var e := FullAnswer(w);
    var w' := Step(o, w, e);
    FullAnswerStep(o, w, w');
    var rest;
    if w.s.remaining == w.s.requested {
      rest := [Closed(FINE)];
      CloseStep(o, w', Step(o, w', Closed(FINE)));
      SucceedsLast(o, w', Step(o, w', Closed(FINE)), Closed(FINE));
    } else {
      rest := FullAnswersSucceed(o, w');
    }
    events := [e] + rest;
    SucceedsCons(o, w, w', e, rest);
  }

  lemma OpenAnswered(o: Options, w1: World)
    requires w1 == Step(o, Start(FINE), Opened(FINE, "", FINE))
    ensures Inv(o, w1) && w1.wire.owed == [Stat] && !w1.s.completed && !w1.s.timedOut && !w1.s.closeRequested
  {
    Invariant(o, FINE, []);
    PlayNone(o, Start(FINE));
    InvStep(o, Start(FINE), Opened(FINE, "", FINE));
  }

  lemma StatAnswered(o: Options, w1: World, w2: World, fileSize: nat)
    requires Inv(o, w1) && w1.wire.owed == [Stat] && !w1.s.completed && !w1.s.timedOut && !w1.s.closeRequested
    requires Budget(o, fileSize) > 0 && w2 == Step(o, w1, Statted(FINE, Some(fileSize), FINE, []))
    ensures Smooth(o, w2) && w2.budget == Budget(o, fileSize)
  {
    var ready := Ready(o, Receive(w1, Stat), fileSize);
    assert ready.wire.owed == [] && ready.s.remaining == ready.budget == Budget(o, fileSize);
    assert w2 == ReleaseIfIdle(IssueNext(o, ready, FINE, []));
    IssueNextAccepted(o, ready, w2);
    InvStep(o, w1, Statted(FINE, Some(fileSize), FINE, []));
  }

  lemma PlayTwo(o: Options, w: World, w1: World, w2: World, e1: Event, e2: Event, rest: seq<Event>)
    requires w1 == Step(o, w, e1) && w2 == Step(o, w1, e2)
    ensures Play(o, w, [e1] + ([e2] + rest)) == Play(o, w2, rest)
  {
    PlayCons(o, w, e1, [e2] + rest);
    PlayCons(o, w1, e2, rest);
  }

  /** The run's last event completes the session ok, with so many bytes. */
  ghost predicate EndsWell(o: Options, w: World, events: seq<Event>, bytes: int) {
    && events != []
    && !Play(o, w, events[..|events| - 1]).s.completed
    && var w' := Play(o, w, events);
       w'.s.completed && w'.s.result.ok && w'.s.result.bytesRead == bytes
  }

  lemma EndsWellTwo(o: Options, w: World, w1: World, w2: World, e1: Event, e2: Event, rest: seq<Event>)
    requires w1 == Step(o, w, e1) && w2 == Step(o, w1, e2) && Succeeds(o, w2, rest)
    ensures EndsWell(o, w, [e1] + ([e2] + rest), w2.budget)
  {
    var most := rest[..|rest| - 1];
    assert ([e1] + ([e2] + rest))[..|rest| + 1] == [e1] + ([e2] + most);
    PlayTwo(o, w, w1, w2, e1, e2, rest);
    PlayTwo(o, w, w1, w2, e1, e2, most);
  }

  /** For any options with chunks, and any file with something to read, the library can let the
      session read all of it, from the offset on (in random mode: as many bytes as the file has), up to
      max_bytes, and end ok. */
  lemma CooperationSucceeds(o: Options, fileSize: nat) returns (events: seq<Event>)
    requires o.chunkSize >= 1 && (if o.randomOffset then 0 else o.offset) < fileSize
    ensures var there := if o.randomOffset then fileSize else fileSize - o.offset;
            EndsWell(o, Start(FINE), events, if o.maxBytes > 0 then Min(there, o.maxBytes) else there)
  {
    BudgetInPlainWords(o, fileSize);
    var e1, e2 := Opened(FINE, "", FINE), Statted(FINE, Some(fileSize), FINE, []);
    var w1 := Step(o, Start(FINE), e1);
    var w2 := Step(o, w1, e2);
    OpenAnswered(o, w1);
    StatAnswered(o, w1, w2, fileSize);
    var rest := FullAnswersSucceed(o, w2);
    events := [e1] + ([e2] + rest);
    EndsWellTwo(o, Start(FINE), w1, w2, e1, e2, rest);
  }
}
