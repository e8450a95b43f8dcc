/** Byte accounting of a session: how the reads tile the file, how the delivered bytes add up to
    the budget, and how many reads there can be. Kept by every event. */
module SessionAccounting {
  import opened Basics
  import opened SessionModel
  import opened SessionReads
  import opened SessionInvariants

  /** The bytes of j full-sized read operations. */
  function Full(op: nat, j: nat): nat {
    if j == 0 then 0 else Full(op, j - 1) + op
  }

  /** All bytes delivered. */
  function SumGot(ds: seq<Delivery>): int {
    if ds == [] then 0 else SumGot(ds[..|ds| - 1]) + ds[|ds| - 1].got
  }

  ghost predicate AllFull(ds: seq<Delivery>) {
    forall j :: 0 <= j < |ds| ==> ds[j].got == ds[j].asked
  }

  /** Where the j-th read operation starts in sequential mode, relative to which its chunks lie. */
  function Base(o: Options, j: nat): int {
    o.offset + Full(OpSize(o), j)
  }

  /** The bytes the j-th read operation asks for. */
  function Ask(o: Options, budget: int, j: nat): int {
    Min(OpSize(o), budget - Full(OpSize(o), j))
  }

  /** The j-th read operation asks for the j-th piece of the budget. */
  ghost predicate Tile(o: Options, fileSize: int, budget: int, j: nat, chunks: seq<Chunk>) {
    Full(OpSize(o), j) < budget && GoodRead(o, fileSize, Base(o, j), Ask(o, budget, j), chunks)
  }

  /** Every accepted read operation asked for the next piece of the budget. */
  ghost predicate Tiled(o: Options, fileSize: int, budget: int, plans: seq<seq<Chunk>>) {
    forall j :: 0 <= j < |plans| ==> Tile(o, fileSize, budget, j, plans[j])
  }

  /** Every answer but the last brought all it was asked for. */
  ghost predicate Delivered(o: Options, budget: int, ds: seq<Delivery>) {
    && (forall j :: 0 <= j < |ds| ==> ds[j].asked == Ask(o, budget, j) && 0 <= ds[j].got <= ds[j].asked)
    && AllFull(if ds == [] then [] else ds[..|ds| - 1])
  }

  /** The part that holds at all times. */
  ghost predicate Ledger(o: Options, w: World) {
    && w.budget == Budget(o, w.s.fileSize)
    && 0 <= w.s.nextOffset
    && w.s.bytesRead == SumGot(w.deliveries) <= w.budget
    && |w.deliveries| <= |w.wire.plans|
    && Tiled(o, w.s.fileSize, w.budget, w.wire.plans)
    && Delivered(o, w.budget, w.deliveries)
    && |w.wire.accepted| <= 2 + |w.wire.plans| + (if Close in w.wire.accepted then 1 else 0)
  }

  /** A session that has not asked for data yet. */
  ghost predicate Untouched(w: World) {
    w.s.fileSize == w.s.bytesRead == w.s.remaining == w.budget == 0 && w.wire.plans == [] && w.deliveries == []
  }

  /** A read is in flight, for exactly what is left. */
  ghost predicate Reading(o: Options, w: World) {
    var k := |w.deliveries|;
    && |w.wire.plans| == k + 1
    && AllFull(w.deliveries)
    && w.s.bytesRead == Full(OpSize(o), k) < w.budget
    && w.s.remaining == w.budget - w.s.bytesRead
    && w.s.requested == Ask(o, w.budget, k)
    && (!o.randomOffset ==> w.s.nextOffset == Base(o, k))
  }

  /** Nothing more to read, unless the wall timeout cut the session short. */
  ghost predicate Drained(w: World) {
    && |w.wire.plans| == |w.deliveries|
    && (!w.s.timedOut && AllFull(w.deliveries) ==> w.s.bytesRead == w.budget)
  }

  ghost predicate Accounting(o: Options, w: World) {
    && Ledger(o, w)
    && if w.s.completed then w.s.result.ok ==> Drained(w)
       else if Open in w.wire.owed || Stat in w.wire.owed then Untouched(w)
       else if Read in w.wire.owed then Reading(o, w)
       else Drained(w)
  }

  /** Between two reads, inside a handler. */
  ghost predicate Between(o: Options, w: World) {
    && Ledger(o, w)
    && |w.wire.plans| == |w.deliveries|
    && 0 <= w.s.remaining
    && (w.s.remaining == 0 && AllFull(w.deliveries) ==> w.s.bytesRead == w.budget)
    && (w.s.remaining > 0 ==>
          && AllFull(w.deliveries)
          && w.s.bytesRead == Full(OpSize(o), |w.deliveries|)
          && w.s.remaining == w.budget - w.s.bytesRead
          && (!o.randomOffset ==> w.s.nextOffset == Base(o, |w.deliveries|)))
  }

  lemma BudgetFits(o: Options, fileSize: nat)
    ensures 0 <= Budget(o, fileSize) <= fileSize
    ensures !o.randomOffset && 0 < Budget(o, fileSize) ==> o.offset + Budget(o, fileSize) <= fileSize
    ensures o.maxBytes > 0 ==> Budget(o, fileSize) <= o.maxBytes
  {
  }

  lemma AccountingSubmitClose(o: Options, w: World, sub: Status)
    requires InHandler(w) && Ledger(o, w) && Drained(w)
    requires w.s.result == EMPTY_RESULT
    ensures Accounting(o, SubmitClose(w, sub))
  {
  }

  lemma TiledMore(o: Options, fileSize: int, budget: int, plans: seq<seq<Chunk>>, chunks: seq<Chunk>)
    requires Tiled(o, fileSize, budget, plans) && Tile(o, fileSize, budget, |plans|, chunks)
    ensures Tiled(o, fileSize, budget, plans + [chunks])
  {
    forall j | 0 <= j < |plans + [chunks]| ensures Tile(o, fileSize, budget, j, (plans + [chunks])[j]) {
      assert (plans + [chunks])[j] == if j < |plans| then plans[j] else chunks;
    }
  }

  lemma AccountingSendRead(o: Options, w: World, sub: Status, chunks: seq<Chunk>)
    requires InHandler(w) && Between(o, w) && w.s.remaining > 0 && !w.s.timedOut
    requires w.s.result == EMPTY_RESULT
    requires Tile(o, w.s.fileSize, w.budget, |w.deliveries|, chunks)
    requires o.vectorChunks == 0 ==> chunks != [] && (!o.randomOffset ==> chunks[0].off == w.s.nextOffset)
    ensures Accounting(o, SendRead(w, sub, chunks, o.vectorChunks == 0))
  {
    TiledMore(o, w.s.fileSize, w.budget, w.wire.plans, chunks);
    var w' := SendRead(w, sub, chunks, o.vectorChunks == 0);
    assert w'.s.fileSize == w.s.fileSize && w'.budget == w.budget && w'.deliveries == w.deliveries;
    if sub.ok {
      assert Ledger(o, w');
    } else {
      assert w'.wire.plans == w.wire.plans;
    }
  }

  lemma AccountingIssueNext(o: Options, w: World, sub: Status, draws: seq<nat>)
    requires InHandler(w) && Between(o, w)
    requires w.s.result == EMPTY_RESULT
    ensures Accounting(o, IssueNext(o, w, sub, draws))
  {
    var w1 := if w.s.timedOut then w.(s := w.s.(remaining := 0)) else w;
    if w1.s.remaining == 0 {
      AccountingSubmitClose(o, w1, sub);
    } else {
      BudgetFits(o, w.s.fileSize);
      NextChunksGood(o, w.s, draws);
      AccountingSendRead(o, w, sub, NextChunks(o, w.s, draws));
    }
  }

  lemma AccountingRelease(o: Options, w: World)
    requires Accounting(o, w)
    ensures Accounting(o, ReleaseIfIdle(w))
  {
  }

  lemma AccountingFail(o: Options, w: World, op: Op, vector: bool, st: Status)
    requires InHandler(w) && Ledger(o, w) && w.s.result == EMPTY_RESULT
    ensures Accounting(o, Fail(w, op, vector, st))
  {
  }

  lemma AccountingOpened(o: Options, w: World, st: Status, server: string, sub: Status)
    requires Protocol(w) && Outcome(w) && Accounting(o, w) && !w.s.completed && Open in w.wire.owed
    ensures Accounting(o, OnOpen(o, w, st, server, sub))
  {
  }

  lemma BetweenFirst(o: Options, w: World, fileSize: nat)
    requires Ledger(o, w) && Untouched(w)
    ensures Between(o, Ready(o, w, fileSize))
  {
    BudgetFits(o, fileSize);
  }

  lemma ReceiveStat(o: Options, w: World)
    requires Protocol(w) && Outcome(w) && Accounting(o, w) && !w.s.completed && Stat in w.wire.owed
    ensures var w1 := Receive(w, Stat);
            InHandler(w1) && Ledger(o, w1) && Untouched(w1) && w1.s.result == EMPTY_RESULT
  {
    ReceiveInHandler(w, Stat);
  }

  lemma AccountingReady(o: Options, w1: World, fileSize: nat, sub: Status, draws: seq<nat>)
    requires InHandler(w1) && Ledger(o, w1) && Untouched(w1) && w1.s.result == EMPTY_RESULT
    ensures Accounting(o, ReleaseIfIdle(IssueNext(o, Ready(o, w1, fileSize), sub, draws)))
  {
    BetweenFirst(o, w1, fileSize);
    AccountingIssueNext(o, Ready(o, w1, fileSize), sub, draws);
    AccountingRelease(o, IssueNext(o, Ready(o, w1, fileSize), sub, draws));
  }

  /** The offset lies beyond the file. */
  lemma AccountingBeyond(o: Options, w1: World, fileSize: nat, r: Result)
    requires InHandler(w1) && Ledger(o, w1) && Untouched(w1) && !r.ok
    ensures Accounting(o, ReleaseIfIdle(Complete(Sized(o, w1, fileSize), r)))
  {
    BudgetFits(o, fileSize);
  }

  lemma AccountingStatted(o: Options, w: World, st: Status, size: Option<nat>, sub: Status, draws: seq<nat>)
    requires Protocol(w) && Outcome(w) && Accounting(o, w) && !w.s.completed && Stat in w.wire.owed
    ensures Accounting(o, OnStat(o, w, st, size, sub, draws))
  {
    hide Protocol, Outcome, InHandler, Accounting, Ledger, Untouched;
    hide IssueNext, Fail, ReleaseIfIdle, Ready, Complete;
    var w1, n := Receive(w, Stat), SizeOf(size);
    ReceiveStat(o, w);
    if !st.ok {
      AccountingFail(o, w1, Stat, false, st);
      AccountingRelease(o, Fail(w1, Stat, false, st));
    } else if !o.randomOffset && o.offset >= n {
      var w2 := Sized(o, w1, n);
      AccountingBeyond(o, w1, n, w2.s.result.(error := BeyondFile, fileSize := n, dataServer := w2.s.dataServer));
    } else {
      AccountingReady(o, w1, n, sub, draws);
    }
  }

  lemma SumGotMore(ds: seq<Delivery>, d: Delivery)
    ensures SumGot(ds + [d]) == SumGot(ds) + d.got
  {
    assert (ds + [d])[..|ds|] == ds;
  }

  lemma AllFullMore(ds: seq<Delivery>, d: Delivery)
    requires AllFull(ds)
    ensures AllFull(ds + [d]) <==> d.got == d.asked
  {
    assert (ds + [d])[|ds|] == d;
  }

  /** One more answer after full ones. */
  lemma DeliveredMore(o: Options, budget: int, ds: seq<Delivery>, d: Delivery)
    requires Delivered(o, budget, ds) && AllFull(ds)
    requires d.asked == Ask(o, budget, |ds|) && 0 <= d.got <= d.asked
    ensures Delivered(o, budget, ds + [d])
  {
    var ds' := ds + [d];
    assert ds'[..|ds|] == ds;
    forall j | 0 <= j < |ds'| ensures ds'[j].asked == Ask(o, budget, j) && 0 <= ds'[j].got <= ds'[j].asked {
      if j < |ds| {
        assert ds'[j] == ds[j];
      }
    }
  }

  lemma LedgerTaken(o: Options, w: World, got: int, w': World)
    requires Ledger(o, w) && Reading(o, w) && 0 <= got <= w.s.requested && w' == Taken(o, w, got)
    ensures Ledger(o, w')
  {
    DeliveredMore(o, w.budget, w.deliveries, Delivery(w.s.requested, got));
    SumGotMore(w.deliveries, Delivery(w.s.requested, got));
  }

  lemma BetweenNext(o: Options, w: World, got: int)
    requires Ledger(o, w) && Reading(o, w) && 0 <= got <= w.s.requested
    ensures Between(o, Taken(o, w, got))
  {
    AllFullMore(w.deliveries, Delivery(w.s.requested, got));
    LedgerTaken(o, w, got, Taken(o, w, got));
  }

  /** Ledger and the accounting of a completed session look at these parts only. */
  lemma AccountingFrame(o: Options, w: World, w': World)
    requires Ledger(o, w) && (w'.s.completed && w'.s.result.ok ==> Drained(w))
    requires w'.s.fileSize == w.s.fileSize && w'.s.bytesRead == w.s.bytesRead && w'.s.nextOffset == w.s.nextOffset
    requires w'.s.timedOut == w.s.timedOut && w'.budget == w.budget && w'.deliveries == w.deliveries
    requires w'.wire.plans == w.wire.plans && w'.wire.accepted == w.wire.accepted
    ensures Ledger(o, w') && (w'.s.completed ==> Accounting(o, w'))
  {
  }

  lemma GotInRange(o: Options, w: World, got: Option<nat>)
    requires Ledger(o, w) && Reading(o, w)
    requires got.Some? ==> got.value <= w.s.requested
    ensures 0 <= Got(o, w.s, got) <= w.s.requested
  {
  }

  lemma ReceiveReading(o: Options, w: World)
    requires Outcome(w) && Accounting(o, w) && Protocol(w) && !w.s.completed && Read in w.wire.owed
    ensures var w1 := Receive(w, Read);
            InHandler(w1) && Ledger(o, w1) && Reading(o, w1) && w1.s.result == EMPTY_RESULT
  {
    ReceiveInHandler(w, Read);
    ReadsComeLater(w);
  }

  lemma AccountingTaken(o: Options, w1: World, got: int, sub: Status, draws: seq<nat>)
    requires InHandler(w1) && Ledger(o, w1) && Reading(o, w1) && w1.s.result == EMPTY_RESULT
    requires 0 <= got <= w1.s.requested
    ensures Accounting(o, ReleaseIfIdle(IssueNext(o, Taken(o, w1, got), sub, draws)))
  {
    BetweenNext(o, w1, got);
    AccountingIssueNext(o, Taken(o, w1, got), sub, draws);
    AccountingRelease(o, IssueNext(o, Taken(o, w1, got), sub, draws));
  }

  lemma AccountingReadDone(o: Options, w: World, st: Status, got: Option<nat>, sub: Status, draws: seq<nat>)
    requires Protocol(w) && Outcome(w) && Accounting(o, w) && !w.s.completed && Read in w.wire.owed
    requires got.Some? ==> got.value <= w.s.requested
    ensures Accounting(o, OnRead(o, w, st, got, sub, draws))
  {
    hide Protocol, Outcome, InHandler, Accounting, Ledger, Reading, IssueNext, Fail, ReleaseIfIdle, Taken;
    var w1 := Receive(w, Read);
    ReceiveReading(o, w);
    if st.ok {
      GotInRange(o, w1, got);
      AccountingTaken(o, w1, Got(o, w1.s, got), sub, draws);
    } else {
      AccountingFail(o, w1, Read, o.vectorChunks > 0, st);
      AccountingRelease(o, Fail(w1, Read, o.vectorChunks > 0, st));
    }
  }

  lemma AccountingClosed(o: Options, w: World, st: Status)
    requires Protocol(w) && Outcome(w) && Accounting(o, w) && !w.s.completed && Close in w.wire.owed
    ensures Accounting(o, OnClose(w, st))
  {
  }

  lemma AccountingTimeout(o: Options, w: World, sub: Status)
    requires Protocol(w) && Outcome(w) && Accounting(o, w)
    ensures Accounting(o, RequestWallTimeout(w, sub))
  {
  }

  lemma AccountingLate(o: Options, w: World, e: Event)
    requires Accounting(o, w) && w.s.completed
    ensures Accounting(o, Step(o, w, e))
  {
    var w' := Step(o, w, e);
    LateStep(o, w, e);
    AccountingFrame(o, w, w');
  }

  lemma AccountingStep(o: Options, w: World, e: Event)
    requires Protocol(w) && Outcome(w) && Accounting(o, w)
    ensures Accounting(o, Step(o, w, e))
  {
    hide Accounting, OnOpen, OnStat, OnRead, OnClose, RequestWallTimeout;
    if w.s.completed {
      AccountingLate(o, w, e);
    } else if Enabled(w, e) {
      match e
      case Opened(st, server, sub) => AccountingOpened(o, w, st, server, sub);
      case Statted(st, size, sub, draws) => AccountingStatted(o, w, st, size, sub, draws);
      case ReadDone(st, got, sub, draws) => AccountingReadDone(o, w, st, got, sub, draws);
      case Closed(st) => AccountingClosed(o, w, st);
      case WallTimeout(sub) => AccountingTimeout(o, w, sub);
    }
  }

  lemma AccountingStart(o: Options, sub: Status)
    ensures Accounting(o, Start(sub))
  {
  }
}
