/** The session object of src/file_session.cc: the fields are updated in place, and every locked
    region is proved to take the object from world to world exactly as SessionModel says, so that
    the theorems about worlds are theorems about the object. */
module FileSessionObject {
  import opened Basics
  import opened SessionModel
  import M = SessionModel

  /** The library's file object. The status argument of a request is the library's answer to the
      submission, chosen by the environment. */
  class XrdClFile {
    var submitted: seq<Op>
    var accepted: seq<Op>
    var owed: seq<Op>
    var answered: nat
    var plans: seq<seq<Chunk>>

    ghost function View(): Wire
      reads this
    {
      Wire(submitted, accepted, owed, answered, plans)
    }

    constructor ()
      ensures View() == Wire([], [], [], 0, [])
    {
      submitted, accepted, owed, answered, plans := [], [], [], 0, [];
    }

    method Request(op: Op, sub: Status)
      modifies this
      ensures View() == Offer(old(View()), op, sub)
    {
      submitted := submitted + [op];
      if sub.ok {
        accepted := accepted + [op];
        owed := owed + [op];
      }
    }

    method RequestRead(chunks: seq<Chunk>, sub: Status)
      modifies this
      ensures View() == var wire := Offer(old(View()), Read, sub);
                        if sub.ok then wire.(plans := old(plans) + [chunks]) else wire
    {
      Request(Read, sub);
      if sub.ok {
        plans := plans + [chunks];
      }
    }

    /** The library takes a callback off its list to run it. */
    method Deliver(op: Op)
      requires op in owed
      modifies this
      ensures View() == old(View()).(owed := Without(old(owed), op), answered := old(answered) + 1)
    {
      owed := Without(owed, op);
      answered := answered + 1;
    }
  }

  class FileSession {
    const opts: Options
    const file: XrdClFile

    var pending: int
    var timedOut: bool
    var closeRequested: bool
    var completed: bool
    var selfKeep: bool
    var fileSize: nat
    var remaining: int
    var nextOffset: int
    var requested: int
    var bytesRead: int
    var ops: nat
    var dataServer: string
    var result: Result
    var calls: seq<Result>  // what on_done was called with
    ghost var deliveries: seq<Delivery>
    ghost var budget: int

    ghost function View(): World
      reads this, file
    {
      World(Session(pending, timedOut, closeRequested, completed, selfKeep, fileSize, remaining, nextOffset,
                    requested, bytesRead, ops, dataServer, result, calls),
            file.View(), deliveries, budget)
    }

    constructor (opts: Options)
      ensures this.opts == opts && fresh(file) && View() == NEW_WORLD
    {
      this.opts := opts;
      file := new XrdClFile();
      pending, timedOut, closeRequested, completed, selfKeep := 0, false, false, false, false;
      fileSize, remaining, nextOffset, requested, bytesRead, ops := 0, 0, 0, 0, 0, 0;
      dataServer, result, calls := "", EMPTY_RESULT, [];
      deliveries, budget := [], 0;
    }

    /** A submission: ++pending_cbs_, then --pending_cbs_ when the library refuses. */
    method Submit(op: Op, sub: Status)
      modifies this`pending, file
      ensures View() == M.Submit(old(View()), op, sub)
    {
      pending := pending + 1;
      file.Request(op, sub);
      if !sub.ok {
        pending := pending - 1;
      }
    }

    method SetError(error: Failure, code: int, errNo: int)
      modifies this`result
      ensures result == Errored(old(result), error, code, errNo)
    {
      result := result.(error := error, statusCode := code, errCode := errNo);
    }

    method CapturePartialCounters()
      modifies this`result
      ensures result == Captured(old(View()).s)
    {
      result := result.(bytesRead := bytesRead, ops := ops, dataServer := dataServer, fileSize := fileSize);
    }

    /** The compare-and-swap on completed_: on_done is called by the first to get here. */
    method Complete()
      modifies this`completed, this`calls
      ensures View() == M.Complete(old(View()), result)
    {
      if completed {
        return;
      }
      completed := true;
      calls := calls + [result];
    }

    method ReleaseIfIdle()
      modifies this`selfKeep
      ensures View() == M.ReleaseIfIdle(old(View()))
    {
      if pending == 0 && completed {
        selfKeep := false;
      }
    }

    method Fail(op: Op, vector: bool, st: Status)
      modifies this`result, this`completed, this`calls
      ensures View() == M.Fail(old(View()), op, vector, st)
    {
      CapturePartialCounters();
      SetError(Failed(op, vector, st.text), st.code, st.errNo);
      Complete();
    }

    /** A submission was refused while no callback can retry it. */
    method Refuse(op: Op, sub: Status)
      modifies this`result, this`completed, this`calls
      ensures View() == M.Complete(old(View()),
                                   Errored(Captured(old(View()).s), Refused(op, sub.text), sub.code, sub.errNo))
    {
      CapturePartialCounters();
      SetError(Refused(op, sub.text), sub.code, sub.errNo);
      Complete();
    }

    /** The session ends by the wall timeout. */
    method FinishTimedOut(code: int)
      modifies this`result, this`completed, this`calls
      ensures View() == M.Complete(old(View()), TimedOutResult(old(View()).s, code))
    {
      CapturePartialCounters();
      result := result.(timedOut := true);
      SetError(WallTimeoutHit, code, ETIMEDOUT);
      Complete();
    }

    method SubmitClose(sub: Status)
      modifies this, file
      ensures View() == M.SubmitClose(old(View()), sub)
    {
      if closeRequested {
        return;
      }
      closeRequested := true;
      Submit(Close, sub);
      if sub.ok {
        return;
      }
      if pending > 0 {
        closeRequested := false;
        return;
      }
      if timedOut {
        FinishTimedOut(sub.code);
      } else {
        Refuse(Close, sub);
      }
    }

    method FinishOk()
      modifies this`result, this`completed, this`calls
      ensures View() == M.Complete(old(View()), Captured(old(View()).s).(ok := true))
    {
      result := result.(ok := true, dataServer := dataServer, fileSize := fileSize, bytesRead := bytesRead, ops := ops);
      Complete();
    }

    /** The chunk list of a VectorRead and the bytes it asks for. */
    method BuildChunks(draws: seq<nat>) returns (chunks: seq<Chunk>, asked: int)
      ensures chunks == Plan(opts, fileSize, opts.vectorChunks, nextOffset, remaining, 0, draws, 0)
      ensures asked == TotalLen(chunks)
    {
      chunks, asked := [], 0;
      var left, buf, off, i := remaining, 0, nextOffset, 0;
      ghost var plan := Plan(opts, fileSize, opts.vectorChunks, nextOffset, remaining, 0, draws, 0);
      while i < opts.vectorChunks && left > 0
        invariant 0 <= i <= opts.vectorChunks
        invariant chunks + Plan(opts, fileSize, opts.vectorChunks - i, off, left, buf, draws, i) == plan
        invariant asked == TotalLen(chunks)
      {
        var len := Min(opts.chunkSize, left);
        var at := if opts.randomOffset then SampleOffset(Draw(draws, i), fileSize, len) else off;
        TotalLenAppend(chunks, Chunk(at, len, buf));
        ghost var rest := Plan(opts, fileSize, opts.vectorChunks - (i + 1), off + len, left - len, buf + len,
                               draws, i + 1);
        assert chunks + ([Chunk(at, len, buf)] + rest) == chunks + [Chunk(at, len, buf)] + rest;
        chunks := chunks + [Chunk(at, len, buf)];
        buf := buf + len;
        off := off + len;
        left := left - len;
        asked := asked + len;
        i := i + 1;
      }
      assert chunks + [] == chunks;
    }

    /** Hand the request to the library: ++pending_cbs_, and --pending_cbs_ on refusal. */
    method SubmitRead(chunks: seq<Chunk>, sub: Status)
      modifies this`pending, file
      ensures View() == var w := M.Submit(old(View()), Read, sub);
                        if sub.ok then w.(wire := w.wire.(plans := old(file.plans) + [chunks])) else w
    {
      pending := pending + 1;
      file.RequestRead(chunks, sub);
      if !sub.ok {
        pending := pending - 1;
      }
    }

    /** Submit one read of `asked` bytes; a plain read's range is its only chunk. */
    method SendRead(chunks: seq<Chunk>, asked: int, sub: Status)
      requires asked == TotalLen(chunks) && (opts.vectorChunks == 0 ==> chunks != [])
      modifies this, file
      ensures View() == M.SendRead(old(View()), sub, chunks, opts.vectorChunks == 0)
    {
      requested := asked;
      if opts.vectorChunks == 0 {
        nextOffset := chunks[0].off;
      }
      SubmitRead(chunks, sub);
      if !sub.ok {
        Refuse(Read, sub);
      }
    }

    /** The one range of a plain Read. */
    method PlainRange(draws: seq<nat>) returns (chunk: Chunk)
      requires opts.vectorChunks == 0
      ensures [chunk] == NextChunks(opts, View().s, draws) && TotalLen([chunk]) == chunk.len
    {
      var len, at := Min(opts.chunkSize, remaining), nextOffset;
      if opts.randomOffset {
        at := SampleOffset(Draw(draws, 0), fileSize, len);
      }
      chunk := Chunk(at, len, 0);
    }

    method IssueNext(sub: Status, draws: seq<nat>)
      modifies this, file
      ensures View() == M.IssueNext(opts, old(View()), sub, draws)
    {
      if completed {
        return;
      }
      if timedOut {
        remaining := 0;
      }
      if remaining == 0 {
        SubmitClose(sub);
        return;
      }
      if opts.vectorChunks > 0 {
        var chunks, asked := BuildChunks(draws);
        SendRead(chunks, asked, sub);
      } else {
        var chunk := PlainRange(draws);
        SendRead([chunk], chunk.len, sub);
      }
    }

    // ---- locked regions --------------------------------------------------------------------

    method Start(sub: Status) returns (started: bool)
      requires View() == NEW_WORLD
      modifies this, file
      ensures View() == M.Start(sub) && started == sub.ok
    {
      selfKeep := true;
      Submit(Open, sub);
      if !sub.ok {
        SetError(Refused(Open, sub.text), sub.code, sub.errNo);
        Complete();
        ReleaseIfIdle();
        return false;
      }
      return true;
    }

    method RequestWallTimeout(sub: Status)
      modifies this, file
      ensures View() == M.RequestWallTimeout(old(View()), sub)
    {
      if completed {
        return;
      }
      if closeRequested {
        return;
      }
      timedOut := true;
      SubmitClose(sub);
      ReleaseIfIdle();
    }

    /** The callback of an op arrives: --pending_cbs_. */
    method Deliver(op: Op)
      requires op in file.owed
      modifies this`pending, file
      ensures View() == Receive(old(View()), op)
    {
      file.Deliver(op);
      pending := pending - 1;
    }

    method SendStat(sub: Status)
      modifies this, file
      ensures View() == M.SendStat(old(View()), sub)
    {
      Submit(Stat, sub);
      if !sub.ok {
        SetError(Refused(Stat, sub.text), sub.code, sub.errNo);
        Complete();
      }
    }

    /** OnOpen for a session still running. */
    method OpenAnswered(st: Status, server: string, sub: Status)
      modifies this, file
      ensures var w := old(View());
              var named := w.(s := w.s.(dataServer := server));
              View() == if !st.ok then M.Fail(w, Open, false, st)
                        else if w.s.timedOut then M.SubmitClose(named, sub)
                        else M.SendStat(named, sub)
    {
      if !st.ok {
        Fail(Open, false, st);
        return;
      }
      dataServer := server;
      if timedOut {
        SubmitClose(sub);
      } else {
        SendStat(sub);
      }
    }

    method OnOpen(st: Status, server: string, sub: Status)
      requires Open in file.owed
      modifies this, file
      ensures View() == M.OnOpen(opts, old(View()), st, server, sub)
    {
      Deliver(Open);
      if !completed {
        OpenAnswered(st, server, sub);
      }
      ReleaseIfIdle();
    }

    /** The file size fixes the byte budget and where to start. */
    method TakeSize(size: nat) returns (beyond: bool)
      modifies this`fileSize, this`budget, this`remaining, this`nextOffset
      ensures beyond <==> !opts.randomOffset && opts.offset >= size
      ensures View() == if beyond then Sized(opts, old(View()), size) else Ready(opts, old(View()), size)
    {
      fileSize := size;
      budget := Budget(opts, fileSize);
      var limit := fileSize;
      if opts.maxBytes > 0 {
        limit := Min(limit, opts.maxBytes);
      }
      if opts.randomOffset {
        remaining := limit;
        nextOffset := 0;
        return false;
      }
      if opts.offset >= fileSize {
        return true;
      }
      remaining := Min(fileSize - opts.offset, limit);
      nextOffset := opts.offset;
      return false;
    }

    /** OnStat for a session still running. */
    method StatAnswered(st: Status, size: Option<nat>, sub: Status, draws: seq<nat>)
      modifies this, file
      ensures var w := old(View());
              View() ==
              if !st.ok then M.Fail(w, Stat, false, st)
              else if !opts.randomOffset && opts.offset >= SizeOf(size) then
                var w2 := Sized(opts, w, SizeOf(size));
                M.Complete(w2, w2.s.result.(error := BeyondFile, fileSize := SizeOf(size),
                                            dataServer := w2.s.dataServer))
              else M.IssueNext(opts, Ready(opts, w, SizeOf(size)), sub, draws)
    {
      if !st.ok {
        Fail(Stat, false, st);
        return;
      }
      var beyond := TakeSize(if size.Some? then size.value else 0);
      if beyond {
        result := result.(error := BeyondFile, fileSize := fileSize, dataServer := dataServer);
        Complete();
      } else {
        IssueNext(sub, draws);
      }
    }

    method OnStat(st: Status, size: Option<nat>, sub: Status, draws: seq<nat>)
      requires Stat in file.owed
      modifies this, file
      ensures View() == M.OnStat(opts, old(View()), st, size, sub, draws)
    {
      Deliver(Stat);
      if !completed {
        StatAnswered(st, size, sub, draws);
      }
      ReleaseIfIdle();
    }

    /** The delivered length; a missing response object counts as everything or as nothing. */
    method DeliveredLength(response: Option<nat>) returns (got: int)
      ensures got == Got(opts, View().s, response)
    {
      if opts.vectorChunks > 0 {
        got := if response.Some? then response.value else requested;
      } else {
        got := if response.Some? then response.value else 0;
      }
    }

    /** Count the delivered bytes; a short answer ends the reading. */
    method TakeBytes(got: int)
      modifies this`ops, this`deliveries, this`bytesRead, this`nextOffset, this`remaining
      ensures View() == Taken(opts, old(View()), got)
    {
      ops := ops + 1;
      deliveries := deliveries + [Delivery(requested, got)];
      bytesRead := bytesRead + got;
      if !opts.randomOffset {
        nextOffset := nextOffset + got;
      }
      remaining := if got < requested then 0 else remaining - got;
    }

    /** OnRead for a session still running. */
    method ReadAnswered(st: Status, response: Option<nat>, sub: Status, draws: seq<nat>)
      modifies this, file
      ensures var w := old(View());
              View() ==
              if !st.ok then M.Fail(w, Read, opts.vectorChunks > 0, st)
              else M.IssueNext(opts, Taken(opts, w, Got(opts, w.s, response)), sub, draws)
    {
      if !st.ok {
        Fail(Read, opts.vectorChunks > 0, st);
        return;
      }
      var got := DeliveredLength(response);
      TakeBytes(got);
      IssueNext(sub, draws);
    }

    method OnRead(st: Status, response: Option<nat>, sub: Status, draws: seq<nat>)
      requires Read in file.owed
      modifies this, file
      ensures View() == M.OnRead(opts, old(View()), st, response, sub, draws)
    {
      Deliver(Read);
      if !completed {
        ReadAnswered(st, response, sub, draws);
      }
      ReleaseIfIdle();
    }

    method OnClose(st: Status)
      requires Close in file.owed
      modifies this, file
      ensures View() == M.OnClose(old(View()), st)
    {
      Deliver(Close);
      if !completed {
        if timedOut {
          FinishTimedOut(st.code);
        } else if !st.ok {
          Fail(Close, false, st);
        } else {
          FinishOk();
        }
      }
      ReleaseIfIdle();
    }
  }

  lemma {:induction false} TotalLenAppend(chunks: seq<Chunk>, c: Chunk)
    ensures TotalLen(chunks + [c]) == TotalLen(chunks) + c.len
  {
    if chunks == [] {
      assert chunks + [c] == [c];
    } else {
      TotalLenAppend(chunks[1..], c);
      assert (chunks + [c])[1..] == chunks[1..] + [c];
    }
  }
}
