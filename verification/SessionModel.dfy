/** The value-level description of one Open -> Stat -> Read/VectorRead loop -> Close session
    (src/file_session.cc).

    A `World` is the session's own state plus what the XrdCl client library owes it. Every
    locked region of the program (a response handler, `RequestWallTimeout`, `Start`) is one
    function from world to world; the library's choices (does it accept a submission, what
    does it answer, which random offsets are drawn) are arguments.

    Counters that are unsigned in the program are `int` here, so that a subtraction that
    would wrap around shows up as a negative number; SessionTheorems proves there is none. */
module SessionModel {
  import opened Basics

  /** What the caller asks for: file_session.hh, `FileSessionOptions`. */
  datatype Options = Options(chunkSize: nat, offset: nat, maxBytes: nat, vectorChunks: nat, randomOffset: bool)

  /** An XRootDStatus: of a submission, or delivered to a response handler. */
  datatype Status = Status(ok: bool, code: int, errNo: int, text: string)

  /** The four asynchronous requests a session makes. */
  datatype Op = Open | Stat | Read | Close

  /** The error a session reports, before it is put into words by `Message`. */
  datatype Failure =
    | Nothing
    | Refused(op: Op, text: string)
    | Failed(op: Op, vector: bool, text: string)
    | BeyondFile
    | WallTimeoutHit

  /** `FileSessionResult::error`. The two numbers of the beyond-file message are left out. */
  function Message(f: Failure): string {
    match f
    case Nothing => ""
    case Refused(Open, text) => "open submission failed: " + text
    case Refused(Stat, text) => "stat submission failed: " + text
    case Refused(Read, text) => "read submission failed: " + text
    case Refused(Close, text) => "close submission failed: " + text
    case Failed(Open, _, text) => "open failed: " + text
    case Failed(Stat, _, text) => "stat failed: " + text
    case Failed(Read, vector, text) => (if vector then "vector_read failed: " else "read failed: ") + text
    case Failed(Close, _, text) => "close failed: " + text
    case BeyondFile => "offset is beyond file size"
    case WallTimeoutHit => "session wall timeout"
  }

  datatype Result = Result(ok: bool, timedOut: bool, error: Failure, statusCode: int, errCode: int,
                           dataServer: string, fileSize: nat, bytesRead: int, ops: nat)

  const EMPTY_RESULT := Result(false, false, Nothing, 0, 0, "", 0, 0, 0)

  const ETIMEDOUT := 110

  /** One element of a read request: file range [off, off + len), buffer position buf. */
  datatype Chunk = Chunk(off: int, len: int, buf: int)

  /** A read answered before completion: bytes asked for and bytes delivered. */
  datatype Delivery = Delivery(asked: int, got: int)

  /** The members of class FileSession. `calls` lists the results handed to `on_done`. */
  datatype Session = Session(
    pending: int, timedOut: bool, closeRequested: bool, completed: bool, selfKeep: bool,
    fileSize: nat, remaining: int, nextOffset: int, requested: int, bytesRead: int, ops: nat,
    dataServer: string, result: Result, calls: seq<Result>)

  /** The library's side of the session's file: the requests made and those accepted, in order,
      the accepted ones whose callback is still to come, the number of callbacks delivered, and
      the chunk lists of the accepted reads. */
  datatype Wire = Wire(submitted: seq<Op>, accepted: seq<Op>, owed: seq<Op>, answered: nat, plans: seq<seq<Chunk>>)

  /** `deliveries` and `budget` are history: the reads answered before completion, and the byte
      budget that the Stat answer fixed. */
  datatype World = World(s: Session, wire: Wire, deliveries: seq<Delivery>, budget: int)

  // ---- reads -------------------------------------------------------------------------------

  /** The i-th number drawn from the generator; any sequence of draws is possible. */
  function Draw(draws: seq<nat>, i: nat): nat {
    if i < |draws| then draws[i] else 0
  }

  /** random_io.hh: an offset of a `len` window inside the file, 0 when there is no room. */
  function SampleOffset(draw: nat, fileSize: nat, len: int): int {
    if fileSize == 0 || len <= 0 || len >= fileSize then 0 else draw % (fileSize - len + 1)
  }

  /** The bytes of one read operation, without the 32-bit truncation of `OpBytes`. */
  function OpSize(o: Options): nat {
    if o.vectorChunks > 0 then o.chunkSize * o.vectorChunks else o.chunkSize
  }

  /** `OpBytes`: the product is computed in 32 bits; it sizes the receive buffer. */
  function OpBytes(o: Options): nat {
    OpSize(o) % 0x1_0000_0000
  }

  /** The chunk list built for a VectorRead of at most n chunks. */
  function Plan(o: Options, fileSize: nat, n: nat, off: int, left: int, buf: int, draws: seq<nat>, i: nat): seq<Chunk>
    decreases n
  {
    if n == 0 || left <= 0 then [] else
    var len := Min(o.chunkSize, left);
    var at := if o.randomOffset then SampleOffset(Draw(draws, i), fileSize, len) else off;
    [Chunk(at, len, buf)] + Plan(o, fileSize, n - 1, off + len, left - len, buf + len, draws, i + 1)
  }

  function TotalLen(chunks: seq<Chunk>): int {
    if chunks == [] then 0 else chunks[0].len + TotalLen(chunks[1..])
  }

  /** The next read request: a VectorRead's chunk list, or the one range of a plain Read. */
  function NextChunks(o: Options, s: Session, draws: seq<nat>): seq<Chunk> {
    if o.vectorChunks > 0 then Plan(o, s.fileSize, o.vectorChunks, s.nextOffset, s.remaining, 0, draws, 0)
    else
      var len := Min(o.chunkSize, s.remaining);
      [Chunk(if o.randomOffset then SampleOffset(Draw(draws, 0), s.fileSize, len) else s.nextOffset, len, 0)]
  }

  // ---- private steps -----------------------------------------------------------------------

  /** The library's answer to a submission. */
  function Offer(wire: Wire, op: Op, sub: Status): Wire {
    var made := wire.(submitted := wire.submitted + [op]);
    if sub.ok then made.(accepted := wire.accepted + [op], owed := wire.owed + [op]) else made
  }

  /** The list without its first `op`. */
  function Without(ops: seq<Op>, op: Op): (rest: seq<Op>)
    requires op in ops
    ensures |rest| == |ops| - 1
  {
    if ops[0] == op then ops[1..] else [ops[0]] + Without(ops[1..], op)
  }

  /** Deliver one owed callback: the handler's first act is --pending_cbs_. */
  function Receive(w: World, op: Op): World
    requires op in w.wire.owed
  {
    w.(s := w.s.(pending := w.s.pending - 1),
       wire := w.wire.(owed := Without(w.wire.owed, op), answered := w.wire.answered + 1))
  }

  /** ++pending_cbs_, submit, --pending_cbs_ if refused. */
  function Submit(w: World, op: Op, sub: Status): World {
    w.(s := w.s.(pending := if sub.ok then w.s.pending + 1 else w.s.pending), wire := Offer(w.wire, op, sub))
  }

  function Complete(w: World, r: Result): World {
    if w.s.completed then w.(s := w.s.(result := r))
    else w.(s := w.s.(result := r, completed := true, calls := w.s.calls + [r]))
  }

  function ReleaseIfIdle(w: World): World {
    if w.s.pending == 0 && w.s.completed then w.(s := w.s.(selfKeep := false)) else w
  }

  /** CapturePartialCounters, without the timings. */
  function Captured(s: Session): Result {
    s.result.(bytesRead := s.bytesRead, ops := s.ops, dataServer := s.dataServer, fileSize := s.fileSize)
  }

  function Errored(r: Result, error: Failure, code: int, errNo: int): Result {
    r.(error := error, statusCode := code, errCode := errNo)
  }

  function TimedOutResult(s: Session, code: int): Result {
    Errored(Captured(s), WallTimeoutHit, code, ETIMEDOUT).(timedOut := true)
  }

  function Fail(w: World, op: Op, vector: bool, st: Status): World {
    Complete(w, Errored(Captured(w.s), Failed(op, vector, st.text), st.code, st.errNo))
  }

  function SubmitClose(w: World, sub: Status): World {
    if w.s.closeRequested then w else
    var w1 := Submit(w, Close, sub);
    if sub.ok then w1.(s := w1.s.(closeRequested := true))
    else if w1.s.pending > 0 then w1
    else
      var w2 := w1.(s := w1.s.(closeRequested := true));
      Complete(w2, if w2.s.timedOut then TimedOutResult(w2.s, sub.code)
                   else Errored(Captured(w2.s), Refused(Close, sub.text), sub.code, sub.errNo))
  }

  /** Submit one read of the given chunks; a plain read takes its offset from its only chunk. */
  function SendRead(w: World, sub: Status, chunks: seq<Chunk>, plain: bool): World
    requires plain ==> chunks != []
  {
    var w1 := Submit(w, Read, sub);
    var w2 := w1.(s := w1.s.(requested := TotalLen(chunks),
                             nextOffset := if plain then chunks[0].off else w.s.nextOffset));
    if sub.ok then w2.(wire := w2.wire.(plans := w.wire.plans + [chunks]))
    else Complete(w2, Errored(Captured(w2.s), Refused(Read, sub.text), sub.code, sub.errNo))
  }

  function IssueNext(o: Options, w: World, sub: Status, draws: seq<nat>): World {
    if w.s.completed then w else
    var w1 := if w.s.timedOut then w.(s := w.s.(remaining := 0)) else w;
    if w1.s.remaining == 0 then SubmitClose(w1, sub)
    else SendRead(w1, sub, NextChunks(o, w1.s, draws), o.vectorChunks == 0)
  }

  // ---- locked regions ----------------------------------------------------------------------

  const NEW_SESSION := Session(0, false, false, false, false, 0, 0, 0, 0, 0, 0, "", EMPTY_RESULT, [])

  const NEW_WORLD := World(NEW_SESSION, Wire([], [], [], 0, []), [], 0)

  /** Start: take the self reference and submit Open. */
  function Start(sub: Status): World {
    var w := Submit(NEW_WORLD.(s := NEW_SESSION.(selfKeep := true)), Open, sub);
    if sub.ok then w
    else ReleaseIfIdle(Complete(w, Errored(w.s.result, Refused(Open, sub.text), sub.code, sub.errNo)))
  }

  function RequestWallTimeout(w: World, sub: Status): World {
    if w.s.completed || w.s.closeRequested then w
    else ReleaseIfIdle(SubmitClose(w.(s := w.s.(timedOut := true)), sub))
  }

  /** OnOpen goes on to ask for the file size. */
  function SendStat(w: World, sub: Status): World {
    var w1 := Submit(w, Stat, sub);
    if sub.ok then w1 else Complete(w1, Errored(w1.s.result, Refused(Stat, sub.text), sub.code, sub.errNo))
  }

  function OnOpen(o: Options, w: World, st: Status, server: string, sub: Status): World
    requires Open in w.wire.owed
  {
    var w1 := Receive(w, Open);
    ReleaseIfIdle(
      if w1.s.completed then w1
      else if !st.ok then Fail(w1, Open, false, st)
      else
        var w2 := w1.(s := w1.s.(dataServer := server));
        if w2.s.timedOut then SubmitClose(w2, sub) else SendStat(w2, sub))
  }

  /** The bytes this session is to read of a file of the given size. */
  function Budget(o: Options, fileSize: nat): int {
    var budget := if o.maxBytes > 0 then Min(fileSize, o.maxBytes) else fileSize;
    if o.randomOffset then budget
    else if o.offset >= fileSize then 0
    else Min(fileSize - o.offset, budget)
  }

  /** The size in a Stat answer whose response object may be missing. */
  function SizeOf(size: Option<nat>): nat {
    if size.Some? then size.value else 0
  }

  /** OnStat has learnt the file size. */
  function Sized(o: Options, w: World, fileSize: nat): World {
    w.(s := w.s.(fileSize := fileSize), budget := Budget(o, fileSize))
  }

  /** OnStat is about to issue the first read. */
  function Ready(o: Options, w: World, fileSize: nat): World {
    var w1 := Sized(o, w, fileSize);
    w1.(s := w1.s.(remaining := w1.budget, nextOffset := if o.randomOffset then 0 else o.offset))
  }

  function OnStat(o: Options, w: World, st: Status, size: Option<nat>, sub: Status, draws: seq<nat>): World
    requires Stat in w.wire.owed
  {
    var w1 := Receive(w, Stat);
    ReleaseIfIdle(
      if w1.s.completed then w1
      else if !st.ok then Fail(w1, Stat, false, st)
      else if !o.randomOffset && o.offset >= SizeOf(size) then
        var w2 := Sized(o, w1, SizeOf(size));
        Complete(w2, w2.s.result.(error := BeyondFile, fileSize := SizeOf(size), dataServer := w2.s.dataServer))
      else IssueNext(o, Ready(o, w1, SizeOf(size)), sub, draws))
  }

  /** The length reported by a read answer whose response object may be missing. */
  function Got(o: Options, s: Session, got: Option<nat>): int {
    if got.Some? then got.value else if o.vectorChunks > 0 then s.requested else 0
  }

  /** OnRead has taken in `got` bytes: a short answer ends the reading. */
  function Taken(o: Options, w: World, got: int): World {
    w.(s := w.s.(ops := w.s.ops + 1, bytesRead := w.s.bytesRead + got,
                 nextOffset := if o.randomOffset then w.s.nextOffset else w.s.nextOffset + got,
                 remaining := if got < w.s.requested then 0 else w.s.remaining - got),
       deliveries := w.deliveries + [Delivery(w.s.requested, got)])
  }

  function OnRead(o: Options, w: World, st: Status, got: Option<nat>, sub: Status, draws: seq<nat>): World
    requires Read in w.wire.owed
  {
    var w1 := Receive(w, Read);
    ReleaseIfIdle(
      if w1.s.completed then w1
      else if !st.ok then Fail(w1, Read, o.vectorChunks > 0, st)
      else IssueNext(o, Taken(o, w1, Got(o, w1.s, got)), sub, draws))
  }

  function OnClose(w: World, st: Status): World
    requires Close in w.wire.owed
  {
    var w1 := Receive(w, Close);
    ReleaseIfIdle(
      if w1.s.completed then w1
      else if w1.s.timedOut then Complete(w1, TimedOutResult(w1.s, st.code))
      else if !st.ok then Fail(w1, Close, false, st)
      else Complete(w1, Captured(w1.s).(ok := true)))
  }

  // ---- runs --------------------------------------------------------------------------------

  /** What can happen to a started session: an answer from the library, with the fate of the
      one submission the handler may make, or the watchdog asking for the wall timeout. */
  datatype Event =
    | Opened(st: Status, server: string, sub: Status)
    | Statted(st: Status, size: Option<nat>, sub: Status, draws: seq<nat>)
    | ReadDone(st: Status, got: Option<nat>, sub: Status, draws: seq<nat>)
    | Closed(st: Status)
    | WallTimeout(sub: Status)

  /** The library answers only what it owes, and never delivers more than was asked for. */
  predicate Enabled(w: World, e: Event) {
    match e
    case Opened(_, _, _) => Open in w.wire.owed
    case Statted(_, _, _, _) => Stat in w.wire.owed
    case ReadDone(_, got, _, _) => Read in w.wire.owed && (got.Some? ==> got.value <= w.s.requested)
    case Closed(_) => Close in w.wire.owed
    case WallTimeout(_) => true
  }

  /** One event; an event the library cannot produce changes nothing. */
  function Step(o: Options, w: World, e: Event): World {
    if !Enabled(w, e) then w else
    match e
    case Opened(st, server, sub) => OnOpen(o, w, st, server, sub)
    case Statted(st, size, sub, draws) => OnStat(o, w, st, size, sub, draws)
    case ReadDone(st, got, sub, draws) => OnRead(o, w, st, got, sub, draws)
    case Closed(st) => OnClose(w, st)
    case WallTimeout(sub) => RequestWallTimeout(w, sub)
  }

  /** The world after any interleaving of answers and timeouts. */
  function Play(o: Options, w: World, events: seq<Event>): World {
    if events == [] then w else Step(o, Play(o, w, events[..|events| - 1]), events[|events| - 1])
  }
}
