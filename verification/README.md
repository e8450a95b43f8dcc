# Verification model of the read generator

A Dafny model of the engine that drives XRootD read sessions at a target rate: the asynchronous
session protocol and its deadline watchdog, the rate-controlled admission engine with its token
bucket, semaphore, scheduler and sizing policy, the metrics registry with its histogram, and the
site map.

Check everything with `dafny verify dfyconfig.toml`.

## How it is built

Each part that the program updates in place is a class here (`FileSession`,
`SessionDeadlineWatchdog`, `TokenBucket`, `InFlightSemaphore`, `Scheduler`, `MetricsRegistry`,
`Histogram`, `SiteMap`, `RunEngine`). A method's contract ties the new state of the object (`View()`)
to a transition on values, and the theorems are about runs of those transitions:

- **Sessions.** `SessionModel` has one function per locked region of a session (a response handler,
  `Start`, `RequestWallTimeout`). A `World` is the session's fields plus what the client library owes
  it; `Play` runs any list of events. The library accepts or refuses each submission, answers what it
  has accepted in any order, may leave the response object out, and never delivers more than was
  asked for. `SessionInvariants` and `SessionAccounting` hold the invariants, `SessionTheorems` and
  `SessionLiveness` the results, `FileSession` the object.
- **Watchdog.** The list with its in-place compaction, and what became of every session armed.
- **Engine.** `EngineModel` interleaves the admission thread, all sessions, their completion callbacks
  (outcome recorded, tokens settled, no longer live, slot released: four separate steps) and the site
  thread. `EngineInvariants`, `EngineTheorems`, `AdmissionTheorems` and `DrainTheorems` hold the results;
  `RunEngine` is the loop itself, with the other threads' steps between its own.
- **Bucket, sizing, metrics, histogram, site map.** A `...Model` module with the specification and its
  laws, and the object proved against it.

Preconditions the program's own validation guarantees are stated where a result needs them
(`chunk_size >= 1`), and where a property fails without one, the exact condition is a theorem:
the callback bound holds exactly when `chunk_size >= 1`; a target rate is kept exactly when there is a byte
cap (or nothing is ever read); the first `max_inflight` admissions never wait for tokens exactly when, with a
byte cap, the burst holds a pipeline of the largest charges the scheduler can produce (which, unless a mixed
pattern has a vector fraction of zero, is when that product fits in 64 bits), and without one, at most one
session is in flight (or nothing is ever read), since the settlement of the first may empty the bucket for the
second; the receive buffer holds every read exactly when an operation's bytes fit in 32 bits or `max_bytes` is
set and within the wrapped size; a session asked to time out reports a timeout exactly when no other op's error,
nor an offset beyond the file, ends it first.

Three things the code does that its comments do not say: a session that has been asked to time out but
whose op in flight then fails reports that failure, not a timeout (`FailureHidesTimeout`); the metrics' byte
counter counts only successful sessions (the rate bound covers the bytes of failed ones as well); and with
`max_bytes` 0 at a target rate the charge is a guess, so one session can read any amount beyond what the
bucket gave.

## Model

| member | source | states |
|---|---|---|
| SessionTheorems.LifetimeSafety | src/file_session.cc:219-230 | under every interleaving the pending counter equals the callbacks still owed, and the self reference is dropped exactly when the session is completed and none is owed, so no callback runs on a released session |
| SessionTheorems.CompletesExactlyOnce | src/file_session.cc:204-217 | `on_done` has fired once if completed and not at all before; with no callback owed the session is completed, and otherwise the library can deliver one |
| SessionTheorems.CompletionIsFinal | src/file_session.cc:208-217 | nothing after completion calls `on_done` again or changes the result |
| SessionTheorems.CallbackBound | src/file_session.cc:392-499 | with `chunk_size >= 1` a session takes at most 3 + ceil(budget / op size) callbacks |
| SessionTheorems.BoundedExactlyWithChunks | src/file_session.cc:392-441 | callbacks are bounded by the byte budget if and only if `chunk_size >= 1`; with 0 a session reads nothing for ever |
| SessionTheorems.SpinsForever | src/file_session.cc:432-440 | the run that shows it: n empty reads leave a chunk-less session where it was |
| SessionTheorems.OnlyCloseAfterClosing | src/file_session.cc:166-179 | once the wall timeout is set or a Close is accepted, every later request is a Close |
| SessionTheorems.OneClose | src/file_session.cc:232-244 | at most one Close is accepted, and nothing after it |
| SessionTheorems.TimeoutNeverCompletes | src/file_session.cc:172-179 | the watchdog's request never completes a session: it marks it, submits one Close unless one is on its way, and changes nothing else; a refused Close leaves only the mark, with a callback still owed |
| SessionTheorems.RefusedCloseIsRetried | src/file_session.cc:166-179 | after a refused Close of the watchdog, an error of the op in flight ends the session with that op's own failure; otherwise its handler submits Close again, and a second refusal completes as timed out |
| SessionTheorems.TimedOutSessionWindsDown | src/file_session.cc:234-257 | what every answer does after the wall timeout, a Close accepted or not: the op's failure, an offset beyond the file, waiting for the Close on its way, or a new Close |
| SessionTheorems.ReportsTimeoutExactly | src/file_session.cc:292-533 | a session asked to time out reports a timeout if and only if the Close's answer ends it, or an answer without error that does not put the offset beyond the file; else it reports that op's error |
| SessionTheorems.FailureHidesTimeout | src/file_session.cc:343-348 | the run that shows it: the watchdog asks for the timeout, then Stat fails, and the result is Stat's failure, not a timeout |
| SessionTheorems.ReadsTileTheFile | src/file_session.cc:404-441 | the j-th read asks for the j-th piece of the budget, in at most `vector_chunks` chunks that partition the front of the buffer; sequentially it reads exactly that file range, and in either mode stays in the file |
| SessionTheorems.BytesAddUp | src/file_session.cc:357-388 | bytes read are the sum of delivered lengths, within the file from the offset on and within `max_bytes`; an ok session without a short read got min(file size - offset, `max_bytes` if set), in random mode min(file size, `max_bytes` if set) |
| SessionTheorems.BudgetInPlainWords | src/file_session.cc:353-388 | the budget of a session: in sequential mode min(file size - offset, `max_bytes` if set), in random mode min(file size, `max_bytes` if set) |
| SessionTheorems.SessionGoesOn | src/file_session.cc:292-499 | for every answer in a reachable session that is neither over nor asked to time out: an error ends it with that op's failure and codes; else Open leads to Stat, Stat to the first read or the Close, a full read to the next or the Close, a short one to the Close, and Close ends it ok; a refused submission ends it |
| SessionTheorems.StartAsksForOpen | src/file_session.cc:141-162 | Start submits Open; a refusal ends the session with its text and codes |
| SessionTheorems.SessionLearns | src/file_session.cc:292-497 | only a successful answer to Open sets the data server, only one to Stat the file size, and only one to a read adds an operation and its bytes; no other event changes any of these |
| SessionTheorems.ResultConsistent | src/file_session.cc:188-290 | the result is ok with an empty error, or not ok with a text; ok excludes a wall timeout; it is a timeout exactly with that error, and then with its code; its bytes are those delivered, its operations the reads answered, its data server and file size those learned, unless Stat could not be submitted |
| SessionTheorems.AnswersCounted | src/file_session.cc:562-566 | the answered counter is the number of callbacks that reached the session |
| SessionInvariants.ProtocolStep | src/file_session.cc:292-533 | every handler keeps: Open, Stat, reads, then at most one Close; one op in flight, or that op and the watchdog's Close |
| SessionInvariants.OutcomeStep | src/file_session.cc:188-290 | every handler keeps the result of a completed session consistent with its fields, and no result before |
| SessionInvariants.LateStep | src/file_session.cc:295-301 | a callback after completion only takes itself off the count |
| SessionAccounting.AccountingStep | src/file_session.cc:333-499 | every handler keeps the account: what is left, what was asked, where the next read starts |
| SessionLiveness.CooperationSucceeds | src/file_session.cc:270-290 | for any options with chunks and any file with something to read there is a run that ends ok with min(file size - offset, `max_bytes` if set) bytes, in random mode min(file size, `max_bytes` if set) |
| SessionLiveness.FullAnswersSucceed | src/file_session.cc:452-499 | full answers alone bring a reading session to a successful end |
| SessionReads.PackedCoversOnce | src/file_session.cc:409-429 | each position of the buffer range belongs to exactly one chunk |
| SessionReads.NextChunksGood | src/file_session.cc:403-440 | the next request asks for min(remaining, op size), partitions that part of the buffer, and is in bounds |
| SessionReads.EachChunkItsOwnDraw | src/file_session.cc:409-429 | in random mode each chunk of a vector read has an offset drawn for it alone |
| SessionReads.SampleInBounds | include/readgen/random_io.hh:9-16 | a sampled window lies in the file |
| SessionReads.SampleReachesEveryOffset | include/readgen/random_io.hh:9-16 | every window that fits can be sampled |
| SessionTheorems.BufferSufficesExactly | src/file_session.cc:184-186 | the buffer, sized in 32 bits, holds every read request of every run if and only if an operation's bytes are below 2^32 or `max_bytes` is set and within the wrapped size |
| SessionTheorems.BufferOverrun | src/file_session.cc:144 | the run that shows it: the file is one byte longer than the buffer |
| SessionTheorems.RequestBounds | src/file_session.cc:404-434 | no request of any run asks for more than an operation's bytes or than `max_bytes` |
| FileSessionObject.FileSession.Start | src/file_session.cc:141-162 | the object makes the transition `Start` |
| FileSessionObject.FileSession.Complete | src/file_session.cc:208-217 | only the first call marks the session completed and calls `on_done` |
| FileSessionObject.FileSession.ReleaseIfIdle | src/file_session.cc:222-230 | drops the self reference when completed with no callback pending, else changes nothing |
| FileSessionObject.FileSession.Fail | src/file_session.cc:259-268 | completes with the counters so far and the failure of the op |
| FileSessionObject.FileSession.FinishOk | src/file_session.cc:270-290 | completes ok with the counters so far |
| FileSessionObject.FileSession.RequestWallTimeout | src/file_session.cc:172-179 | the object makes the transition `RequestWallTimeout` |
| FileSessionObject.FileSession.SubmitClose | src/file_session.cc:234-257 | the set-submit-roll-back sequence amounts to the transition `SubmitClose` |
| FileSessionObject.FileSession.BuildChunks | src/file_session.cc:404-430 | the chunk loop builds the plan that the read lemmas are about, and its byte count |
| FileSessionObject.FileSession.IssueNext | src/file_session.cc:392-450 | the object makes the transition `IssueNext` |
| FileSessionObject.FileSession.SendRead | src/file_session.cc:402-450 | submits one read; a refusal completes the session with the counters so far |
| FileSessionObject.FileSession.TakeSize | src/file_session.cc:350-388 | the file size fixes the budget, what remains and where to start, or shows the offset to be beyond the file |
| FileSessionObject.FileSession.DeliveredLength | src/file_session.cc:480-489 | the delivered length; a missing response object means all for a VectorRead and nothing for a Read |
| FileSessionObject.FileSession.TakeBytes | src/file_session.cc:472-497 | counts the bytes and moves on; a short answer ends the reading |
| FileSessionObject.FileSession.SendStat | src/file_session.cc:321-330 | asks for the file size; a refusal completes the session |
| FileSessionObject.FileSession.OnOpen | src/file_session.cc:292-331 | the object makes the transition `OnOpen` |
| FileSessionObject.FileSession.OnStat | src/file_session.cc:333-390 | the object makes the transition `OnStat` |
| FileSessionObject.FileSession.OnRead | src/file_session.cc:452-499 | the object makes the transition `OnRead` |
| FileSessionObject.FileSession.OnClose | src/file_session.cc:501-533 | the object makes the transition `OnClose` |
| Watchdog.EveryEntryHasOneFate | src/file_session.cc:572-611 | over any run each armed session is waiting, was asked to time out, was dropped or was cleared: exactly one of these; asked by a pass that found it running, not before the deadline its own Arm had set; dropped by a pass that found it gone or completed; cleared by a shutdown that found it in the list |
| Watchdog.PassDecides | src/file_session.cc:582-597 | in every run, a pass asks each session found running to time out if its deadline has come, keeps it if not, and drops any other |
| Watchdog.ArmingAndShutDown | src/file_session.cc:71-95 | what arming, a shutdown and its end do to the list in any run, and that nothing is armed or pruned in between |
| Watchdog.FiredOnce | src/file_session.cc:599-602 | once a session has been asked to time out, nothing in the rest of the run changes that record, and no later pass finds it expired again |
| Watchdog.SelectMember | src/file_session.cc:582-597 | which entries have a given fate in a pass |
| Watchdog.SelectKeepsOrder | src/file_session.cc:594-597 | the compaction keeps the order of the entries |
| Watchdog.SelectSplits | src/file_session.cc:582-597 | a pass sorts the entries into kept, expired and dropped without loss or overlap |
| Watchdog.SleepIsShort | src/file_session.cc:606-609 | the wait is at least 1 ms and at most max(1 ms, min(1 s, time to each kept deadline)) |
| Watchdog.WaitExactly | src/file_session.cc:606-608 | the wait is the time left to the next deadline wherever that is between 1 ms and 1 s, else the nearer of the two |
| Watchdog.SessionDeadlineWatchdog.Arm | src/file_session.cc:71-83 | a positive timeout adds one entry unless shutting down |
| Watchdog.SessionDeadlineWatchdog.BeginShutDown | src/file_session.cc:85-90 | the first shutdown clears the list |
| Watchdog.SessionDeadlineWatchdog.EndShutDown | src/file_session.cc:91-95 | after the join a later run may start again |
| Watchdog.SessionDeadlineWatchdog.Compact | src/file_session.cc:580-597 | the in-place loop leaves exactly the kept entries, returns exactly the expired ones and the earliest kept deadline |
| Watchdog.SessionDeadlineWatchdog.Prune | src/file_session.cc:574-602 | one pass is the transition `Pass` |
| Watchdog.SessionDeadlineWatchdog.WaitTime | src/file_session.cc:606-608 | the wait is the time to the next deadline, clamped to 1 ms and 1 s |
| BucketModel.WindowBound | src/token_bucket.cc:14-71 | in any window, tokens taken minus tokens given back are at most capacity + rate * length |
| BucketModel.WindowBoundInHistory | src/token_bucket.cc:14-71 | the same for a window in a longer history, whatever came before |
| BucketModel.WindowBoundIsTight | src/token_bucket.cc:14-30 | and some run takes exactly that much |
| BucketModel.LevelStaysInRange | src/token_bucket.cc:14-20 | the level stays in [0, capacity] and the clock mark never goes back, whatever stale reading is used |
| BucketModel.IdleBucketFills | src/token_bucket.cc:14-20 | after any looks and failed takes, with whatever readings, the level is min(capacity, level before + rate * time to the latest reading) |
| BucketModel.TakeSucceedsExactly | src/token_bucket.cc:22-30 | a take of n succeeds if and only if n is at most the capacity and at most the level plus rate * time since the mark |
| BucketModel.RefusedOnlyWhenShort | src/token_bucket.cc:22-64 | a caller that is alone is refused at a reading if and only if the level it found plus rate * time since then is less than it asks for, however often it has looked |
| BucketModel.AccessExactly | src/token_bucket.cc:14-71 | level and mark after any access, in terms of level, rate and elapsed time |
| BucketModel.RefundRaises | src/token_bucket.cc:66-71 | a refund that fits raises the level by all of it |
| TokenBucketObject.TokenBucket.RefillUnlocked | src/token_bucket.cc:14-20 | the object makes the transition `Refill` |
| TokenBucketObject.TokenBucket.TryAcquire | src/token_bucket.cc:22-30 | takes n or nothing, and says which |
| TokenBucketObject.TokenBucket.Refund | src/token_bucket.cc:66-71 | the object makes the transition `GiveBack` |
| TokenBucketObject.TokenBucket.Attempt | src/token_bucket.cc:38-45 | a round's first locked region, after others ran: takes n or nothing |
| TokenBucketObject.TokenBucket.Deficit | src/token_bucket.cc:50-55 | a round's second locked region, with a reading that may be old: takes nothing, returns what is missing |
| TokenBucketObject.TokenBucket.NapLength | src/token_bucket.cc:58-62 | the sleep is the longest in whole nanoseconds in which the deficit does not more than refill, unless the deadline or 20 ms cuts it short; it is never negative |
| TokenBucketObject.TokenBucket.AcquireUntil | src/token_bucket.cc:32-64 | against any other takers it ends; it tries in every round, with that round's clock reading; on true exactly n tokens were taken by this call, on false none; false only if n exceeds the capacity or the deadline has passed |
| RunConfig.AutoSizeIsMin | src/run_config.cc:40-43 | round up, or down when that breaches the ceiling, is the smaller of both roundings |
| RunConfig.AutoSizeInBounds | src/run_config.cc:23-44 | a positive multiple of the chunk, at most max(chunk, ceiling), at least four chunks when the ceiling allows |
| RunConfig.AutoSizeMonotone | include/readgen/run_config.hh:66-69 | never smaller at a higher rate, never larger with more sessions in flight |
| RunConfig.AutoSizeInPlainWords | src/run_config.cc:30-43 | less than a chunk from eight seconds of one session's part of the rate, between four chunks and min(two seconds of the rate, 32 MB) |
| RunConfig.ChargeInPlainWords | src/run_config.cc:46-58 | the cap, or sixteen chunks without one; at least one read for a vector session |
| RunConfig.BurstInPlainWords | src/run_config.cc:60-69 | the largest of two seconds of the rate, one charge and the pipeline of charges, unless that overflows |
| RunConfig.ChargeFitsBurst | src/run_config.cc:60-69 | every charge fits the bucket, even if the 64-bit product wraps around |
| RunConfig.ChargeCoversMaxBytes | src/run_config.cc:46-58 | the charge covers the byte cap |
| RunConfig.BurstCoversPipeline | include/readgen/run_config.hh:75-78 | the bucket holds a whole pipeline of charges if and only if their product fits in 64 bits |
| RunConfig.ResolveRunConfig | src/run_config.cc:71-83 | rejects exactly the uncapped configurations without an explicit size; else fills in the automatic size |
| Scheduler.Scheduler.Next | src/scheduler.cc:9-46 | every item obeys the configuration and follows the draws; its charge covers the cap and one op and fits the bucket |
| Scheduler.AllowedExactly | src/scheduler.cc:22-45 | the items the engine may be given are exactly those some draws produce |
| Scheduler.DrawsDecide | src/scheduler.cc:15-44 | the pattern fixes how a session reads; a mixed one is random if the first draw is below one half, vector if the second is below the vector fraction |
| InFlight.InFlightSemaphore.Acquire | src/inflight.cc:9-15 | takes a slot if and only if one is free, and keeps the peak |
| InFlight.InFlightSemaphore.Release | src/inflight.cc:17-23 | gives a slot back, never below zero |
| EngineTheorems.RateBound | src/run_command.cc:253-314 | with a rate and a byte cap, charges of unsettled sessions plus bytes of settled ones never exceed burst + rate * elapsed, and the metrics' bytes are part of that |
| EngineTheorems.LevelFollowsAccount | src/run_command.cc:253-306 | at a rate the level is never below capacity less what is drawn (open charges and settled bytes), with a byte cap never above that by more than rate * elapsed, and equal to it until the clock moves |
| AdmissionTheorems.RateObeyedExactlyWithByteCap | src/run_command.cc:301-306 | at a target rate, every run keeps to it if and only if there is a byte cap, or no chunks and so nothing to read |
| AdmissionTheorems.UncappedRun | src/run_command.cc:301-306 | the run that shows it: without a cap one session reads a file of any size at once |
| EngineTheorems.SettlementNeverTakes | src/run_command.cc:301-306 | with a byte cap no session reads more than its charge, so the extra take never happens |
| EngineTheorems.SlotConservation | src/run_command.cc:253-313 | live <= slots in use <= peak <= cap; slots in use are those of the admission thread, of live sessions, and of callbacks between live-- and Release; a Release always finds a slot |
| EngineTheorems.SlotsAfterDrain | src/run_command.cc:308-331 | with admission stopped and nothing live, the slots in use are those of callbacks about to release theirs, and none if there is no such callback |
| EngineTheorems.AllSlotsReturn | src/run_command.cc:308-313 | when admission has stopped and every callback is through, nothing is live and no slot is in use |
| DrainTheorems.NeverStuck | src/run_command.cc:266-313 | while some session's callback is not through, the library can answer or a callback can go on |
| DrainTheorems.ProgressIsBounded | src/run_command.cc:253-331 | with chunks, no run makes more such steps than the callbacks its sessions can take and four per completion |
| DrainTheorems.DrainEnds | src/run_command.cc:317-331 | with a byte cap, once admission has stopped only so many such steps are left, and when none is possible every callback is through and every slot back |
| EngineTheorems.PeakIsRunningMaximum | src/inflight.cc:12-13 | the reported peak is the largest number of slots ever in use |
| EngineTheorems.MetricsConsistent | src/run_command.cc:266-276 | each ended session is counted once, a success with its bytes and operations; error classes add up to failures, none of class None; the servers' counters add up to the global ones |
| EngineTheorems.RegistryIsHistory | src/run_command.cc:266-276 | the registry is what the outcomes of the sessions recorded, in their order, with the server each reports, and the remappings make of it |
| EngineTheorems.ServersOfRun | src/metrics.cc:120-165 | in every run each data server's counters are the sums over exactly the sessions that report it |
| EngineTheorems.TimeoutsCountAsTimeouts | src/run_command.cc:274-276 | a session that reports a wall timeout is counted in the class of timeouts |
| EngineTheorems.ChargeAlwaysFits | src/token_bucket.cc:34-35 | admission never meets the rejection for a charge above the capacity |
| AdmissionTheorems.FirstAdmissionsDoNotWait | include/readgen/run_config.hh:75-78 | if the burst holds a pipeline of the largest possible charges, the first `max_inflight` admissions get their tokens at the first try as long as no settled session has read more than its charge |
| AdmissionTheorems.FirstAdmissionsExactlyIfPipelineIsSafe | src/run_config.cc:60-69 | for every configuration, the first `max_inflight` admissions never wait in any run if and only if there is no rate; or a byte cap and a burst that holds such a pipeline; or no byte cap, and at most one session in flight or nothing to read |
| AdmissionTheorems.UncappedWaits | src/run_command.cc:301-306 | the run that shows the last part: the first session reads as much as the bucket holds, its settlement takes the rest, and the second admission waits |
| AdmissionTheorems.FullBurstMayWait | src/run_command.cc:301-306 | a configuration without a byte cap whose burst holds the whole pipeline, and whose second admission may wait all the same |
| AdmissionTheorems.FirstAdmissionsExactlyWithoutOverflow | src/run_config.cc:65-68 | at a rate and unless a mixed pattern has a vector fraction of zero: with a byte cap, if and only if the pipeline's charge fits in 64 bits; without, as above |
| AdmissionTheorems.OverflowMayBeHarmless | src/run_config.cc:62-65 | with a vector fraction of zero the product may overflow and admission still never waits |
| EngineTheorems.InvKept | src/run_command.cc:253-314 | sessions, slots, bucket, token account and metrics stay consistent over every run |
| EngineInvariants.SettledWithinCharge | src/run_command.cc:301-306 | a completed session of a capped run has read no more than its charge |
| EngineInvariants.TokensStep | src/run_command.cc:253-314 | every step keeps the token account: drawn plus still available is at most what the bucket gave |
| EngineInvariants.SlotsStep | src/run_command.cc:253-313 | every step keeps the slot count |
| EngineInvariants.MetricsStep | src/run_command.cc:266-276 | every step keeps the metrics equal to the outcomes recorded |
| EngineInvariants.LevelStep | src/token_bucket.cc:32-45 | every step keeps the level at or above the capacity less what is drawn |
| EngineInvariants.FailureHasClass | src/error_classifier.cc:103-104 | a failed session's error never classifies as None |
| RunEngineObject.RunEngine.RecordOutcome | src/run_command.cc:266-276 | the first part of the completion callback is the step `Recorded` |
| RunEngineObject.RunEngine.SettleTokens | src/run_command.cc:301-306 | the second part is the step `TokensSettled` |
| RunEngineObject.RunEngine.RetireSession | src/run_command.cc:308-309 | the third part is the step `Retired` |
| RunEngineObject.RunEngine.FreeSlot | src/run_command.cc:310 | the last part is the step `SlotFreed` |
| RunEngineObject.RunEngine.PickItem | src/run_command.cc:256 | the next item is what the scheduler produces from its draws |
| RunEngineObject.RunEngine.TryCharge | src/run_command.cc:257 | one locked try for the charge is the step `ChargeTried` |
| RunEngineObject.RunEngine.GiveUp | src/run_command.cc:257-260 | without tokens the slot goes back and admission stops |
| RunEngineObject.RunEngine.Launch | src/run_command.cc:262-266 | one more session is live and started |
| RunEngineObject.RunEngine.AwaitSlot | src/inflight.cc:9-15 | waits while others run, found full every time before; fails only at the deadline with no slot free |
| RunEngineObject.RunEngine.Deficit | src/token_bucket.cc:47-55 | after a failed try other threads may run again before the level is looked at, with a clock reading from before that |
| RunEngineObject.RunEngine.AwaitTokens | src/token_bucket.cc:32-64 | ends with the item charged, or uncharged with the deadline passed or the charge above capacity; one try in each round; no sleep goes past the deadline or over 20 ms |
| RunEngineObject.RunEngine.AwaitCharge | src/run_command.cc:256-260 | picks an item and waits for its tokens; only the deadline ends that without them |
| RunEngineObject.RunEngine.AdmitOne | src/run_command.cc:254-265 | one round of admission: a session started, or the deadline reached |
| RunEngineObject.RunEngine.Admit | src/run_command.cc:253-314 | the admission loop ends only when the clock has reached the deadline, having waited only where no slot was free or no tokens were; whatever others do meanwhile its history is a run of the engine |
| RunEngineObject.RunEngine.Drain | src/run_command.cc:317-331 | the drain wait ends with no live session or at its deadline |
| RunEngineObject.Run | src/run_command.cc:253-331 | admission goes on until the deadline; the whole run keeps the rate bound on open charges and settled bytes, ok or failed, the account of slots, and the conservation of metrics |
| RunEngineObject.Summarize | src/run_command.cc:403-425 | per-site sums plus the totals of unmapped servers equal the global counters |
| HistogramModel.PercentileFindsOrderStatistic | src/metrics.cc:21-41 | for any n observations and 0 < p <= 1 the bucket of the ceil(p n)-th smallest is chosen and the value lies inside it |
| HistogramModel.PercentileMonotone | src/metrics.cc:21-41 | the percentile never decreases in p, at p = 0 with an empty first bucket included |
| HistogramModel.InterpolationIsLinear | src/metrics.cc:32-38 | inside the chosen bucket the value's distance from the lower end is to the width as the target's from the observations below is to those inside |
| HistogramModel.BucketEnds | src/metrics.cc:33-34 | a bucket ends at its bound, the open-ended one at twice the last |
| HistogramModel.NothingObserved | src/metrics.cc:22 | no observations give zero |
| HistogramModel.LatencyBoundsIncrease | include/readgen/metrics.hh:25-29 | the bucket bounds are positive and increasing |
| HistogramObject.FindBucket | src/metrics.cc:12-17 | the first bucket whose bound is not below the value, else the last |
| HistogramModel.BucketHolds | src/metrics.cc:12-17 | a reading does not exceed its bucket's bound and exceeds all before |
| HistogramObject.Histogram.Observe | src/metrics.cc:43-49 | adds the clamped reading to exactly one bucket, the count and the sum |
| HistogramObject.ClampedValue | src/metrics.cc:44 | a finite non-negative reading counts as it is, any other as zero |
| HistogramObject.SumIsClose | src/metrics.cc:45-46 | the sum kept in microseconds is the sum of the observations, short of less than a microsecond each |
| HistogramObject.Histogram.TakeSnapshot | src/metrics.cc:51-61 | the snapshot tallies exactly the observations made |
| HistogramObject.HistogramPercentile | src/metrics.cc:21-41 | the walk over the buckets computes the percentile the lemmas are about |
| MetricsModel.AttributionConserves | src/metrics.cc:120-190 | after any observations and remappings each quantity adds up over the servers, and error classes to failures |
| MetricsModel.EachServerItsOwn | src/metrics.cc:120-141 | after any observations each server has exactly the bytes, successes, failures and error classes of the sessions that name it, "unknown" also of those that name none, and is listed if and only if there is one |
| MetricsModel.TotalsAreTallies | src/metrics.cc:143-165 | the global counters are the sums over all sessions observed |
| MetricsModel.SessionKeepsSite | src/metrics.cc:125-131 | a session never replaces the site of a server that has one; else it gives its own, else the map's; other servers keep everything |
| MetricsModel.RemapSetsSite | src/metrics.cc:183-190 | remapping sets the site of a known server and nothing else |
| MetricsModel.RemapIgnored | src/metrics.cc:184-188 | without a server, a site or an entry it changes nothing |
| MetricsObject.MetricsRegistry.ObserveSessionOk | src/metrics.cc:143-156 | one success is counted globally, with its bytes and operations, and for its server, whose site is its first site or the map's answer; each of the four histograms gets its reading, so that they hold one per success |
| HistogramObject.SessionTimings.Observe | src/metrics.cc:149-152 | each histogram gets its own of the four readings |
| MetricsObject.MetricsRegistry.ObserveSessionFail | src/metrics.cc:158-165 | one failure is counted globally and for its server |
| MetricsObject.MetricsRegistry.SetCmsSite | src/metrics.cc:183-190 | attaches a site to a known server and touches no counter |
| MetricsObject.MergeErrors | src/metrics.cc:257-259 | error counts are added class by class |
| MetricsObject.RollUp | src/metrics.cc:249-260 | each site has the sums of its servers, and sites plus unmapped servers account for all |
| MetricsObject.UnmappedTotals | src/run_command.cc:415-425 | the sums over the servers without a site |
| MetricsObject.SitesAccountForTotals | src/metrics.cc:236-260 | sites plus unmapped servers equal the global counters, whatever the remapping order |
| ErrorClassifier.NoneMeansNoError | src/error_classifier.cc:42-105 | an error is classified None if and only if message and both codes are empty |
| ErrorClassifier.ContainsMeans | src/error_classifier.cc:47-49 | a word is found if and only if it stands anywhere in the message |
| ErrorClassifier.WordsDecide | src/error_classifier.cc:46-101 | words decide before most codes, in the order of the classes |
| ErrorClassifier.CodeDecides | src/error_classifier.cc:46-104 | without such words the code decides, class by class, both ways |
| ErrorClassifier.WallTimeoutIsTimeout | src/error_classifier.cc:65-69 | the message and code of a wall timeout have no other class's words and are a timeout |
| ErrorClassifier.NamesDiffer | src/error_classifier.cc:16-40 | classes have different names, so tables keyed by name are keyed by class |
| SiteMapModel.LongestMatchUnique | src/site_map.cc:49-50 | no tie of length can be observed |
| SiteMapModel.AnswerUnique | src/site_map.cc:56-77 | the rules determine the answer |
| SiteMapModel.OrderIrrelevant | src/site_map.cc:36-54 | mappings of distinct keys give the same rules in any order |
| SiteMapModel.LastMappingWins | src/site_map.cc:36-54 | a key has the site of the last mapping offered for it, and only keys with a mapping have one |
| SiteMapModel.WildcardCovers | src/site_map.cc:68-74 | "*.domain" covers exactly the names with something in front of ".domain" |
| SiteMapModel.CaseInsensitive | src/site_map.cc:14-19 | names that differ only in the case of letters get the same answer |
| SiteMapModel.NormalizeForgetsCase | src/site_map.cc:14-19 | two names have the same key if and only if they differ only in the case of letters |
| SiteMapModel.HostnameStripsPort | src/site_map.cc:23-34 | host:port gives host |
| SiteMapModel.HostnameKeepsBrackets | src/site_map.cc:25-29 | a bracketed address is kept up to its bracket |
| SiteMapModel.HostnameLeavesOthers | src/site_map.cc:23-34 | a name without a colon, with several, or with an open bracket is left alone |
| SiteMapObject.SiteMap.Add | src/site_map.cc:36-54 | keeps table and sorted list equal to the rules of all mappings offered, the last of a key winning |
| SiteMapObject.SiteMap.AddSuffix | src/site_map.cc:41-51 | a known suffix gets the new site, a new one is inserted, and the list stays sorted and free of duplicates |
| SiteMapObject.SiteMap.FirstSuffix | src/site_map.cc:68-74 | the first suffix in the list that fits is the longest that fits |
| SiteMapObject.SiteMap.Lookup | src/site_map.cc:56-77 | exact name, else exact host, else the longest strictly shorter matching suffix, else nothing |
| SiteMapObject.SortByLength | src/site_map.cc:49-50 | the same rules, longest suffix first, whatever happens to ties |
| SiteMapObject.NormalizeKey | src/site_map.cc:14-19 | lower-cases the ASCII letters |

## Left out

- Wall-clock, latency and throughput fields of a result, the URL, the redirect count: derived values
  without protocol content.
- The generator behind the random draws and the uniformity of its draws: any draw is possible.
- The two numbers in the beyond-file message, the contents of the read buffer, a missing status object.
- The position of a completion callback inside the handler that completes the session: the callback's four
  parts are steps of their own, after the handler's locked region and before any other event of that session.
- RunEngineObject.RunEngine.MoveSession: the engine holds its sessions as values, so aliasing between
  the engine and a session object is not captured; the session object is proved on its own.
- The link between a session's own deadline and its timeout: in a session's run the wall timeout may come at
  any time, and the watchdog's deadlines are modelled on their own.
- Thread start and join, condition-variable wake-ups: a wait ends when its condition or deadline does.
- RunEngineObject.RunEngine.AwaitTokens: the same loop as TokenBucketObject.TokenBucket.AcquireUntil, once with the
  engine's other threads between its locked regions and once with arbitrary takers of the bucket; the two share
  TryAcquire, Lack and NapLength.
- The 64-bit width of file sizes, offsets and byte counters: only the products that the sizing code really can
  overflow are wrapped.
- BucketModel.WindowBound: tokens are real numbers, so the rounding of floating-point tokens is not modelled.
- HistogramModel.PercentileFindsOrderStatistic: over real numbers, so rounding at a bucket edge is not modelled.
- RunConfig.AutoSizeIsMin: the floating-point division is exact division rounded down.
- MetricsObject.MetricsRegistry.ObserveSessionOk: relaxed atomics and the locked table are one step, so sums hold
  when no observation is half done.
- RunEngineObject.RunEngine.RecordOutcome: the engine's sessions carry no timings, so it counts the outcome without
  feeding the histograms; soft faults are not kept.
- The snapshot timer, the file and push sinks, printing, logging and the command line.
- Loading site maps and file lists from disk, workload validation, unit parsing.
- probe_command, a second and simpler client of the same semaphore and session.
