# lway: a verified model of the supervisor daemon

lway is a single-threaded process supervisor: one event loop drives a state machine per app, a state
machine per control or log connection, and one fixed-size log ring per app. This project models that
loop and everything it calls, as imperative Dafny where the daemon changes things in place, and
proves what the parts promise each other, over every run.

How the modules build on each other:

* `DoubledMapping`, `LogRing`: the doubly mapped file and the ring in it. Every ring carries the
  unbounded log it stands in for as a ghost sequence (`history`), and refines it.
* `LogReader`: what a slow reader of such a ring has seen; laws over every interleaving of appends,
  subscriptions and partial writes, for any number of readers.
* `LogWire`, `LogIpc`: the log socket. Each connection's ghost reader obeys those laws, and no
  connection is ever stuck.
* `Restart`, `Lifecycle`, `LifecycleRuns`: restart delays, the app state machine as a function of the
  events that happen to an app, and theorems over whole runs of it.
* `TokenSlab`: the slab of event tokens with a ghost ledger of who holds which token, and of what was
  leaked by which failures.
* `Apps`, `Fleet`: the app object, updated in place. Its `Valid()` says that the object is exactly
  where the state machine takes it after everything that has happened to it, so the theorems over
  runs hold of the object at any time. `Fleet` has the passes over all apps.
* `Framing`, `ControlIpc`, `ControlServer`: the control socket, its lines, requests and replies.
* `DaemonSteps`: the daemon as a state machine over values. A `World` is all there is to say about it at
  one moment; `EventStep` says what each event makes of it, and a `Turn` is one iteration: the events in
  order, then the push, the restart phase and the shutdown phase.
* `DaemonRuns`, `DaemonTiming`, `DaemonService`: theorems about any number of iterations: restarts and
  shutdown, requests to start and stop, what only grows; when restarts come; what connections get.
* `DaemonEvents`, `DaemonRequests`, `DaemonStreams`, `DaemonTurns`: what single events and whole iterations
  come to, written out in states, bytes and numbers instead of in terms of the rules the steps are defined by.
* `Daemon`: the main loop over the objects. Each event it handles is an `EventStep`, each iteration a
  `Turn`, so that the theorems hold of it.
* `Config`: splitting and joining of commands and environment entries.
* `Basics`, `Remainders`, `Kernel`: vocabulary, modular arithmetic, and the environment.

What the system answers is an input. It comes with the event or with the return of `poll`: what arrives on
a socket, what a pipe holds and after how many bytes a splice out of it fails (`Kernel.Pipe`), how much a
socket takes and whether it then blocks or breaks (`Kernel.Outlet`), whether a change of interest is
accepted (`Kernel.Link`), which pending connections can be registered, what `waitpid` reports and when, and
the readings of the clock. For each app it says how each of its launches goes and which signals are
delivered (`Kernel.Host`). Whatever is proved holds for all such inputs, and no failure is put down to the
system that the input does not hold. What is left open is how a transfer is cut into single calls: a splice
moves at least one byte while the pipe yields any, and reports end of file or "would block" only when it is
empty; a write of a non-empty slice accepts at least one byte while the socket takes any.

## Main results

* A reader's deliveries are the log up to its cursor without what was overwritten before it could be
  sent, and they are the log itself exactly if it was never found lagging by more than the capacity
  (`LogReader.Run`, `LogReader.CompleteIffPrompt`). Every connection of the log server is such a reader,
  is sent on from where it was exactly as far as its socket takes it (`LogIpc.LogServer.TrySend`,
  `LogIpc.SendServes`), and over any number of iterations never takes back or repeats anything
  (`DaemonRuns.HistoryGrows`).
* A log request whose socket takes everything is answered in the same event with exactly the retained
  bytes (`DaemonService.LogRequestIsAnswered`). When the loop goes back to sleep no log connection is stuck
  (`DaemonService.NobodyIsStuck`), every follower whose socket took everything is caught up
  (`DaemonService.FollowersAreCaughtUp`), and whoever waits for a writable event is registered for one
  unless the system refused that (`DaemonService.EveryoneIsServed`).
* Every token out has exactly one holder. At most three tokens are leaked for each launch or
  registration that failed, and while none has failed the tokens out are exactly three per running app
  and one per connection (`Daemon.Runtime.SoundHere`, `DaemonRuns.LeaksArePaidFor`).
* After an explicit stop nothing but an explicit start brings an app up, in any life of an app and in any
  history of the loop (`LifecycleRuns.StoppedForGood`, `DaemonRuns.StopRequestIsKept`); a streak of failures
  brings at most the allowed number of restarts; waits along a streak only grow, up to the cap
  (`LifecycleRuns.RestartsPerStreakAreBounded`, `LifecycleRuns.StreakWaitsGrow`).
* No restart comes before the delay of its streak has gone by since the exit that scheduled it, in any
  life of an app (`LifecycleRuns.RestartsWait`) and in any history of the loop
  (`DaemonTiming.RestartsAreDue`).
* Every exit reported to the loop is handled in the iteration it is reported in
  (`DaemonRuns.ExitIsHandled`), with all that the pipes yield saved first, each byte for its own stream
  (`DaemonRuns.ExitReaches`).
* From the iteration of the first interrupt on there are no automatic restarts, what runs only becomes
  less as long as no request to start an app comes in, and the iteration in which the last app exits is
  the last, with every runtime ever created cleaned up (`DaemonRuns.NoRestartsAfterInterrupt`,
  `DaemonRuns.ShutdownConverges`, `DaemonRuns.LastExitIsTheEnd`, `Daemon.Runtime.MainLoop`).
* The requests carried out for a control connection depend only on the bytes received, each is carried
  out once and in order, and their replies are sent as soon as the socket takes them, after which the
  connection is closed (`Framing.ChunkingDoesNotMatter`, `ControlServer.ReadHalfSound`,
  `DaemonService.RepliesAreSent`).
* What a step does is also said without its rules, in the states before and after, the bytes on the wire and
  the numbers in the configuration. An exit: which codes count as failures, when the count begins anew, when
  a restart becomes due and for which instant (`DaemonEvents.SuccessIsJudged`,
  `DaemonEvents.FailureIsJudged`, `DaemonEvents.ExitWithoutRestart`). A restart that is due comes in the first
  uninterrupted iteration, if and only if no call of its launch fails and three tokens are left when its turn
  comes (`DaemonTurns.DueRestartsCome`). A request: what it does to every app, which signal it sends, and its
  reply (`DaemonRequests.StartIsCarriedOut`, `DaemonRequests.StopIsCarriedOut` and the others); nothing else
  sends a signal but the shutdown, SIGTERM after one interrupt and SIGKILL after two
  (`DaemonRequests.OnlyStopsSignal`, `DaemonTurns.InterruptStopsAll`). The loop is left exactly when no app
  runs and no restart is pending, if it was interrupted or is not to keep running
  (`Daemon.Runtime.Iterate`, `Daemon.Runtime.MainLoop`).
* Three promises are conditional. Showing an app's environment gives back what was configured if and only
  if no key contains an equals sign (`Config.EnvRoundTrip`; `Config.KeyWithEqualsSign` has an input for
  which it does not). A launch in which no call fails comes to something if and only if three tokens are
  left (`Apps.LaunchRuntime`); otherwise the process it has spawned is orphaned, and nobody will reap it
  (`Apps.StartOrphans` says exactly when, `DaemonService.OrphansAreReachable` has a daemon in which it
  happens). And all output of a process is saved when it exits if and only if neither pipe fails before it
  is empty (`DaemonRuns.ExitSavesAll`).

Where comments in the code and the code differ, the model follows the code: a reader whose cursor fell
behind is told how much it missed (src/logger.rs:133-134 speaks of a panic), and a dump whose socket
blocked may go on past the write position of its request (src/log_ipc.rs:36-38 speaks of stopping
there).

## Model

| member | source | states |
|---|---|---|
| DoubledMapping.MmapRingBuffer.Refusal | src/support/mmap.rs:22-45 | a mapping is made exactly for positive multiples of the page size; any other size but zero is refused for its alignment, and zero for being empty |
| DoubledMapping.MmapRingBuffer.GetAt | src/support/mmap.rs:136-145 | the window at any offset has the file's size and shows the file cyclically from that offset |
| DoubledMapping.MmapRingBuffer.SlotAt | src/support/mmap.rs:136-140 | the window never leaves the doubled address range, and each of its addresses is the file's slot for that offset |
| DoubledMapping.MmapRingBuffer.WindowRepeats | src/support/mmap.rs:136-145 | windows whole laps apart are the same window |
| DoubledMapping.MmapRingBuffer.Slice | src/support/mmap.rs:153-160 | a slice may run over the end of the file and continues at its beginning |
| DoubledMapping.MmapRingBuffer.StoreThrough | src/support/mmap.rs:147-150 | a byte stored through one window is seen at its place by every window at every offset, and nothing else changes |
| LogRing.CircularBuffer.SpliceFromAndView | src/support/log_buffer.rs:225-247 | the view is non-empty, a beginning of what the pipe yields, and exactly what the log grew by, with every retained byte still in its slot; a splice that moves nothing found nothing that could be moved, and is a failure exactly if the pipe fails |
| LogRing.CircularBuffer.AppendedWindow | src/support/log_buffer.rs:230-242 | writing at the physical offset keeps every byte that stays retained, in its slot |
| LogRing.CircularBuffer.SlotKept | src/support/log_buffer.rs:230-241 | the slots a splice may write, clamped at the end of the file, hold no byte that stays retained |
| LogRing.CircularBuffer.RetainedSlice | src/support/log_buffer.rs:267-271 | a retained piece of log up to the end of the file is read back from the file unchanged |
| LogRing.CircularBuffer.ReadFromCursor | src/support/log_buffer.rs:249-273 | nothing exactly for a caught-up cursor, otherwise a non-empty contiguous slice of the log from the cursor or the oldest retained byte, up to the end of the log or of the file, with the gap counted |
| LogRing.StartPos | src/support/log_buffer.rs:186-188 | the retained window is as long as what was written, up to the capacity |
| LogReader.Run | src/log_ipc.rs:204-254 | after any sequence of appends, subscriptions and partial or blocked writes, every reader's trace is honest: deliveries are the log up to the cursor without the skipped offsets, cursor = delivered + skipped, and every skipped offset is below the start of the retained window |
| LogReader.StepKeepsAllFaithful | src/log_ipc.rs:204-240 | each single step keeps all readers honest |
| LogReader.CompleteIffPrompt | src/log_ipc.rs:214-240 | a reader received exactly the log up to its cursor if and only if it was never found lagging by more than the capacity |
| LogReader.DumpDeliversRetained | src/log_ipc.rs:204-254 | a new reader sent everything at once receives exactly the retained bytes |
| LogReader.ServedIsReceived | src/log_ipc.rs:213-240 | a round of sending jumps over what was overwritten, then delivers the log without a gap, never takes back anything, keeps the trace honest, and delivers everything to a socket that takes everything |
| LogReader.ServedOn | src/log_ipc.rs:220-225 | however writes cut up what a socket takes, the round as a whole is the same |
| LogReader.CatchUpKeepsFaithful | src/log_ipc.rs:215-218 | jumping over what was overwritten skips exactly bytes below the retained window and keeps the trace honest |
| LogReader.DeliverKeepsFaithful | src/log_ipc.rs:220-225 | advancing the cursor by the bytes a write accepted keeps the trace honest |
| LogReader.AppendKeepsFaithful | src/support/log_buffer.rs:236-242 | growth of the log keeps every reader's trace honest |
| LogWire.SplitsDoNotMatter | src/log_ipc.rs:156-168 | however reads split the bytes, the parse is that of all of them at once |
| LogWire.RequestRoundTrip | src/cli/logs.rs:18-23 | what the server parses from a client's encoding, however it arrives and whatever follows, is the flag and the name's first 255 bytes, and exactly the request is consumed |
| LogWire.EncodeRequest | src/cli/logs.rs:18-23 | the bytes pushed are 1 or 0 for the flag, the length of the name cut to 255 bytes, and that name |
| LogIpc.LogConnection.Receive | src/log_ipc.rs:143-154 | all that was read is buffered in order, the end of the stream marks the connection for closing, and a read error is reported |
| LogIpc.LogConnection.ParseRequest | src/log_ipc.rs:156-190 | an incomplete request changes nothing; a complete one is taken off the buffer and starts streaming at offset 0, bounded by the write position unless following; an empty or unknown name marks the connection for closing |
| LogIpc.LogConnection.Look | src/log_ipc.rs:215-219 | one look at the ring moves the cursor over the missed bytes and finds the next bytes of the log, or that there are none |
| LogIpc.LogConnection.SendChunk | src/log_ipc.rs:214-239 | one round of the loop either sends on, or finds the reader caught up, or finds that the socket takes no more, in which case it blocks or breaks as the socket does; what is left to do makes up the whole round of sending |
| LogIpc.LogConnection.SendLog | src/log_ipc.rs:213-240 | the loop ends, having sent exactly as much of the log as the socket takes; the connection is blocked exactly if that is not all of it, and fails exactly if the socket then breaks |
| LogIpc.LogConnection.SendTo | src/log_ipc.rs:204-254 | the stream goes on from where it was, as far as the socket takes it, and a dump that has been sent everything is marked for closing |
| LogIpc.LogConnection.Reregister | src/log_ipc.rs:296-309 | the registered interest becomes what the connection wants, exactly if the system accepts a change of it; otherwise the refusal is on record until the next time |
| LogIpc.OrderlyGrows | src/log_ipc.rs:204-254 | a connection between events stays in order when logs grow |
| LogIpc.LogServer.AcceptOne | src/log_ipc.rs:106-123 | a connection is taken in exactly if there is room and a token and its socket can be registered, and is filed under its own token; if only the registration fails, exactly that token leaks |
| LogIpc.LogServer.AcceptAll | src/log_ipc.rs:103-128 | of the pending connections those that fit are taken in, up to the first whose socket cannot be registered, which ends the round and leaks its token; connections already there stay as they are and any other is new |
| LogIpc.LogServer.HandleReadable | src/log_ipc.rs:137-193 | all that was read is taken in, and unless reading failed, a request that is complete is taken up and the stream is sent on as far as the socket takes it |
| LogIpc.LogServer.HandleWritable | src/log_ipc.rs:195-197 | the stream is sent on as far as the socket takes it |
| LogIpc.SendServes | src/log_ipc.rs:204-254 | what is sent goes on from what was sent before without a gap; afterwards the connection is caught up, or blocked, or broken, and neither blocked nor broken if the socket takes everything |
| LogIpc.ReadHalfServes | src/log_ipc.rs:137-193 | after the readable half of an event a connection that has not failed awaits the rest of its request, is to be closed, or is caught up or blocked |
| LogIpc.FinishSettles | src/main.rs:383-390 | the end of an event leaves a connection failed, over, or in order, and one just served is not stuck; it lacks the interest it wants only if the system refuses it at that moment |
| LogIpc.PushedSettles | src/log_ipc.rs:260-276 | after a push no open connection is stuck |
| LogIpc.PushedInFull | src/log_ipc.rs:260-276 | a follower whose socket takes everything has been sent all of its log after its turn, and stays open unless its peer had finished |
| LogIpc.LogServer.TrySend | src/log_ipc.rs:204-254 | a streaming connection is sent exactly as much of its log as its socket takes; one still without a request is left alone |
| LogIpc.LogServer.Reconcile | src/log_ipc.rs:280-310 | a connection is closed exactly if it is to be closed and not blocked, and its token returned; otherwise its interest follows whether it is blocked, if the system accepts that |
| LogIpc.LogServer.PushUpdates | src/log_ipc.rs:260-276 | every follower is sent what is new to it as far as its own socket takes it, exactly those that then have failed or are over are dropped, nobody else is touched, and all that are left are in order |
| LogIpc.LogServer.PushOne | src/log_ipc.rs:268-275 | a follower is sent on, and dropped exactly if it has failed or is over, or else registered for what it wants if the system accepts that |
| LogIpc.PushedExtends | src/log_ipc.rs:260-276 | pushing never takes back what a reader has seen |
| LogIpc.LogServer.Close | src/log_ipc.rs:312-317 | the connection is gone and its token is back in the slab; nobody else's token changes hands |
| LogIpc.UnblockedRequestIsComplete | src/log_ipc.rs:184-254 | a request that arrives in full at a socket that takes everything is answered with exactly the retained bytes; a dump is then over and a follower stays; a name that nobody has ends the connection |
| Restart.BackoffMultiplies | src/restart.rs:50-58 | the first attempt waits the initial delay, each further one the multiple of the one before, capped and cut to whole milliseconds |
| Restart.BackoffInNumbers | src/restart.rs:50-58 | the delay is the largest number of whole milliseconds that exceeds neither the product nor the cap, and none if the product is negative |
| Restart.DelayGrows | src/restart.rs:46-60 | with a multiplier of at least one a later attempt never waits less, and a delay at the cap stays there |
| Restart.DelayCapped | src/restart.rs:46-60 | no delay exceeds the strategy's cap |
| Restart.BackoffMonotone | src/restart.rs:55-57 | the scaled, capped and truncated delay grows with the factor and stays below the maximum |
| LifecycleRuns.AppsAreSound | src/runtime.rs:132-274 | at any point of any life: runtimes created are those cleaned up plus the live one; a pending deadline means not stopped by request, not oneshot, a strategy that restarts after the recorded outcome, and a streak within bounds |
| LifecycleRuns.RunsAreSound | src/runtime.rs:132-274 | every step keeps that invariant |
| LifecycleRuns.StopIsRespected | src/runtime.rs:151-176 | after a stop no sequence of exits, deadlines and restart phases creates a runtime; at most the one running keeps running |
| LifecycleRuns.StoppedForGood | src/runtime.rs:151-176 | the same for a stop at any point in the life of an app |
| LifecycleRuns.GivingUpIsFinal | src/runtime.rs:244-253 | an app that gave up stays down until an explicit start |
| LifecycleRuns.FailuresAreTheStreak | src/runtime.rs:236-241 | the failure counter is the number of policy-evaluated failed exits since the last start, success, or long run, whose own failure counts as the first |
| LifecycleRuns.StreakDecides | src/runtime.rs:233-274 | in any life, when a failure is put to the policy, a restart is scheduled exactly if the length of the streak is allowed and failures are restarted at all, after the delay of that attempt |
| LifecycleRuns.StreakGrows | src/runtime.rs:236-241 | how each kind of event changes the length of the streak |
| LifecycleRuns.RestartsArePaidFor | src/runtime.rs:233-274 | each restart after a failure is matched by a failure within the allowed attempts |
| LifecycleRuns.RestartsPerStreakAreBounded | src/runtime.rs:233-274 | within one streak at most the maximum number of restarts follow failures |
| LifecycleRuns.WaitsGrow | src/runtime.rs:268-272 | waits chosen along a streak lie between the delays of its first and latest attempt, never shrink, and never exceed the cap |
| LifecycleRuns.StreakWaitsGrow | src/runtime.rs:268-272 | the same counted from the failed exit the streak begins with |
| LifecycleRuns.PendingHasCause | src/runtime.rs:255-273 | behind every pending restart is the policy-evaluated exit that scheduled it, with the deadline its streak asks for |
| LifecycleRuns.RestartsWait | src/runtime.rs:195-229 | in any life, a restart is counted only in a restart phase that allows it, at an instant no earlier than the exit that scheduled it plus the delay of its streak |
| LifecycleRuns.NothingCreatedNothingNew | src/runtime.rs:132-229 | an app runs a runtime it did not run before only if one was created |
| LifecycleRuns.EveryRuntimeHasACause | src/runtime.rs:132-229 | every runtime created was brought up by an explicit start or by a counted restart |
| LifecycleRuns.RetiredIsDown | src/runtime.rs:517-556 | an app whose runtime was cleaned up, and that was neither started nor restarted since, is down |
| TokenSlab.MioTokenSlab.Allocate | src/support/mio_token_slab.rs:15-27 | refused exactly when the capacity is out; otherwise hands out a token nobody holds, above the reserved ones |
| TokenSlab.MioTokenSlab.Free | src/support/mio_token_slab.rs:29-33 | exactly the token returned is vacant again |
| TokenSlab.RegisterConnection | src/ipc.rs:118-126 | a connection gets a token exactly if one is left and its socket can be registered; if only the registration fails, exactly that token leaks; nobody else's token changes hands |
| TokenSlab.AdmissionGoesOn | src/ipc.rs:106-133 | a round of taking in connections is the same taken one connection at a time |
| TokenSlab.AdmissionEnds | src/ipc.rs:106-133 | a round that fails at a connection does not depend on those after it |
| TokenSlab.AdmissionIsPaidFor | src/ipc.rs:106-133 | a round leaks one token at most, and only by a registration that fails |
| TokenSlab.OneReceiver | src/main.rs:351-399 | a token held by an app belongs to no other app and to no connection |
| TokenSlab.AllocatedCount | src/support/mio_token_slab.rs:15-33 | holders are pairwise disjoint, and the tokens out are three per running app, one per connection, and the leaked ones |
| TokenSlab.AppTokensCount | src/runtime.rs:67-71 | running apps hold three different tokens each, none of them shared |
| Apps.PickedGrows | src/runtime.rs:460-467 | appending a stream's bytes to the merged log appends them to that stream's part and leaves the other's alone |
| Apps.LaunchRuntime | src/runtime.rs:671-821 | a launch succeeds exactly if no call of it fails and three tokens are left; otherwise exactly the tokens it had come to take are leaked and the app holds none |
| Apps.AcquireTokens | src/runtime.rs:778-804 | the three tokens are the app's exactly if three are left and all three descriptors can be registered; otherwise exactly those taken by then leak |
| Apps.LaunchIsPaidFor | src/runtime.rs:671-821 | a launch leaks three tokens at most, and only if it fails |
| Apps.StartOrphans | src/runtime.rs:671-821 | a start leaves a process that nobody will reap if and only if the app is down, the fork goes through, and something after it does not: opening the pidfd, a registration, or finding three tokens |
| Apps.StopRuntime | src/runtime.rs:823-839 | all three tokens go back, none leaks, and nobody else's change hands |
| Apps.App.Create | src/runtime.rs:101-130 | creation fails exactly if the app is to start automatically and its first launch does not go through; a new app is as configured, with its tokens, an empty log, and nothing lost |
| Apps.App.Start | src/runtime.rs:132-143 | refused while running; otherwise the app runs from the instant of its launch, with its streak and stop request cleared, exactly if the launch goes through, and its lifecycle stays as it was if not; launches, processes, orphans and tokens are counted exactly |
| Apps.App.Stop | src/runtime.rs:151-176 | a running app is sent SIGTERM, or SIGKILL by force, and a failure is reported exactly if the system does not deliver it; a pending restart is cancelled; says whether there was anything to stop |
| Apps.App.MaybeRestart | src/runtime.rs:195-229 | exactly the restart phase of the state machine: cancelling, waiting, restarting and counting if the launch goes through, or giving up if not; launches, processes, orphans and tokens are counted exactly |
| Apps.App.ScheduleRestart | src/runtime.rs:233-274 | exactly the restart policy of the state machine |
| Apps.App.SpliceOnce | src/runtime.rs:440-492 | what one splice moved is appended to the log and counted for its stream; if nothing was moved, nothing could be |
| Apps.App.DrainPipe | src/runtime.rs:559-576 | all that the pipe yields, which is everything unless it fails, is appended and counted for its stream, and nothing else changes; the log stays an order-preserving merge of the two streams |
| Apps.App.DrainBoth | src/runtime.rs:528-541 | standard output first, then standard error, all that each yields, each byte counted for its stream |
| Apps.App.Retire | src/runtime.rs:543-553 | the runtime is cleaned up once, its tokens go back, and the policy is consulted exactly if restarts are allowed, the app is not oneshot and no stop was requested |
| Apps.App.HandleExit | src/runtime.rs:500-555 | all that both pipes yield is in the log, each byte counted for its stream, before the runtime is cleaned up and the policy consulted |
| Apps.App.Poll | src/runtime.rs:398-556 | exactly how an app reacts to an event: not at all unless it holds the token and the event is readable; to a stream's token by moving all that its pipe yields to the log as that stream's, and to its pidfd's, once an exit is reported, by moving what both yield and retiring the process |
| Apps.App.SoundNow | src/runtime.rs:895-901 | at any time the runtimes created are those cleaned up plus the live one, the log is an order-preserving merge of the two streams, and every process spawned is supervised, was reaped, or is orphaned |
| Fleet.StartAll | src/ipc.rs:218-231 | every app gets an explicit start, in order, each with the tokens those before it have left and with its own result |
| Fleet.StopAll | src/main.rs:412-426 | every app gets an explicit stop, with the signal that is due |
| Fleet.RestartPass | src/main.rs:405-409 | every app goes through the restart phase at the same instant, in order, each with the tokens those before it have left |
| Fleet.StartsArePaidFor | src/ipc.rs:218-231 | starting all apps leaks only what failed launches account for |
| Fleet.PhasesArePaidFor | src/main.rs:405-409 | a restart phase leaks only what failed launches account for |
| Fleet.PollAll | src/main.rs:394-399 | every app is offered the event, only the holder of its token reacts, and nothing is leaked |
| Fleet.ClaimsStep | src/main.rs:397-399 | one app's step leaves the tokens of all others alone |
| Framing.LinesPartition | src/ipc.rs:169-170 | the complete lines and the rest make up what was received |
| Framing.LinesAreLines | src/ipc.rs:169-170 | every line has its newline at its end and nowhere else |
| Framing.Leftover | src/ipc.rs:169-170 | what waits in the buffer holds no newline |
| Framing.MoreData | src/ipc.rs:156-170 | more bytes add lines after those already there |
| Framing.ChunkingDoesNotMatter | src/ipc.rs:156-174 | the requests seen and the rest depend only on the bytes received, not on how reads chunked them |
| Framing.Trim | src/ipc.rs:171-174 | blank lines, and only those, trim to nothing |
| Framing.TrimCutsSpace | src/ipc.rs:171 | trimming cuts nothing but white space, and only at the ends |
| Framing.SpaceInNumbers | src/ipc.rs:171 | exactly lines of nothing but bytes 32 and 9 to 13 are trimmed to nothing |
| Framing.TrimPadded | src/ipc.rs:171 | whatever there is of these bytes around a line is trimmed, and nothing else |
| Framing.OneLineIsOneRequest | src/ipc.rs:169-174 | a line ended by byte 10 is one request, without the white space around it |
| Framing.BlankLineIsNoRequest | src/ipc.rs:172-174 | a line of nothing but white space is none |
| Framing.LinesAreRequests | src/ipc.rs:169-174 | lines with nothing to trim, each ended by byte 10, are so many requests, in order |
| ControlIpc.NamesSorted | src/ipc.rs:218-231 | a reply about all apps lists each name once, under the outcome its app had |
| ControlIpc.NamesInOrder | src/ipc.rs:218-231 | the names in such a reply are in the order of the apps |
| ControlIpc.HandleQuery | src/ipc.rs:177-203 | list, info and config replies describe the right apps, with each log's length as its byte count; an unknown name and a line that is no request are answered as such |
| ControlIpc.HandleStart | src/ipc.rs:204-217 | at most the named app is started, with the tokens there are, and the reply says what happened |
| ControlIpc.HandleStop | src/ipc.rs:232-248 | at most the named app is stopped, with the signal asked for, and the reply says what happened |
| ControlIpc.HandleRequest | src/ipc.rs:176-268 | each request has exactly its own effect on the apps, their signals and the tokens, and its own reply |
| ControlIpc.EffectsAreNoRestarts | src/ipc.rs:176-268 | no request causes an automatic restart or touches the output of an app |
| ControlIpc.EffectsArePaidFor | src/ipc.rs:176-268 | a request leaks only what its failed launches account for |
| ControlIpc.StopsMakeQuiet | src/ipc.rs:232-262 | a request to stop an app leaves it so that only an explicit start can bring it up |
| ControlIpc.OnlyStartsStart | src/ipc.rs:204-231 | no request brings up an app but one to start it, or to start all |
| ControlServer.CarriedOutThen | src/ipc.rs:169-269 | requests carried out in two rounds are those of both rounds carried out in order |
| ControlServer.CarriedOutIsNoRestart | src/ipc.rs:169-269 | no sequence of requests causes an automatic restart, touches any output, or leaks what no failed launch accounts for |
| ControlServer.ControlConnection.Receive | src/ipc.rs:156-167 | all that was read is buffered, the end of the stream marks the connection for closing, and a failure is noted |
| ControlServer.ControlConnection.TakeLine | src/ipc.rs:169-174 | a line is taken off the buffer exactly while a newline is in it, and blank lines are no requests |
| ControlServer.ControlConnection.QueueResponse | src/ipc.rs:67-72 | one encoded reply and a newline are queued after everything queued before (what that is in bytes, see ControlServer.RepliesAreLines) |
| ControlServer.RepliesAreLines | src/ipc.rs:67-72 | the bytes for some responses are, for each, its encoding and byte 10, one after the other; if no encoding holds that byte, the peer that takes them apart at it gets exactly these lines |
| ControlServer.ControlConnection.Flush | src/ipc.rs:280-291 | exactly as much of the queue is sent as the socket takes, in order, and it fails exactly if the socket breaks with output left |
| ControlServer.Session.FlushOn | src/ipc.rs:280-291 | however writes cut up what a socket takes, the flush as a whole is the same |
| ControlServer.FinishSound | src/main.rs:362-372 | over the end of an event what was sent stays sent, and sent and queued bytes stay the replies; unless failed or over, output pending means a writable interest, unless the system refuses it at that moment |
| ControlServer.AllRepliesSent | src/ipc.rs:274-326 | a socket that takes everything is sent every reply, and the connection is then over exactly if there was a request or the end of the stream |
| ControlServer.ReadHalfSound | src/ipc.rs:144-272 | after the readable half of an event exactly the requests received so far have been carried out, unless the connection failed; even then what was carried out is a beginning of what was received |
| ControlServer.Server.AcceptAll | src/ipc.rs:106-133 | of the pending connections those that fit are taken in, up to the first whose socket cannot be registered, which ends the round and leaks its token; connections already there stay as they are and any other is new |
| ControlServer.Server.HandleLine | src/ipc.rs:169-269 | one line is carried out, with its signals, and answered, or passed over if blank; the connection fails exactly if the response cannot be encoded |
| ControlServer.Server.HandleReadable | src/ipc.rs:144-272 | what is read is buffered; if reading failed nothing is carried out; otherwise exactly the requests that have become complete are, in order, each with its reply and its signals, up to one whose response cannot be encoded |
| ControlServer.Server.HandleWritable | src/ipc.rs:274-292 | exactly as much of the queue is sent as the socket takes |
| ControlServer.Server.Reconcile | src/ipc.rs:296-326 | a connection is closed exactly if it is to be closed and every reply has been sent in full, and its token returned; otherwise its interest follows whether output is pending, if the system accepts that |
| ControlServer.Server.Close | src/ipc.rs:328-333 | the connection is gone and its token is back in the slab; nobody else's token changes hands |
| Daemon.Boot | src/main.rs:215-271 | the daemon comes up exactly if every log buffer is a positive multiple of the page size, in the first launch of each app to start automatically the fork, the pidfd and all three registrations go through, and there are three tokens for each of these; then every configured app is in its place, running exactly if it is to, nothing has happened to it yet, exactly their tokens are out, and nothing is lost |
| Daemon.Runtime.ControlEvent | src/main.rs:351-373 | the requests completed by the event are carried out in order and replies are sent as far as the socket takes them; nothing but this connection, the apps and the tokens changes, and it is dropped exactly if it has failed or is over |
| Daemon.Runtime.LogEvent | src/main.rs:375-392 | everything read is taken in, a complete request is taken up, and the stream is sent as far as the socket takes it; nothing else changes, and the connection is dropped exactly if it has failed or is over |
| Daemon.Runtime.AppEvent | src/main.rs:394-399 | an event for an app reaches exactly the app that holds its token, whose restart policy is consulted only while not stopping; nothing else changes |
| Daemon.Runtime.AcceptControl | src/main.rs:337-342 | a round of taking in control connections does exactly that and changes nothing else |
| Daemon.Runtime.AcceptLogs | src/main.rs:344-349 | a round of taking in log connections does exactly that and changes nothing else |
| Daemon.Runtime.Dispatch | src/main.rs:323-400 | every event does exactly what its token calls for: an interrupt is counted, listeners take connections in, a connection is served, and anything else goes to the apps |
| Daemon.Runtime.DispatchAll | src/main.rs:323-400 | all events of a batch are handled, in order, and before and after each the daemon is sound |
| Daemon.Runtime.PushLogs | src/main.rs:402-403 | every follower is sent what is new to it as far as its own socket takes it, exactly those that have then failed or are over are dropped, and nothing else changes |
| Daemon.Runtime.RestartPhase | src/main.rs:405-409 | due restarts are fired, each with the tokens left, or all are cancelled once stopping |
| Daemon.Runtime.ShutdownPhase | src/main.rs:411-426 | after an interrupt every app is stopped, each running one by SIGTERM, from the second interrupt on by SIGKILL |
| Daemon.Runtime.Timeout | src/main.rs:309-315 | no limit exactly if no restart is pending; otherwise never past any pending deadline, and exactly up to one of them |
| Daemon.Runtime.Iterate | src/main.rs:308-437 | one iteration is a turn: all its events, then the push, the restart phase at its clock, and the shutdown phase, with the daemon sound in between; it says to leave if and only if every app is stopped without a pending deadline, and there was an interrupt or the daemon is not to keep running |
| Daemon.Runtime.MainLoop | src/main.rs:308-437 | for any returns of poll every iteration is a turn; the loop is left at the first lap at whose end no app runs and no restart is pending, if by then there was an interrupt or the daemon is not to keep running, and at no other; then every runtime ever created has been cleaned up |
| Daemon.Runtime.SoundHere | src/main.rs:351-399 | in every state of the daemon between events no token has two holders, all are clear of the reserved ones, they number three per running app, one per connection and the leaked ones, every app is sound, and every open connection is in order |
| Daemon.Runtime.LeavingCleanedUp | src/runtime.rs:895-901 | when the loop is left no runtime is dropped without cleanup |
| DaemonRuns.EventIsNoRestart | src/main.rs:323-400 | no event of any kind restarts an app automatically |
| DaemonRuns.InterruptedTurn | src/main.rs:405-426 | in an iteration that ends interrupted nothing is restarted automatically, not even what an earlier event of the batch had scheduled, and at its end nothing is pending and all that runs was asked to stop |
| DaemonRuns.UninterruptedTurn | src/main.rs:405-409 | in an iteration that ends uninterrupted every restart counted had a deadline no later than the clock of the phase, and every deadline left is later |
| DaemonRuns.PhaseCancels | src/runtime.rs:211-214 | a restart phase that may not restart leaves no restart pending |
| DaemonRuns.PhaseWaits | src/runtime.rs:216-228 | a restart phase that may restart leaves only deadlines later than its instant |
| DaemonRuns.ExitReaches | src/main.rs:394-399 | an event that reports an exit reaches the app whose pidfd it is, which retires its runtime after taking in exactly what both pipes yield, each stream's bytes as its own |
| DaemonRuns.ExitSavesAll | src/runtime.rs:517-576 | all that the process of an app has left in its pipes is saved, each byte as its stream's, if and only if neither pipe fails before it is empty |
| DaemonRuns.ExitIsHandled | src/main.rs:323-400 | whatever else is in the batch, an exit it reports has been handled by the end of the iteration |
| DaemonRuns.LastExitLeaves | src/main.rs:428-436 | an iteration that ends interrupted, in which every running app exits and no request to start any comes in, ends the loop |
| DaemonRuns.LastExitIsTheEnd | src/main.rs:428-436 | the same in any history of the loop |
| DaemonRuns.NoRestartsAfterInterrupt | src/main.rs:405-426 | from the iteration of the first interrupt on, over any number of iterations, no app is restarted automatically, and at the end of each nothing is pending and all that runs was asked to stop |
| DaemonRuns.ShutdownConverges | src/main.rs:405-436 | after the first interrupt, as long as no request to start an app comes in, the running apps with their runtimes only become fewer, and the loop may be left exactly when there are none |
| DaemonRuns.EventStartsNothing | src/main.rs:323-400 | no event of any kind brings up an app but one that brings a request to start it, or to start all |
| DaemonRuns.TurnStartsNothing | src/main.rs:308-437 | an iteration whose events bring no such request does not start the app |
| DaemonRuns.StopIsKept | src/ipc.rs:232-262 | an app that only a start can bring up gets no new runtime and no pending restart over any number of iterations in which no request to start it comes in |
| DaemonRuns.StopRequestIsKept | src/ipc.rs:232-262 | a request to stop an app that any event of any iteration has carried out holds from then on until a request to start the app comes in |
| DaemonRuns.InterruptsAreCounted | src/main.rs:328-335 | the interrupts recorded at any moment are those the events brought |
| DaemonRuns.TurnGrows | src/main.rs:308-437 | over an iteration readers only go on, output and traffic only grow, and leaks are accounted for by failures |
| DaemonRuns.HistoryGrows | src/main.rs:308-437 | the same between any two moments of any history: what a reader has been delivered or has skipped, what an app has logged for each stream, and what a connection has received or been sent, is there for good |
| DaemonRuns.LeaksArePaidFor | src/main.rs:308-437 | a daemon that began without losses has leaked at most three tokens per failed launch or registration, and while none has failed the tokens out are exactly three per running app and one per connection |
| DaemonEvents.InterruptIsCounted | src/main.rs:328-335 | signal 2 on token 1 is counted and changes nothing else; nothing else is counted |
| DaemonEvents.ListenersTakeIn | src/main.rs:337-349 | an event on token 0 changes nothing but the control connections and the tokens, one on token 2 nothing but the log connections and the tokens |
| DaemonEvents.ConnectionsAreTakenIn | src/ipc.rs:106-133 | of the connections pending as many are taken in as there is room and tokens for, up to the first whose socket cannot be registered, which costs a token; whoever was connected still is, and the new ones have neither received nor sent anything |
| DaemonEvents.ExitWithoutRestart | src/runtime.rs:549-553 | an exit while stopping, of a oneshot app, or after a request to stop leaves the app down with nothing pending and its count of failures as it was |
| DaemonEvents.SuccessIsJudged | src/runtime.rs:233-274 | any other exit with code 0 clears the count, and a restart is due after the first delay of the success strategy, unless that is never |
| DaemonEvents.FailureIsJudged | src/runtime.rs:233-274 | any other exit counts one failure more, or the first after a long enough run; a restart is pending if and only if the error strategy is not never and the count is within its bound, and it is due after the constant delay, or after the initial delay multiplied for each failure but the first, capped and in whole milliseconds |
| DaemonEvents.OutputReaches | src/runtime.rs:425-492 | output reported on the first or the second stream of an app goes to the end of its log as far as it can be moved, is counted for that stream, and changes nothing else |
| DaemonEvents.ExitSavesOutput | src/runtime.rs:517-541 | at an exit all that can be moved out of the first pipe, then all that can be moved out of the second, goes to the end of the log |
| DaemonEvents.NothingToReactTo | src/main.rs:394-399 | a token that nobody holds, and a pidfd without an exit to report, change no app |
| DaemonEvents.TokensInNumbers | src/main.rs:351-399 | the tokens out are three times the number of running apps, and one for each connection, and the leaked ones |
| DaemonEvents.TokensAreNotShared | src/main.rs:351-399 | no token of a connection or a running app is 0, 1 or 2, or belongs to another |
| DaemonRequests.LinesAreAnswered | src/ipc.rs:144-326 | the lines that come in, in however many pieces, are carried out in order, each on what the one before has left, and their replies, each the encoding and byte 10, go out after what was queued as far as the socket takes them; if a response cannot be encoded the connection fails and the lines after it are not carried out; the connection is dropped exactly once all has gone out or on a failure, and its token returned |
| DaemonRequests.LineIsAnswered | src/ipc.rs:144-326 | for a single line to a socket that takes everything: exactly the reply is sent, and the connection is dropped |
| DaemonRequests.PartOfALineWaits | src/ipc.rs:156-170 | bytes without a newline are buffered and nothing is carried out |
| DaemonRequests.ControlPeerLeaves | src/ipc.rs:156-167 | a connection is dropped when its peer has finished and all replies are sent, and when reading fails |
| DaemonRequests.QueueIsSentOn | src/ipc.rs:274-326 | a writable event sends as much of the queue as the socket takes; the connection is dropped once that is all of it, or if the socket breaks over it |
| DaemonRequests.StopIsCarriedOut | src/ipc.rs:232-248 | a request to stop an app sends it, if it runs, exactly one SIGTERM, or SIGKILL by force, and it will not be restarted; a pending restart is given up; an app that is down is sent nothing; the reply says which; no other app is touched |
| DaemonRequests.StopAllIsCarriedOut | src/ipc.rs:249-266 | the same for every app; the reply lists as failed exactly those whose signal was not delivered |
| DaemonRequests.StartIsCarriedOut | src/ipc.rs:204-217 | a request to start an app leaves it alone if it runs; otherwise it runs from its launch on, without failures and free to be restarted, if and only if no call of the launch fails and three tokens are left; if not, its lifecycle is as it was and a forked process is an orphan; the tokens taken are counted; no other app is touched |
| DaemonRequests.StartAllIsCarriedOut | src/ipc.rs:218-231 | the same for every app, each with the tokens those before it have left; the reply lists as started exactly those that came up by it |
| DaemonRequests.UnknownNameIsTold | src/ipc.rs:178-269 | a request for a name no app has changes no app and is answered with the names there are; a line that is no request is answered with an error |
| DaemonRequests.QueryIsAnswered | src/ipc.rs:177-203 | what is said of an app is its name, its state, the number of its automatic restarts, and the length of its log; asking changes nothing |
| DaemonRequests.OnlyStopsSignal | src/main.rs:323-400 | no event sends an app a signal but one that brings a request to stop it, or to stop all |
| DaemonRequests.RequestsFollowEachOther | src/ipc.rs:169-269 | several requests of one event are carried out in the order of their lines, each on what the one before has left |
| DaemonStreams.LogIsSent | src/log_ipc.rs:135-254 | a flag, the length of a name, and the name, in however many pieces: if the socket takes everything, the last bytes of the first app of that name, as many as its ring holds, have been sent; the connection stays exactly if the flag is not 0 and the peer has not finished |
| DaemonStreams.UnknownLogIsRefused | src/log_ipc.rs:170-182 | a name that is empty or that nobody has is sent nothing, and the connection is dropped |
| DaemonStreams.PartOfALogRequestWaits | src/log_ipc.rs:156-168 | as long as bytes of the request are missing nothing is sent, and the connection stays unless its peer has finished or reading fails |
| DaemonStreams.StreamGoesOn | src/log_ipc.rs:204-254 | a stream jumps to the oldest byte retained, having skipped exactly what is below it, and is sent from there exactly as much as the socket takes; it is blocked or fails exactly if that is not all |
| DaemonStreams.StreamIsSentOn | src/log_ipc.rs:137-310 | a readable or writable event does that whatever comes in, and the connection is dropped exactly if the socket breaks over it, or all is sent and it is a dump or its peer has finished |
| DaemonStreams.LogRequestIsTakenUp | src/log_ipc.rs:135-254 | the same for a socket with any room: the stream begins with the oldest byte retained and is as long as the socket takes it; the connection is dropped exactly if the socket breaks over it, or all is sent and the flag is 0 or the peer has finished |
| DaemonTurns.DueRestartsCome | src/runtime.rs:195-229 | in an uninterrupted iteration a restart whose deadline is not after the clock of the phase is tried: the app runs since its launch, with one restart more, if and only if no call of the launch fails and three tokens are left when its turn comes, and otherwise is down for good with its cause kept and a forked process orphaned; any other app is left alone |
| DaemonTurns.InterruptStopsAll | src/main.rs:405-426 | in an interrupted iteration everything that runs after the events is sent exactly one signal, SIGTERM after one interrupt and SIGKILL after two or more, pending restarts are given up, and nothing else happens to any app |
| DaemonTurns.LeavesUnlessBusy | src/main.rs:428-436 | the condition for leaving, in states: no app runs, no deadline is pending, and there was an interrupt or the daemon is not to keep running |
| DaemonTurns.SleepsUntilDue | src/main.rs:309-315 | before each wait of any history: without a limit exactly if no restart is pending, otherwise exactly as long as the shortest time to a deadline, and not at all if one has passed |
| DaemonTurns.FollowersAreSentOn | src/log_ipc.rs:260-276 | at the end of an iteration every follower has been sent, from where it was or from the oldest byte retained, exactly as much of its app's log as its own socket takes, and is dropped exactly if the socket breaks over it, or it has all and its peer had finished |
| DaemonService.NobodyIsStuck | src/main.rs:402-403 | at the end of an iteration no log connection is stuck |
| DaemonService.FollowersAreCaughtUp | src/log_ipc.rs:256-276 | at the end of an iteration every follower whose socket took everything has been sent all of its log |
| DaemonService.EveryoneIsServed | src/log_ipc.rs:278-310 | in any history in which the system accepts every change of interest, at the end of each iteration every log connection lacks bytes of its request, or is blocked and registered, or follows and has been sent its app's log to the end, and a control connection is registered exactly if output is pending |
| DaemonService.RepliesAreSent | src/ipc.rs:274-326 | a writable event of a control connection whose socket takes everything sends every reply to every request received, each as a line: its encoding and byte 10; if no encoding holds that byte, what was sent comes apart into exactly these lines; unless the connection failed it is dropped exactly if it has had a request or the end of its stream |
| DaemonService.LogRequestIsAnswered | src/log_ipc.rs:135-254 | a log request that arrives in full at a socket that takes everything is answered by the end of the event with exactly the bytes the log retains; only a follower whose peer has not finished stays |
| DaemonService.StartNeedsThreeTokens | src/runtime.rs:778-804 | a request to start an app that is down, in whose launch no call fails, brings it up if and only if three tokens are left; otherwise the process is orphaned |
| DaemonService.OrphansAreReachable | src/runtime.rs:778-804 | a daemon with three tokens and one app that is down has an orphan after one connection over which the app is asked to be started |
| DaemonTiming.EventSchedules | src/runtime.rs:236-274 | no event of any kind makes a restart of an app pending except the exit of that app, if nobody asked it to stop and it is not oneshot; the deadline is that of its strategy for its failures in a row |
| DaemonTiming.PendingWasScheduled | src/main.rs:308-437 | in any history of the loop, every restart pending after the events of an iteration was scheduled by the report of an exit in that iteration or before it, and nothing has happened to it since |
| DaemonTiming.RestartsAreDue | src/main.rs:405-409 | in any history of the loop, a restart is counted only before the first interrupt, once in an iteration, and only in a phase no earlier than the reported exit that scheduled it plus the delay its strategy has for the failures in a row |
| Config.JoinSplit | src/runtime.rs:315-317 | joining the space-split command gives back every command, with repeated, leading and trailing spaces |
| Config.SplitJoin | src/main.rs:225 | no other parts without spaces join to the same command |
| Config.SplitInCharacters | src/main.rs:225 | it is at the character space that a command comes apart and is joined |
| Config.SplitOnce | src/cli/config.rs:57 | an entry parts at its first equals sign, and only if it has one |
| Config.RebuildEnv | src/cli/config.rs:54-60 | the loop builds the map its entries stand for, later ones winning |
| Config.LastEntryWins | src/cli/config.rs:54-60 | a key is in that map if and only if an entry begins with it and an equals sign, and the last such entry says its value |
| Config.EnvRoundTrip | src/main.rs:227-236 | the environment shown is the one configured, in whatever order entries were written, if and only if no key contains an equals sign |
| Config.KeyWithEqualsSign | src/cli/config.rs:57-58 | a key with an equals sign comes back as another key with another value |

## Left out

* System calls: memory files and mappings, `splice`, `clone3`, `pidfd_open`, `waitpid`, `signalfd`,
  sockets and `poll` themselves; what they answer is an input. An error of `accept` itself ends a round of
  accepting early, which the list of pending connections covers.
* Everything the child does between fork and exec, and cgroups: no state of the daemon.
* JSON, YAML and command-line parsing: a `Codec` of arbitrary functions turns lines into requests, or
  none, and responses into lines, or fails.
* Reply fields that come from outside the model (pid, uid, gid, usage, uptime, last exit, debug
  details) and error texts.
* The best-effort reply to a control connection that is turned away, and the echo of app output on the
  daemon's own streams.
* UTF-8: names and lines are bytes, compared as bytes, and only ASCII white space is trimmed.
* Fixed-width counters: positions, byte counts and failure counts are unbounded.
* One clock for everything: readings are inputs and are not put in order with each other; no result
  needs that. The start of a run is the reading its launch comes with, and an uptime is never negative.
* Floating-point rounding: multipliers, delays and instants are reals; a delay is truncated to whole
  milliseconds as in the code.
* A write that accepts no byte of a non-empty slice: sockets do not do that, and the code would take it
  for the end of what can be sent.
* Failures of `deregister`: assumed not to happen. A refused `reregister` is modelled.
* The insides of the `slab` crate beyond a bound, fresh keys, and reuse of vacant slots before new ones.
* `Daemon.Boot`: a log buffer size that cannot be mapped is refused before the app is launched; the code
  launches an app first and then gives up on its buffer. Either way the daemon does not come up.
* The branch of `try_send` for an app that no longer exists: apps are never removed, so a streaming
  connection always finds its app.
* The splice loop of an app's event handler and the one that drains a pipe at exit are one method here,
  as they move bytes alike; logging and tracing in them is not modelled.
* An app's runtime is a value with its tokens and start time; that it is cleaned up exactly once is
  stated by counting runtimes created and cleaned up, and processes spawned, supervised, reaped and
  orphaned, instead of by the order of drops.
* Apps, connections and servers are objects updated in place; the maps of connections are map-valued
  fields, and the order in which a hash map yields them is arbitrary.
* The alternative log buffers, which are no rings and which no app uses; table printing, hex dumps,
  file scanning, and the sample apps.
