# iOS OTA link core: a verified model

iOS OTA is a Mac daemon that keeps one warm pairing tunnel to one iPhone, runs installations, removals,
screenshots and UI tests over it, and simulates a location on the phone. This project models the parts of the
daemon in which several threads, several locks or several failures meet, and proves what holds in all of them.

The hub is one interleaved step system (`Machine.dfy`). Its threads are the connection loop, `Serve`, the
five-second refresh, and any number of HTTP, install, uninstall, screenshot and test handlers. The operation
lock, the location mutex and the field lock are owner fields, and every external call answers as it likes. A step
is a stretch of code between lock operations and external calls. A history that no step reads records the sessions
opened, lost and closed, the drivers opened, and every command issued to the device.

| file | content |
|---|---|
| `DaemonFields.dfy`, `LocationModel.dfy` | the two objects' states and what the code writes to them |
| `Machine.dfy` | the threads' program counters, their steps, actions and runs |
| `Invariant.dfy` | the inductive invariant by rely and guarantee: the shared part, each thread's part, each step's debt |
| `Progress.dfy`, `Theorems.dfy`, `Deadlock.dfy`, `FieldLock.dfy` | what single actions and whole runs satisfy |
| `Labels.dfy` | what the label, the error code and the counters mean in every run |
| `Atomicity.dfy` | set, clear and refresh are atomic in every interleaving |
| `Replies.dfy`, `ReplyRace.dfy` | what the replies to the phone mean while other threads run, and a run that shows the gap |
| `LocationSession.dfy`, `Daemon.dfy`, `LocationHttp.dfy`, `TestRuns.dfy` | the same objects as classes with methods |
| `Refinement.dfy`, `NilHandle.dfy` | each method does what its thread's steps do; when the loop uses a missing handle |
| `Watch.dfy`, `WatchDaemon.dfy` | the watch loop, and the watch over one run of the daemon |
| `Control.dfy`, `Call.dfy`, `Protocol.dfy`, `LawfulCodec.dfy` | the control socket, byte for byte, from `handleConnection` to `Call` |
| `Answers.dfy` | what a client is shown for each command, field by field |
| `Stream.dfy`, `PairingPackets.dfy`, `Base64.dfy` | streams in pieces, the `RPPairing` packets, base64 byte fields |
| `Names.dfy`, `Evidence.dfy` | the names in requests; test requests and test evidence |
| `Provisioning.dfy` | `ConfigureLocation` under arbitrary failures of the file system |

The class methods are one thread's view. `Refinement.dfy` proves that a thread which runs its steps with nobody
between ends where its method does. For the location operations `Atomicity.dfy` removes that condition: in every
run, what such an operation leaves when it gives the mutex back is the method's effect on what it found.

## Where the code falls short of a promise

Each of these is proved with an input or a run that shows it, and with the exact condition for every input.

- `connectionLoop` reads the session twice (daemon.go:169 and 177) and calls `Done` on the second reading
  unchecked. `Serve` can clear the session in between (`NilHandle.MissingHandleIsReachable`). The loop holds a nil
  handle exactly when it has taken its second reading after teardown (`NilHandle.MissingExactlyAfterTeardown`),
  and from there it can only go on to use it (`NilHandle.MissingLeadsToUse`).
- A location request gives the mutex back before it takes the snapshot for its reply (location_http.go:191 and
  202). A reply of 200 to a set can show a lost session (`ReplyRace.ConfirmedSetMayShowLoss`). The status is
  right all the same (`Replies.SetIsConfirmed`), and the state shown is the request's own result exactly when the
  latest event before the snapshot is one that gives it (`Replies.OwnResultShown`).
- `Call` puts one limit of 1 MiB on all the responses of a call (control.go:133). An installation that reports
  enough progress succeeds and is reported as `control_response_failed` (`Protocol.LongProgressFailsTheCall`).
  The call returns the daemon's answer exactly when the responses fit and the connection has taken the final
  response with its image (`Protocol.RequestIsAnswered`).
- `ConfigureLocation` does not remove a file that it failed to write completely, and nobody looks at the errors
  of its removals (`Provisioning.PartialCredentialsStay`). The rollback leaves the file system as it was exactly
  when `RollsBack` holds (`Provisioning.RollbackIsComplete`). The profile itself is always unchanged or complete.
- `decodeWireBytes` accepts texts that no encoder writes: unused bits that are not zero
  (`Base64.UnusedBitsAreAccepted`) and line breaks (`Base64.BreaksAreAccepted`). An accepted text is the encoder's
  own exactly when it has neither (`Base64.AcceptedIsEncoded`).

One promise rests on two functions together. The evidence that `verifyTestEvidence` accepts is the requested
tests, each once, exactly when no test was requested twice (`Evidence.ExactWhenDistinct`). A request with a
repeated test would hide an unrequested one (`Evidence.RepeatedSelectorHidesATest`), but `runTests` calls
`validateTestRun` first (xctest.go:181), which stops it.

## Model

| member | source | states |
|---|---|---|
| Invariant.InvAlways | internal/linkcore/daemon.go:109-194 | every run keeps the invariant: session bookkeeping, label agreement, location state, lock owners and what each thread relies on at its program counter |
| Invariant.InvPreserved | internal/linkcore/daemon.go:336-389 | one action of any thread, a cancellation or a new handler keeps the invariant |
| Invariant.StepOwes | internal/linkcore/daemon.go:196-248 | a thread's step keeps the shared invariant, reaches a place whose assumptions hold, and stays within its guarantee to the others |
| Invariant.Stable | internal/linkcore/location.go:97-171 | what a thread relies on survives every step another thread may take |
| Invariant.ClearStepOwes | internal/linkcore/location.go:129-148 | each step of a clear, by a request or by shutdown, owes nothing; when it ends no driver is held, and no target if it was acknowledged |
| Invariant.SetOwes | internal/linkcore/location.go:104-128 | the same for each step of a set, though the session may be lost while it opens its driver |
| Invariant.LocationWrite | internal/linkcore/location.go:97-148 | whoever owns the location mutex may write any consistent state whose driver belongs to a usable session |
| Progress.ActionProgress | internal/linkcore/daemon.go:127-148 | one action appends at most one event, begins a generation only with no driver held, counts a loss only in the loop's loss step, and after shutdown's clear issues no start |
| Theorems.DriverOnCurrentGeneration | internal/linkcore/daemon.go:73-79 | in every run a held driver was opened on the session of the current generation |
| Theorems.NoDriverWhenSessionBecomesActive | internal/linkcore/daemon.go:127-133 | no driver is held before or after the step that makes a new session active |
| Theorems.LocationAtRest | internal/linkcore/location.go:67-171 | with the location mutex free: a driver is held exactly when the phase is active, applying is not observable, an active phase has a valid coordinate |
| Theorems.DriversReleased | internal/linkcore/location.go:67-148 | every driver ever opened is the held one, was closed, or acknowledged a stop |
| Theorems.PulseNeverPanics | internal/linkcore/location.go:158-162 | the refresh never dereferences a missing coordinate |
| Theorems.TargetRetained | internal/linkcore/location.go:89-148 | a coordinate is recorded exactly when a start was issued since the last acknowledged stop, and it is the latest start's |
| Theorems.NoSilentReapply | internal/linkcore/location.go:149-171 | every refresh repeats the immediately preceding start on the same driver |
| Theorems.OnlyASetStartsAgain | internal/linkcore/location.go:97-128 | after a failure, a loss or a stop the next start is a set's |
| Theorems.DeviceToldBySetsAlone | docs/architecture.md:30-35 | immediate repetitions aside, the device is told the same with the refreshes as without them |
| LocationModel.OutstandingIsLatestStart | internal/linkcore/location.go:120-147 | the recursive reading of the command log is the latest start with no acknowledged stop after it, in both directions |
| LocationModel.PulsesOnlyRepeat | internal/linkcore/location.go:158-167 | removing refreshes that repeat their predecessor changes nothing the device is told |
| LocationModel.WithoutPulsesKeepsTheRest | internal/linkcore/location.go:149-171 | what is left without the refreshes: none of them, and every other event as often as before |
| LocationModel.WithoutPulsesInOrder | internal/linkcore/location.go:149-171 | and in the order in which they came |
| LocationModel.SeenAlike | internal/linkcore/location.go:120-162 | two events look alike to the device exactly when they differ at most in who asked for a start |
| LocationModel.ValidLocationsAreDegrees | internal/linkcore/location.go:35-37 | valid coordinates are exactly the pairs of numbers within 90 and 180 degrees |
| LocationModel.SetStartsAgain | internal/linkcore/location.go:158-167 | in a log whose refreshes repeat, the first start after anything else is a set's |
| LocationModel.FailKeeps | internal/linkcore/location.go:89-96 | a failure leaves the state at rest and the target recorded |
| LocationModel.TellLostKeeps | internal/linkcore/location.go:97-103 | a loss leaves the state at rest with no driver and the same target |
| Theorems.ShutdownQuiescence | internal/linkcore/daemon.go:372-379 | once Serve has made its clear attempt, or needed none, no driver is held and no start is ever issued again; an acknowledged clear stands to the end |
| Theorems.PastClearIsQuiesced | internal/linkcore/daemon.go:373-380 | the history's flag is exactly Serve being past its clear |
| Theorems.ClearAckedMeansStopAcked | internal/linkcore/daemon.go:375-377 | the clear counts as acknowledged only by Serve's own stop, acknowledged in the command log |
| Theorems.GenerationsAreLossesPlusHeld | internal/linkcore/daemon.go:127-148 | before teardown the generation is the losses plus one if a session is held, and the lost generations are 1, 2, 3, ... each once |
| Theorems.ClosedOnceInOrder | internal/linkcore/daemon.go:137-154 | at every moment the closed sessions are the first ones opened, each once: all, or all but the newest |
| Theorems.AllClosedWhenServeReturns | internal/linkcore/daemon.go:380-388 | when Serve returns nil every session ever opened was closed exactly once, also one acquired while shutting down |
| Theorems.LabelAgreesWithSession | internal/linkcore/daemon.go:96-135 | until teardown a warm label is shown only with a session and a generation, a cold one only without a session, although the loop writes labels without the operation lock |
| Theorems.EndOnlyWhenCancelled | internal/linkcore/daemon.go:167-194 | until the daemon's context ends the loop, the refresh and Serve have not ended |
| Labels.LabelSaysWhatIsUnderWay | internal/linkcore/daemon.go:96-135 | until then installing and uninstalling are shown exactly while such an operation is at the device or back and not done with the fields, connecting exactly while the loop acquires a session, waiting and session_lost only without one |
| Labels.CodeSaysWhatWentWrong | internal/linkcore/daemon.go:167-176 | until then the error code is service_unresponsive while recovering, the latest trouble while waiting for a session, and empty otherwise |
| Labels.TroubleOfLatest | internal/linkcore/daemon.go:119-146 | the trouble is the code of the acquisition that failed last, or session_lost once a session is lost; no other thread changes it |
| Labels.CountersCountSuccesses | internal/linkcore/daemon.go:211-247 | in every run the two counters are the numbers of installations and removals the device has acknowledged, but for one that is just being counted |
| FieldLock.FieldsAreBehindTheLock | internal/linkcore/daemon.go:83-107 | a step taken without the field lock goes the same whatever the fields hold, and leaves them as they are |
| Theorems.ExclusiveSessionUse | internal/linkcore/daemon.go:196-248 | at most one thread is in a device section, and its handle is the current session and not closed |
| Theorems.DeviceCallsAreOnTheSession | internal/linkcore/daemon.go:205-235 | an installation, removal, screenshot, test run or Serve's close that is at the device is on the current session, not closed, under its own lock |
| Theorems.HandleUsersHoldTheLock | internal/linkcore/screenshot.go:62-74 | whoever may still use a handle it looked up holds the operation lock |
| Theorems.ReportsNameTheirSession | internal/linkcore/xctest.go:184-207 | screenshots and test runs report the generation of the session they used |
| Deadlock.DeadlockFreedom | internal/linkcore/daemon.go:137-154 | in every reachable state whoever waits for a lock waits while some owner of a lock can step |
| Deadlock.OthersCanStep | internal/linkcore/daemon.go:167-194 | whoever waits for no lock can step, unless finished or accepting; who may have finished, and when, is EndOnlyWhenCancelled's part |
| Deadlock.FinishedNeverSteps | internal/linkcore/daemon.go:172-188 | the threads counted as finished are those that never step again |
| Deadlock.WaitersCannotStep | internal/linkcore/daemon.go:189-203 | the threads counted as waiting cannot step while the lock is taken |
| Deadlock.LockOrder | internal/linkcore/location_http.go:202 | the operation lock is taken holding no other lock, the location mutex never inside itself or the field lock |
| Deadlock.LocksAreReleased | internal/linkcore/daemon.go:203-223 | every step of a lock's owner brings its release nearer, so no owner goes round with a lock held |
| Deadlock.RequestsMayArrive | internal/linkcore/daemon.go:362-371 | the runs spoken of are those in which phone requests arrive at any time and socket requests whenever Serve accepts |
| Deadlock.ThreadsMayMove | internal/linkcore/daemon.go:336-361 | and in which the context may end, and any thread that has its lock may step, at any time |
| NilHandle.MissingExactlyAfterTeardown | internal/linkcore/daemon.go:167-194 | in every run the loop holds a missing handle exactly when it has read the session again after teardown |
| NilHandle.SecondReading | internal/linkcore/daemon.go:177 | the second reading finds no session exactly when it comes after teardown |
| NilHandle.MissingLeadsToUse | internal/linkcore/daemon.go:178-182 | from a missing handle every step of the loop, whatever the choice, leads on to its use |
| NilHandle.MissingHandleOnlyAfterTeardown | internal/linkcore/daemon.go:177-182 | a missing handle is held only after Serve, cancelled, has cleared the session |
| NilHandle.MissingHandleIsReachable | internal/linkcore/daemon.go:169-182 | there is a run in which it does |
| LocationSessions.LocationSession.Set | internal/linkcore/location.go:104-128 | the whole new state, the commands issued and the notice given; success exactly for a valid coordinate that reached a driver and was acknowledged; the target is recorded once a start was issued |
| LocationSessions.LocationSession.Clear | internal/linkcore/location.go:129-148 | the whole new state, the commands issued and the notice given; idle and forgotten exactly when acknowledged, otherwise lost with the target retained; no driver either way |
| LocationSessions.LocationSession.PulseTick | internal/linkcore/location.go:149-171 | the whole new state; nothing without a driver; stays active exactly when acknowledged; never changes the target |
| LocationSessions.LocationSession.LoseTunnel | internal/linkcore/location.go:97-103 | the driver is let go and the target is not forgotten |
| LocationSessions.LocationSession.FailWith | internal/linkcore/location.go:89-96 | the driver is closed and released, the phase is lost, the target untouched |
| LocationSessions.LocationSession.Command | internal/linkcore/location.go:67-78 | the command is logged; it fails when refused or timed out, and then a timeout has closed the driver |
| LocationSessions.LocationSession.Reach | internal/linkcore/location.go:110-117 | a driver is opened only when none is held, and failing to open one changes nothing yet |
| LocationSessions.SetPromises | internal/linkcore/location.go:104-128 | for every answer of the device a set leaves the state at rest; active exactly when acknowledged; the target forgotten never, replaced only once issued |
| LocationSessions.ClearPromises | internal/linkcore/location.go:129-148 | for every answer of the device a clear leaves the state at rest; an unacknowledged one keeps the target |
| Daemons.Daemon.constructor | internal/linkcore/daemon.go:63-80 | a new daemon waits at generation 0 with nothing opened or simulated |
| Daemons.Daemon.Establish | internal/linkcore/daemon.go:109-135 | a session is opened only when none is held and the context lives; success makes the next generation active with its own session and no driver, failure leaves the code and waits |
| Daemons.Daemon.LoseSession | internal/linkcore/daemon.go:137-154 | a stale notice changes nothing; a current one counts the loss, closes that session once, releases the driver and keeps the target |
| Daemons.Daemon.Operate | internal/linkcore/daemon.go:203-248 | install and uninstall: a failure keeps the session and recovers; its own counter moves, and only on success; without a session nothing changes |
| Daemons.Daemon.InstallApp | internal/linkcore/daemon.go:196-224 | a bundle that fails validation never touches the daemon |
| Daemons.Daemon.Screenshot | internal/linkcore/screenshot.go:62-84 | changes nothing; an image exactly when lock, session, capture and size allow, with the session's generation; otherwise which of four errors |
| Daemons.Daemon.Shutdown | internal/linkcore/daemon.go:372-388 | the session is closed once; what was simulated is cleared or stays recorded; without a target no command is issued |
| Refinement.AloneRuns | internal/linkcore/daemon.go:167-194 | a thread's steps in a row are a run of the whole system |
| Refinement.SetRefines | internal/linkcore/location.go:104-128 | the steps of a set end in the state the method promises and touch nothing else |
| Refinement.ClearRefines | internal/linkcore/location.go:129-148 | the steps of a clear, Serve's or a request's, end in the state the method promises |
| Refinement.LateOpenFails | internal/linkcore/location.go:110-136 | a driver that does not open on the session that was found is the same failure as none |
| Refinement.RequestClears | internal/linkcore/location_http.go:193-201 | a request's clear leaves the request to reply with that result |
| Refinement.ServeClears | internal/linkcore/daemon.go:374-378 | Serve's clear leaves Serve at its teardown |
| Refinement.PulseRefines | internal/linkcore/location.go:158-167 | the steps of a refresh end in the state the method promises |
| Refinement.EstablishRefines | internal/linkcore/daemon.go:109-135 | the steps of establish end in the fields the method promises |
| Refinement.LoopTriesAgain | internal/linkcore/daemon.go:167-176 | uncancelled and without a session, the loop's own steps lead from a failed attempt through its pause to the next one; it waits with the error code it has |
| Refinement.LoopAttemptsAfterLoss | internal/linkcore/daemon.go:189-191 | and from a lost session to the next attempt at once |
| Refinement.LoopWaitsForLoss | internal/linkcore/daemon.go:172-178 | with a session they lead to waiting for the end of that session, changing nothing |
| Refinement.LoopHearsLoss | internal/linkcore/daemon.go:179-190 | the session's end leads to the loss of the generation that was waited for, unless the context has ended |
| Refinement.LoopEndsWithContext | internal/linkcore/daemon.go:156-183 | wherever it waits or looks, the loop ends with the context and not before |
| Refinement.RefreshTicks | internal/linkcore/location.go:149-157 | a tick leads the refresh to the mutex; the end of the context ends it, nothing else does |
| Refinement.ServeAccepts | internal/linkcore/daemon.go:362-371 | Serve accepts until its context ends, or its listener fails and it returns that error |
| Refinement.LoseRefines | internal/linkcore/daemon.go:137-154 | the steps of loseSession end in the fields and location state the method promises |
| Refinement.OperateRefines | internal/linkcore/daemon.go:203-248 | the steps of install and uninstall end in the fields the method promises |
| Refinement.ValidationRefines | internal/linkcore/daemon.go:196-203 | install validates its bundle before it asks for the lock, and is over if that fails |
| Refinement.PutRefines | internal/linkcore/location_http.go:173-207 | the steps of an accepted PUT end in the state and the reply that the handler promises |
| Refinement.DeleteRefines | internal/linkcore/location_http.go:194-207 | the same for an accepted DELETE |
| Refinement.GetRefines | internal/linkcore/location_http.go:202-207 | a GET changes nothing and replies with what it finds |
| Refinement.RefusedRefines | internal/linkcore/location_http.go:168-188 | a request that comes after the context's end, or names no valid coordinate, is over without a change |
| Refinement.ShotRefines | internal/linkcore/screenshot.go:62-84 | the steps of a screenshot leave the daemon alone and report its session's generation |
| Refinement.TestsRefine | internal/linkcore/xctest.go:184-228 | so do the steps of a test run, whose generation is read before the device is asked |
| Refinement.ShutdownRefines | internal/linkcore/daemon.go:372-388 | the end of Serve, from its last connection to its return, ends where the method does |
| LocationHttp.Handle | internal/linkcore/location_http.go:152-211 | for one request that nobody comes between: each status exactly when, 401 before 404 before 405 before 503 before 400; only an accepted mutation reaches the session; 200 means the device acknowledged it, 502 that it is lost; the reply shows the session as it was left |
| LocationHttp.RefusedOrAccepted | internal/linkcore/location_http.go:155-195 | a request is refused exactly when it is neither an accepted mutation nor an admitted read |
| Replies.RepliesAlwaysFit | internal/linkcore/location_http.go:191-210 | every run keeps: each request between its mutation and its reply, and each reply, agrees with the command log and the acknowledgements |
| Replies.SetIsConfirmed | internal/linkcore/location_http.go:189-206 | in every run a set is answered with 200 exactly when the device acknowledged its own start, the log says where, and otherwise its failure is in the log |
| Replies.ClearIsConfirmed | internal/linkcore/location_http.go:193-206 | in every run a clear is answered with 200 exactly when its stop was acknowledged |
| Replies.ReplyShowsTheLog | internal/linkcore/location_http.go:202 | every reply shows the phase and the target that the commands before its snapshot call for; never applying |
| Replies.OwnResultShown | internal/linkcore/location_http.go:191-202 | a reply shows its request's own result exactly when the latest event before the snapshot is one that gives it |
| Replies.OwnResultAfterRefreshes | internal/linkcore/location_http.go:191-202 | so it does whenever only refreshes came between mutation and snapshot |
| ReplyRace.ConfirmedSetMayShowLoss | internal/linkcore/location_http.go:191-206 | there is a run in which a set is answered with 200 and shown a lost session |
| Atomicity.OperationIsAtomic | internal/linkcore/location.go:104-171 | in every run, when a thread gives the location mutex back, the state is what one set, clear or refresh makes of the state found when it was taken, for some answers of the device |
| Atomicity.Owned | internal/linkcore/location.go:104-171 | whoever owns the mutex has owned it since it took it and is in the middle of one operation |
| Watch.WatchStatus | internal/linkcore/watch.go:32-111 | for every sequence of readings the events are their signatures without repetitions, cut at the first cold reading, which the one final event reports last; watching comes only first and answered; an error keeps its reading's code and message |
| Watch.CutIsUnique | internal/linkcore/watch.go:80-87 | there is one place only where a sequence of readings can be cut |
| Watch.SignaturesTellApart | internal/linkcore/watch.go:10-18 | two readings count as the same exactly when both are answered with equal states, generations, losses, counts and codes, or both fail with one code |
| Watch.EmissionsAreReadings | internal/linkcore/watch.go:53-105 | an emission counts as the same as the reading it passes on |
| Watch.RemembersAnswer | internal/linkcore/watch.go:72-80 | the loop's test for cold, on two variables, is the definition over all readings so far |
| Watch.RepeatReports | internal/linkcore/watch.go:89-97 | a repeated signature leaves the report of one more reading as it is |
| Watch.ChangeReports | internal/linkcore/watch.go:97-108 | a new signature adds one event, watching only if it is the first and answered |
| WatchDaemon.ColdMeansLoss | internal/linkcore/watch.go:72-87 | over a run of the daemon a cold event implies a loseSession step between the first answered and the last reading |
| WatchDaemon.LossEndsTheWatch | internal/linkcore/daemon.go:137-148 | after an answer that was taken while a session was held, and a loss, the next answered reading is cold, whatever generation is active by then |
| WatchDaemon.WarmExactlyWithSession | internal/linkcore/watch.go:20-30 | in every run, until shutdown, a reading is warm exactly when a session is held |
| WatchDaemon.ColdMeansWarm | internal/linkcore/watch.go:76-80 | a cold reading comes only after an answer that was taken while a session was held, or after teardown |
| WatchDaemon.NoLossNoCold | internal/linkcore/watch.go:80-87 | without a loss in the run the watch never ends by itself |
| WatchDaemon.LossBetween | internal/linkcore/daemon.go:143-147 | between two moments with different loss counts lies a loss step |
| WatchDaemon.WatchRun | internal/linkcore/watch.go:32-111 | the events of a watch over one run: cold at most once and last, showing the daemon after a loss; and no later than the next answer when a session is lost after an answer that was taken while one was held |
| Control.ValidateCommand | internal/linkcore/control.go:193-221 | accepts exactly the acceptable commands, and which of two codes refuses the others |
| Control.Connection.Handle | internal/linkcore/daemon.go:250-330 | writes exactly the answer to the request, or its first bytes when the connection fails after them; cancels the daemon exactly on an accepted stop |
| Control.FramesAppend | internal/linkcore/control.go:183-187 | responses written one after the other are framed one after the other |
| Control.CutTextIsNoValue | internal/linkcore/control.go:137 | the text of a response that is cut short is not yet a value to the decoder |
| Calls.Call | internal/linkcore/control.go:133-158 | however the bytes arrive and whatever the decoder reads ahead, the call returns and delivers what the specification over the whole stream says |
| Calls.Decoder.Decode | internal/linkcore/control.go:133-138 | the next value of the stream if it lies within the limit, wherever reads end; no byte of the stream is lost |
| Calls.ScanSettles | internal/linkcore/control.go:137 | what the scanner makes of the bytes read so far stands whatever follows them |
| Calls.Decoder.Fill | internal/linkcore/control.go:133 | a read through the limit keeps the rest of the stream and what may still be decoded |
| Calls.ReadScreenshotBody | internal/linkcore/control.go:163-176 | the image is the bytes after one newline; otherwise which of two errors |
| Calls.TakeBody | internal/linkcore/control.go:143 | buffer and socket together give the same image wherever the header's read ended |
| Protocol.AnswersAreWellFormed | internal/linkcore/daemon.go:250-330 | every answer has one final response, and an image exactly behind a screenshot's |
| Protocol.OneFinalResponse | internal/linkcore/daemon.go:250-330 | the bytes written for a request parse back to its answer's responses, among them exactly one final one |
| Protocol.CallOnAnswer | internal/linkcore/control.go:134-158 | an answer cut after any byte: exactly when final response and image are complete and the responses fit the limit, the call ends as the final response says after all interim ones; otherwise it fails having delivered interim responses only |
| Protocol.RequestIsAnswered | internal/linkcore/control.go:114-158 | for every request, on a connection that takes any number of bytes: the call returns the daemon's answer exactly when it has got through and fits 1 MiB, and control_response_failed otherwise |
| Answers.StatusIsShown | internal/linkcore/control.go:53-65 | a status request shows the daemon's state, generation, losses, both counts and error code, each in its place: the reply the watch reads |
| Answers.StopIsShown | internal/linkcore/daemon.go:294-298 | a stop request shows stopping |
| Answers.InstallIsShown | internal/linkcore/daemon.go:299-317 | an installation shows that it is accepted, each progress report in turn, and the daemon's state, generation and install count, or the error's code and message |
| Answers.UninstallIsShown | internal/linkcore/daemon.go:318-330 | a removal shows that it is accepted and the state, generation and uninstall count, or the error |
| Answers.ScreenshotIsShown | internal/linkcore/screenshot.go:81-83 | a screenshot shows state and generation and delivers exactly its image, or the error |
| Answers.TestsAreShown | internal/linkcore/xctest.go:227-233 | a test run shows that it has started and its result's path and counts under its generation, or test_run_failed, or the error |
| Answers.RefusalIsShown | internal/linkcore/daemon.go:257-260 | a refused command shows its refusal alone, with one of two codes |
| Protocol.CallOnAnyStream | internal/linkcore/control.go:134-158 | whatever is on the stream: only the last response delivered can be final; the call succeeds exactly when it is and says so, and fails with its code when it says otherwise; images come behind screenshots alone |
| Protocol.BlanksBeforeValues | internal/linkcore/control.go:133-138 | space, tab, line feed and carriage return, and no other byte, may stand before a response |
| Protocol.LongProgressFailsTheCall | internal/linkcore/control.go:133-138 | a successful installation with enough progress responses is reported as failed |
| Protocol.BodyIsExact | internal/linkcore/control.go:163-176 | an image is read exactly when its size is allowed and a newline and that many bytes follow the header |
| Streams.Stream.ReadFull | patches/link-core-tailnet.patch:1199-1213 | exactly the first n elements however the stream is cut into pieces, or a failure when there are fewer |
| PairingPackets.Sender.Send | patches/link-core-tailnet.patch:1174-1197 | which of four errors: a missing envelope, an encoding that fails and a payload over 65535 bytes leave the connection untouched; a failing write leaves the packet's first bytes |
| PairingPackets.Sender.SendAll | patches/link-core-tailnet.patch:1174-1197 | messages sent in turn are their packets in turn, up to where the connection fails |
| PairingPackets.Receive | patches/link-core-tailnet.patch:1199-1219 | takes the first message off the stream however it is fragmented, or says what is wrong with it, undecodable JSON included |
| PairingPackets.ReceiveAll | patches/link-core-tailnet.patch:1199-1219 | receiving repeatedly is parsing the whole stream |
| PairingPackets.ParsePacket | patches/link-core-tailnet.patch:1187-1193 | a packet is read back and what follows it is left alone |
| PairingPackets.OnlyPacketsParse | patches/link-core-tailnet.patch:1199-1213 | whatever is accepted is the packet of its payload |
| PairingPackets.TruncationIsRejected | patches/link-core-tailnet.patch:1199-1213 | a packet cut short anywhere is refused, and not for its magic |
| PairingPackets.StreamRoundTrip | patches/link-core-tailnet.patch:1174-1219 | any list of messages whose text is read back is received as it was sent, followed by the end of the stream |
| PairingPackets.CutStream | patches/link-core-tailnet.patch:1199-1219 | a stream cut anywhere gives the complete messages and then a failure |
| PairingPackets.SizeRoundTrip | patches/link-core-tailnet.patch:1188-1209 | the two length bytes and the length determine each other |
| PairingPackets.PacketOnTheWire | patches/link-core-tailnet.patch:1187-1193 | a packet is the nine characters of RPPairing, its payload's length with the high byte first, and the payload |
| PairingPackets.PeersPacketIsTaken | patches/link-core-tailnet.patch:1199-1213 | of any stream that begins with RPPairing exactly as many bytes are taken as its two length bytes say, high byte first |
| PairingPackets.HeadsThatAreRefused | patches/link-core-tailnet.patch:1199-1210 | a stream too short for the name, with another name, or without its two length bytes is refused, each as what it is |
| Base64.WireRoundTrip | patches/link-core-tailnet.patch:1018-1031 | byte fields survive as base64 text and as raw bytes |
| Base64.QuadsRoundTrip | patches/link-core-tailnet.patch:1022-1027 | decoding inverts encoding for every sequence of bytes |
| Base64.AlphabetIsStandard | patches/link-core-tailnet.patch:1022-1027 | the sixty-four characters and their order are those of table 1 of RFC 4648 |
| Base64.BitsInOrder | patches/link-core-tailnet.patch:1022-1027 | four characters are the 24 bits of three bytes in order, in both directions |
| Base64.PaddingOfTheRest | patches/link-core-tailnet.patch:1022-1027 | one or two bytes left over become two or three characters and padding |
| Base64.PaddingReadBack | patches/link-core-tailnet.patch:1022-1027 | padded characters give the bytes they fill, whatever their unused bits |
| Base64.WrittenInGroups | patches/link-core-tailnet.patch:1022-1027 | a text is written three bytes at a time |
| Base64.BreaksAreSkipped | patches/link-core-tailnet.patch:1022-1027 | line breaks anywhere change nothing |
| Base64.AcceptedIsEncoded | patches/link-core-tailnet.patch:1018-1031 | a text that decodeWireBytes accepts is the encoder's own exactly when it has no line breaks and its unused bits are zero |
| Base64.DecodedIsEncoded | patches/link-core-tailnet.patch:1022-1027 | for text whose line breaks are gone: it is the encoding of its bytes exactly when its unused bits are zero |
| Base64.UnusedBitsAreAccepted | patches/link-core-tailnet.patch:1022-1027 | a text with other unused bits is accepted for the same byte |
| Base64.BreaksAreAccepted | patches/link-core-tailnet.patch:1022-1027 | a text with a line break is accepted for the same byte |
| Evidence.ValidateTestRun | internal/linkcore/xctest.go:46-75 | accepts exactly the acceptable requests, selectors unique among them |
| Names.SelectorsLookLike | internal/linkcore/xctest.go:43 | a selector is an identifier, a slash and a method that begins with test and goes on, letter by letter |
| Names.BundleNamesLookLike | internal/linkcore/xctest.go:44 | a test bundle is an identifier and .xctest |
| Names.AttachmentNamesLookLike | internal/linkcore/xctest.go:69-73 | an attachment name has 1 to 256 characters, none of them NUL, CR or LF |
| Names.AbsolutePathsLookLike | internal/linkcore/xctest.go:63 | an absolute path begins with a slash |
| Names.BundleIdentifiersLookLike | internal/linkcore/app.go:23-46 | a bundle identifier, split at its dots by the code, is the same read character by character |
| Names.SplitIsBetween | internal/linkcore/app.go:27 | the parts are what stands between the separators |
| Names.DepthOfPath | internal/linkcore/xctest.go:63 | how deep a path leads, element by element, so which paths clean to the root |
| Evidence.VerifyTestEvidence | internal/linkcore/xctest.go:115-178 | accepts exactly sufficient evidence; counts and renames are those of all the cases, or of exactly the cases and attachments before the first that fails |
| Evidence.VerifySuite | internal/linkcore/xctest.go:119-162 | the middle loop succeeds exactly when the cases passed under new selectors and their attachments are good; otherwise it stops at the first fault with what came before it counted and renamed |
| Evidence.VerifyAttachments | internal/linkcore/xctest.go:131-161 | the inner loop succeeds exactly when each PNG in turn is good where it lies, and renames and counts exactly those before the first bad one |
| Evidence.CheckRequested | internal/linkcore/xctest.go:164-177 | the last comparisons: as many selectors as requested, none missing, every required name present |
| Evidence.ExactWhenDistinct | internal/linkcore/xctest.go:115-178 | sufficient evidence is the requested tests, each exactly once, exactly when no test was requested twice |
| Evidence.EvidenceIsExact | internal/linkcore/xctest.go:113-178 | so for an accepted request it is the requested tests, each exactly once, all passed |
| Evidence.EachTestIsReportedOnce | internal/linkcore/xctest.go:115-178 | in the class and method names the run reported: each requested test is reported by one case and no other, and every case passed and reports a requested test |
| Evidence.SelectorIsReported | internal/linkcore/xctest.go:121-125 | a case reported as method m of class c, behind a module or not, with () or not, has the selector c/m, and every case is reported as some c and m |
| Evidence.SelectorExamples | internal/linkcore/xctest.go:121-125 | the four forms of a reported name, all of them the one selector |
| Evidence.GoodPngsAreBounded | internal/linkcore/xctest.go:139-156 | a good PNG is a readable regular file of 1 byte to 64 MiB that decodes and has 1 to 16 mebi pixels |
| Evidence.KeptPngs | internal/linkcore/xctest.go:133-160 | every PNG of accepted attachments was checked good at its place and has its new name; the others are untouched |
| Evidence.RequiredNamesHavePngs | internal/linkcore/xctest.go:172-176 | every required name belongs to a PNG that was good when it was checked |
| Evidence.SufficientIs | internal/linkcore/xctest.go:164-176 | the check's set comparisons say the same as the definition over the list of cases |
| Evidence.StopsLater | internal/linkcore/xctest.go:118-163 | the first fault of a suite, after suites without one, is the first fault of all the cases |
| Evidence.RepeatedSelectorHidesATest | internal/linkcore/xctest.go:56-62 | with a repeated selector in the request, evidence with an unrequested test would be accepted |
| TestRuns.RunTests | internal/linkcore/xctest.go:180-234 | which reason stops a run first; a successful one reports the requested tests each passed exactly once, counted, under the session's generation; a failed one counts what came before the first fault |
| Provisioning.ConfigureLocation | internal/linkcore/location_http.go:64-120 | succeeds exactly when nothing fails, and what every failure leaves in the file system |
| Provisioning.SuccessProvisions | internal/linkcore/location_http.go:103-119 | three complete files with one token and one identity, the profile pointing at the credentials, no file replaced |
| Provisioning.BesideTheProfile | internal/linkcore/location_http.go:72 | the credentials lie beside the profile, whatever directory it is in |
| Provisioning.FailureTouchesNothing | internal/linkcore/location_http.go:106-118 | on failure the profile and every other existing file are as they were |
| Provisioning.RollbackIsComplete | internal/linkcore/location_http.go:109-118 | on failure the file system is as it was exactly when the failing write left nothing and the removals worked |
| Provisioning.PartialCredentialsStay | internal/linkcore/location_http.go:60-62 | there is a failing run after which a partial credentials file stays |
| Provisioning.FileSystem.WriteNew | internal/linkcore/location_http.go:51-63 | never replaces a file; complete when there is no error |
| Provisioning.FileSystem.WriteConfig | internal/linkcore/config.go:171-213 | the profile is replaced as a whole or not at all |

## Left out

- Wall-clock time: deadlines, the retry interval, the refresh interval and `commandTime` are absent; a timeout is an outcome that a call may have at any moment.
- The device and its services (RSD, Instruments, installation proxy, testmanagerd, TLS, code signing, PNG decoding, X.509): each answers as a parameter or a step's choice.
- JSON text: a parameter. Control.Lawful is what is taken for granted of it: a text is read back, and the scanner's verdict on the bytes so far stands whatever follows. `LawfulCodec.dfy` constructs a codec that meets it.
- Starvation: locks are not fair in the model, and external calls are taken to return.
- Control.Connection.Handle: write deadlines, the reading of the request's text and the cancelling of tests on a disconnect are absent; a connection that has failed once goes on failing.
- LocationSessions.LocationSession.Command: the goroutine a timed-out call leaves behind is not modelled; commands are logged when issued.
- `OpenLocation` after a cancelled open: the late driver that it closes by itself is not modelled.
- LocationHttp.Handle: speaks of one request alone; what replies say while others act is Replies' part. The TLS listener and the texts of refusals are absent.
- Theorems.DriversReleased: a driver may be closed twice after a timeout (location.go:74 and 91), so it states at least one close, not exactly one.
- Theorems.AllClosedWhenServeReturns: holds for a nil return only, since the error return of daemon.go:368 tears nothing down.
- The stopping label is not sticky: an operation that ends after daemon.go:372 can write active again, so nothing is claimed about it.
- The generation and counters in install and uninstall responses are read after the lock is released, so nothing is claimed about them.
- Counters are natural numbers; the wrap-around of 64-bit counters is absent.
- Readers of the field lock exclude each other in the model; a section under the location mutex without a wait inside is one step.
- Atomicity covers the location mutex. The fields under the operation lock have no such theorem, because labels are written without it (daemon.go:170 and 372).
- Watch.WatchStatus: readings with state labels unknown to the daemon and the times of observation are absent.
- Daemons.Daemon.constructor: that a profile path can be too long for a socket (config.go:218) is absent.
- Daemons.Daemon.Shutdown: starts from a daemon at rest; shutdown racing with the other threads is the step system's part.
- Evidence.ValidateTestRun: whether a bind address is a Tailscale address is a flag of the request.
- Evidence.VerifyTestEvidence: a path is its directory and last element, and the texts of the errors are absent.
- Provisioning.ConfigureLocation: path cleaning and aliases of one file under two names are absent, as are file modes, the sync of directories and the listen address's own syntax.
- TestRuns.RunTests: the capture bridge, the steps of creating the output directory and the content of `result.json` are absent.
- `prepareUnixListener` and `SaveScreenshot`: a socket file replaced when nobody answers on it, and an image written to a new file; straight-line code over one file each.
- The doctor report, launchd, scripts and the command line: they gather facts, format text and start processes; no state of the daemon passes through them.
- The testmanagerd part of the patch: most of the code it changes is not part of the repository.
