/**
 What a client is shown: for each command the responses that Call delivers when the daemon's answer has got
 through, field by field.
 */
module Answers {
  import opened Common
  import opened DaemonFields
  import opened Streams
  import opened Control
  import opened Calls
  import opened Protocol
  import W = Watch
  import D = WatchDaemon

  /** The connection takes the final response with its image, and the responses fit one mebibyte. */
  predicate GetsThrough(codec: Codec, request: Request, work: Work, room: nat) {
    var a := AnswerTo(Some(request), work);
    IsComplete(codec, a, room) && HeaderBytes(codec, a) <= 1_048_576
  }

  function Answered(codec: Codec, request: Request, work: Work, room: nat): (Option<string>, seq<Delivered>) {
    CallOn(codec, request.command, Cut(Written(codec, AnswerTo(Some(request), work)), room), 1_048_576)
  }

  /** The call has succeeded with this one response, which has no image. */
  predicate IsOnly(answered: (Option<string>, seq<Delivered>), r: Response) {
    answered == (None, [Delivered(r, [])])
  }

  lemma AnsweredIs(codec: Codec, request: Request, work: Work, room: nat)
    requires Lawful(codec) && Captured(Some(request), work) && GetsThrough(codec, request, work, room)
    ensures var a := AnswerTo(Some(request), work);
            Answered(codec, request, work, room) ==
            (Outcome(a.final), Shown(a.interim) + [Delivered(a.final, a.image)])
  {
    hide AnswerTo;
    hide Lawful;
    hide CallOn;
    RequestIsAnswered(codec, request, work, room);
  }

  // ----- status and stop

  /** A status request shows the daemon's fields, the very reply that the watch reads. */
  lemma StatusIsShown(codec: Codec, request: Request, work: Work, room: nat)
    requires Lawful(codec) && AcceptableCommand(request) && request.command == "status"
    requires GetsThrough(codec, request, work, room)
    ensures var (error, shown) := Answered(codec, request, work, room);
            && error.None? && |shown| == 1 && shown[0].image == []
            && var r := shown[0].response;
            && r.ok && r.final && r.event == StatusEvent && r.errorCode == "" && r.text == "" && r.imageBytes == 0
            && r.state == Some(work.after.state)
            && r.generation == work.after.generation
            && r.sessionLosses == work.after.sessionLosses
            && r.installCount == work.after.installCount
            && r.uninstallCount == work.after.uninstallCount
            && r.lastErrorCode == work.after.lastErrorCode
            && W.Reply(r.state.value, r.generation, r.sessionLosses, r.installCount, r.uninstallCount, r.lastErrorCode)
               == D.ReplyOf(work.after)
  {
    hide Answered;
    hide CallOn;
    hide AcceptableCommand;
    hide Lawful;
    hide GetsThrough;
    AnsweredIs(codec, request, work, room);
  }

  lemma StopIsShown(codec: Codec, request: Request, work: Work, room: nat)
    requires Lawful(codec) && AcceptableCommand(request) && request.command == "stop"
    requires GetsThrough(codec, request, work, room)
    ensures var (error, shown) := Answered(codec, request, work, room);
            && error.None? && |shown| == 1
            && var r := shown[0].response;
            r.ok && r.final && r.event == StoppingEvent && r.state == Some(Stopping) && r.errorCode == ""
  {
    hide Answered;
    hide CallOn;
    hide AcceptableCommand;
    hide Lawful;
    hide GetsThrough;
    AnsweredIs(codec, request, work, room);
  }

  // ----- install and uninstall

  /** The first response of a command that takes long: it is on its way, under the label it was accepted with. */
  predicate IsAccepted(d: Delivered, event: Event, state: Label) {
    && d.image == [] && d.response.ok && !d.response.final && d.response.event == event
    && d.response.state == Some(state) && d.response.errorCode == ""
  }

  predicate IsProgress(d: Delivered, u: Update) {
    && d.image == [] && d.response.ok && !d.response.final && d.response.event == ProgressEvent
    && d.response.percent == u.percent && d.response.text == u.status
  }

  /** The final response to a failed command is the error: its code, its message and no state. */
  predicate IsError(d: Delivered, code: string, message: string) {
    && d.image == [] && !d.response.ok && d.response.final && d.response.event == ErrorEvent
    && d.response.errorCode == code && d.response.text == message && d.response.state.None?
  }

  lemma InstallIsShown(codec: Codec, request: Request, work: Work, room: nat)
    requires Lawful(codec) && AcceptableCommand(request) && request.command == "install"
    requires GetsThrough(codec, request, work, room)
    ensures var (error, shown) := Answered(codec, request, work, room);
            var n := |work.progress|;
            && error == work.error
            && |shown| == n + 2
            && IsAccepted(shown[0], AcceptedEvent, work.before)
            && (forall i :: 0 <= i < n ==> IsProgress(shown[1 + i], work.progress[i]))
            && (work.error.Some? ==> IsError(shown[n + 1], work.error.value, work.message))
            && (work.error.None? ==>
                  var r := shown[n + 1].response;
                  && r.ok && r.final && r.event == InstalledEvent && r.errorCode == ""
                  && r.state == Some(work.after.state)
                  && r.generation == work.after.generation
                  && r.installCount == work.after.installCount
                  && r.uninstallCount == 0)
  {
    hide Answered;
    hide CallOn;
    hide AcceptableCommand;
    hide Lawful;
    hide GetsThrough;
    AnsweredIs(codec, request, work, room);
  }

  lemma UninstallIsShown(codec: Codec, request: Request, work: Work, room: nat)
    requires Lawful(codec) && AcceptableCommand(request) && request.command == "uninstall"
    requires GetsThrough(codec, request, work, room)
    ensures var (error, shown) := Answered(codec, request, work, room);
            && error == work.error
            && |shown| == 2
            && IsAccepted(shown[0], AcceptedEvent, work.before)
            && (work.error.Some? ==> IsError(shown[1], work.error.value, work.message))
            && (work.error.None? ==>
                  var r := shown[1].response;
                  && r.ok && r.final && r.event == UninstalledEvent && r.errorCode == ""
                  && r.state == Some(work.after.state)
                  && r.generation == work.after.generation
                  && r.uninstallCount == work.after.uninstallCount
                  && r.installCount == 0)
  {
    hide Answered;
    hide CallOn;
    hide AcceptableCommand;
    hide Lawful;
    hide GetsThrough;
    AnsweredIs(codec, request, work, room);
  }

  // ----- screenshot and run-tests

  lemma ScreenshotIsShown(codec: Codec, request: Request, work: Work, room: nat)
    requires Lawful(codec) && AcceptableCommand(request) && request.command == "screenshot"
    requires work.error.None? ==> 0 < |work.image| <= 67_108_864
    requires GetsThrough(codec, request, work, room)
    ensures var (error, shown) := Answered(codec, request, work, room);
            && error == work.error
            && |shown| == 1
            && (work.error.Some? ==> IsError(shown[0], work.error.value, work.message))
            && (work.error.None? ==>
                  var r := shown[0].response;
                  && shown[0].image == work.image
                  && r.ok && r.final && r.event == ScreenshotEvent && r.errorCode == ""
                  && r.imageBytes == |work.image|
                  && r.state == Some(work.after.state)
                  && r.generation == work.after.generation)
  {
    hide Answered;
    hide CallOn;
    hide AcceptableCommand;
    hide Lawful;
    hide GetsThrough;
    AnsweredIs(codec, request, work, room);
  }

  lemma TestsAreShown(codec: Codec, request: Request, work: Work, room: nat)
    requires Lawful(codec) && AcceptableCommand(request) && request.command == "run-tests"
    requires GetsThrough(codec, request, work, room)
    ensures var (error, shown) := Answered(codec, request, work, room);
            && |shown| == 2
            && IsAccepted(shown[0], TestsStartedEvent, work.before)
            && (work.error.Some? ==> error == work.error && IsError(shown[1], work.error.value, work.message))
            && (work.error.None? ==>
                  var r := shown[1].response;
                  && error == (if work.tests.ok then None else Some("test_run_failed"))
                  && r.ok == work.tests.ok && r.final && r.event == TestsFinishedEvent
                  && r.errorCode == (if work.tests.ok then "" else "test_run_failed")
                  && r.text == (if work.tests.ok then "" else work.message)
                  && r.state == Some(work.after.state)
                  && r.generation == work.after.generation
                  && r.resultPath == work.tests.path
                  && r.testCount == work.tests.passed
                  && r.screenshotCount == work.tests.screenshots)
  {
    hide Answered;
    hide CallOn;
    hide AcceptableCommand;
    hide Lawful;
    hide GetsThrough;
    AnsweredIs(codec, request, work, room);
  }

  /** A refused command is answered with its refusal and nothing else. */
  lemma RefusalIsShown(codec: Codec, request: Request, work: Work, room: nat)
    requires Lawful(codec) && !AcceptableCommand(request) && Captured(Some(request), work)
    requires GetsThrough(codec, request, work, room)
    ensures var (error, shown) := Answered(codec, request, work, room);
            var code := if request.command == "run-tests" && request.appPath == "" && request.bundleIdentifier == ""
                        then "test_request_invalid" else "control_request_invalid";
            error == Some(code) && |shown| == 1 && IsError(shown[0], code, work.message)
  {
    hide Answered;
    hide CallOn;
    hide AcceptableCommand;
    hide Lawful;
    hide GetsThrough;
    AnsweredIs(codec, request, work, room);
  }
}
