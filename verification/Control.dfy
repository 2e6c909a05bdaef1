/**
 The control socket (internal/linkcore/control.go, daemon.go): what the daemon writes for a request, byte for
 byte. How a response is written as JSON text, and how such a text is found in a stream, is a parameter.
 */
module Control {
  import opened Common
  import opened DaemonFields
  import opened Names
  import opened Evidence
  import opened Streams

  const MAX_HEADERS: nat := 0x10_0000

  const NEWLINE: Byte := 10

  datatype Event =
    | ErrorEvent
    | StatusEvent
    | StoppingEvent
    | AcceptedEvent
    | ProgressEvent
    | InstalledEvent
    | UninstalledEvent
    | TestsStartedEvent
    | TestsFinishedEvent
    | ScreenshotEvent

  /** The fields a client reads; a field that is left out is its zero. `text` is a status or an error's message. */
  datatype Response = Response(
    ok: bool,
    final: bool,
    event: Event,
    errorCode: string,
    text: string,
    percent: int,
    imageBytes: int,
    state: Option<Label>,
    generation: nat,
    sessionLosses: nat,
    installCount: nat,
    uninstallCount: nat,
    lastErrorCode: string,
    resultPath: string,
    testCount: nat,
    screenshotCount: nat)

  function Blank(ok: bool, final: bool, event: Event): Response {
    Response(ok, final, event, "", "", 0, 0, None, 0, 0, 0, 0, "", "", 0, 0)
  }

  // ----- The JSON text of a response

  /** What the scanner makes of the start of a stream: it needs more, cannot go on, or has found a value. */
  datatype Scan = More | Bad | Found(response: Response, length: nat)

  datatype Codec = Codec(encode: Response -> seq<Byte>, scan: seq<Byte> -> Scan)

  predicate IsBlank(b: Byte) {
    b == 32 || b == 9 || b == 13 || b == 10
  }

  /** A text is read back, and the scanner's verdict stands whatever follows: no value is the start of another. */
  ghost predicate Lawful(codec: Codec) {
    && (forall r :: codec.encode(r) != [] && !IsBlank(codec.encode(r)[0]))
    && (forall r :: codec.scan(codec.encode(r)) == Found(r, |codec.encode(r)|))
    && (forall s :: codec.scan(s).Found? ==> 0 < codec.scan(s).length <= |s|)
    && (forall s, t :: s <= t && !codec.scan(s).More? ==> codec.scan(t) == codec.scan(s))
  }

  /** A text that is cut short is not yet a value. */
  lemma CutTextIsNoValue(codec: Codec, r: Response, k: nat)
    requires Lawful(codec) && k < |codec.encode(r)|
    ensures codec.scan(codec.encode(r)[..k]).More?
  {
    assert codec.encode(r)[..k] <= codec.encode(r);
  }

  // ----- Requests

  datatype Request = Request(
    command: string,
    appPath: string,
    bundleIdentifier: string,
    testRun: Option<TestRunRequest>)

  predicate AcceptableCommand(r: Request) {
    if r.command == "run-tests" then
      r.appPath == "" && r.bundleIdentifier == "" && r.testRun.Some? && Acceptable(r.testRun.value)
    else
      && r.testRun.None?
      && (r.command == "status" || r.command == "stop" || r.command == "screenshot"
          || r.command == "install" || r.command == "uninstall")
      && (r.appPath != "" <==> r.command == "install")
      && (if r.command == "uninstall" then IsBundleIdentifier(r.bundleIdentifier) else r.bundleIdentifier == "")
  }

  /** The code a command is refused with. */
  function Refusal(r: Request): string {
    if r.command == "run-tests" && r.appPath == "" && r.bundleIdentifier == "" then "test_request_invalid"
    else "control_request_invalid"
  }

  /** validateCommand. */
  method ValidateCommand(r: Request) returns (error: Option<string>)
    ensures error.None? <==> AcceptableCommand(r)
    ensures error.Some? ==> error.value == Refusal(r)
  {
    var invalid := Some("control_request_invalid");
    if r.command == "run-tests" {
      if r.appPath != "" || r.bundleIdentifier != "" {
        return invalid;
      }
      var ok := ValidateTestRun(r.testRun);
      return if ok then None else Some("test_request_invalid");
    }
    if r.testRun.Some? {
      return invalid;
    }
    if r.command == "status" || r.command == "stop" || r.command == "screenshot" {
      return if r.appPath != "" || r.bundleIdentifier != "" then invalid else None;
    }
    if r.command == "install" {
      return if r.appPath == "" || r.bundleIdentifier != "" then invalid else None;
    }
    if r.command == "uninstall" {
      return if r.appPath != "" || !IsBundleIdentifier(r.bundleIdentifier) then invalid else None;
    }
    error := invalid;
  }

  // ----- What the daemon writes

  /** What an installation reports on its way. */
  datatype Update = Update(percent: int, status: string)

  /**
   What the daemon's own work for one request comes to: the label before it, the fields after it, and what the
   command has given. The message goes with an error or a refusal.
   */
  datatype Work = Work(
    before: Label,
    progress: seq<Update>,
    late: seq<Update>,
    error: Option<string>,
    message: string,
    image: seq<Byte>,
    tests: TestsResult,
    after: Fields)

  datatype TestsResult = TestsResult(ok: bool, path: string, passed: nat, screenshots: nat)

  function ErrorResponse(code: string, message: string): Response {
    Blank(false, true, ErrorEvent).(errorCode := code, text := message)
  }

  function Interim(event: Event, state: Label): Response {
    Blank(true, false, event).(state := Some(state))
  }

  function ProgressResponse(u: Update): Response {
    Blank(true, false, ProgressEvent).(text := u.status, percent := u.percent)
  }

  function FinalResponse(event: Event, f: Fields): Response {
    Blank(true, true, event).(state := Some(f.state), generation := f.generation)
  }

  /** snapshotResponse. */
  function StatusResponse(f: Fields): Response {
    FinalResponse(StatusEvent, f).(
      sessionLosses := f.sessionLosses,
      installCount := f.installCount,
      uninstallCount := f.uninstallCount,
      lastErrorCode := f.lastErrorCode)
  }

  function InstalledResponse(f: Fields): Response {
    FinalResponse(InstalledEvent, f).(installCount := f.installCount)
  }

  function UninstalledResponse(f: Fields): Response {
    FinalResponse(UninstalledEvent, f).(uninstallCount := f.uninstallCount)
  }

  function ScreenshotResponse(work: Work): Response {
    FinalResponse(ScreenshotEvent, work.after).(imageBytes := |work.image|)
  }

  function TestsResponse(work: Work): Response {
    var r := work.tests;
    var final := FinalResponse(TestsFinishedEvent, work.after).(
      resultPath := r.path,
      testCount := r.passed,
      screenshotCount := r.screenshots);
    if r.ok then final else final.(ok := false, errorCode := "test_run_failed", text := work.message)
  }

  function Progress(updates: seq<Update>): (r: seq<Response>)
    ensures |r| == |updates|
    ensures forall i :: 0 <= i < |r| ==> r[i] == ProgressResponse(updates[i])
  {
    seq(|updates|, i requires 0 <= i < |updates| => ProgressResponse(updates[i]))
  }

  /** The responses to one request in order: interim ones, the final one, its image, and progress that comes late. */
  datatype Answer = Answer(interim: seq<Response>, final: Response, image: seq<Byte>, late: seq<Response>)

  function OnlyFinal(final: Response): Answer {
    Answer([], final, [], [])
  }

  function InstallAnswer(work: Work): Answer {
    var interim := [Interim(AcceptedEvent, work.before)] + Progress(work.progress);
    if work.error.Some?
    then Answer(interim, ErrorResponse(work.error.value, work.message), [], Progress(work.late))
    else Answer(interim, InstalledResponse(work.after), [], [])
  }

  function AnswerTo(request: Option<Request>, work: Work): Answer {
    if request.None? then OnlyFinal(ErrorResponse("control_request_invalid", work.message))
    else if !AcceptableCommand(request.value) then OnlyFinal(ErrorResponse(Refusal(request.value), work.message))
    else
      var failed := work.error.Some?;
      var error := ErrorResponse(if failed then work.error.value else "", work.message);
      match request.value.command
      case "run-tests" =>
        Answer([Interim(TestsStartedEvent, work.before)], if failed then error else TestsResponse(work), [], [])
      case "screenshot" =>
        if failed then OnlyFinal(error) else Answer([], ScreenshotResponse(work), work.image, [])
      case "status" => OnlyFinal(StatusResponse(work.after))
      case "stop" => OnlyFinal(Blank(true, true, StoppingEvent).(state := Some(Stopping)))
      case "install" => InstallAnswer(work)
      case _ =>
        Answer([Interim(AcceptedEvent, work.before)], if failed then error else UninstalledResponse(work.after), [], [])
  }

  function Frame(codec: Codec, r: Response): seq<Byte> {
    codec.encode(r) + [NEWLINE]
  }

  function Frames(codec: Codec, rs: seq<Response>): seq<Byte> {
    if rs == [] then [] else Frames(codec, rs[..|rs| - 1]) + Frame(codec, rs[|rs| - 1])
  }

  function Written(codec: Codec, a: Answer): seq<Byte> {
    Frames(codec, a.interim) + Frame(codec, a.final) + a.image + Frames(codec, a.late)
  }

  /** The connection takes `room` more bytes and then fails, and goes on failing. */
  class Connection {
    const codec: Codec
    var written: seq<Byte>
    var room: nat
    var cancelled: bool

    constructor (codec: Codec, room: nat)
      ensures this.codec == codec && this.room == room && written == [] && !cancelled
    {
      this.codec, this.room, written, cancelled := codec, room, [], false;
    }

    method Write(data: seq<Byte>) returns (ok: bool)
      modifies this`written, this`room
      ensures ok <==> |data| <= old(room)
      ensures written == old(written) + Cut(data, old(room)) && room == RoomAfter(data, old(room))
    {
      ok := |data| <= room;
      if ok {
        written, room := written + data, room - |data|;
      } else {
        written, room := written + data[..room], 0;
      }
    }

    method Encode(r: Response) returns (ok: bool)
      modifies this`written, this`room
      ensures ok <==> |Frame(codec, r)| <= old(room)
      ensures written == old(written) + Cut(Frame(codec, r), old(room)) && room == RoomAfter(Frame(codec, r), old(room))
    {
      ok := Write(codec.encode(r) + [NEWLINE]);
    }

    /** Progress is reported whether or not it gets through. */
    method EncodeProgress(updates: seq<Update>)
      modifies this`written, this`room
      ensures written == old(written) + Cut(Frames(codec, Progress(updates)), old(room))
      ensures room == RoomAfter(Frames(codec, Progress(updates)), old(room))
    {
      ghost var all := Progress(updates);
      for i := 0 to |updates|
        invariant written == old(written) + Cut(Frames(codec, all[..i]), old(room))
        invariant room == RoomAfter(Frames(codec, all[..i]), old(room))
      {
        assert all[..i + 1][..i] == all[..i];
        CutAppend(Frames(codec, all[..i]), Frame(codec, all[i]), old(room));
        var ok := Encode(ProgressResponse(updates[i]));
      }
      assert all[..|updates|] == all;
    }

    method HandleInstall(work: Work)
      modifies this`written, this`room
      ensures written == old(written) + Cut(Written(codec, InstallAnswer(work)), old(room))
    {
      hide Frames;
      hide Frame;
      hide Cut;
      hide RoomAfter;
      ghost var interim := Frame(codec, Interim(AcceptedEvent, work.before));
      ghost var rest := Frames(codec, Progress(work.progress));
      ghost var final := Frame(codec, InstallAnswer(work).final);
      InstallInterim(codec, work);
      NoFrames(codec);
      CutAppend(interim, rest, room);
      CutAppend(interim + rest, final, room);
      var ok := Encode(Interim(AcceptedEvent, work.before));
      EncodeProgress(work.progress);
      if work.error.Some? {
        CutAppend(interim + rest + final, Frames(codec, Progress(work.late)), old(room));
        ok := Encode(ErrorResponse(work.error.value, work.message));
        EncodeProgress(work.late);
        assert Written(codec, InstallAnswer(work)) == interim + rest + final + Frames(codec, Progress(work.late));
      } else {
        ok := Encode(InstalledResponse(work.after));
        assert Written(codec, InstallAnswer(work)) == interim + rest + final;
      }
    }

    /** One interim response and the final one. A test run is not even begun when the first does not get through. */
    method EncodeTwo(interim: Response, final: Response)
      modifies this`written, this`room
      ensures written == old(written) + Cut(Written(codec, Answer([interim], final, [], [])), old(room))
    {
      ghost var a := Answer([interim], final, [], []);
      NoFrames(codec);
      OneFrame(codec, interim);
      assert Written(codec, a) == Frame(codec, interim) + Frame(codec, final);
      CutAppend(Frame(codec, interim), Frame(codec, final), room);
      var ok := Encode(interim);
      if interim.event.TestsStartedEvent? && !ok {
        return;
      }
      ok := Encode(final);
    }

    method EncodeFinal(final: Response)
      modifies this`written, this`room
      ensures written == old(written) + Cut(Written(codec, OnlyFinal(final)), old(room))
    {
      NoFrames(codec);
      assert Written(codec, OnlyFinal(final)) == Frame(codec, final);
      var ok := Encode(final);
    }

    /** The image is written only behind a response that got through. */
    method EncodeScreenshot(work: Work)
      modifies this`written, this`room
      ensures written ==
              old(written) + Cut(Written(codec, Answer([], ScreenshotResponse(work), work.image, [])), old(room))
    {
      ghost var a := Answer([], ScreenshotResponse(work), work.image, []);
      NoFrames(codec);
      assert Written(codec, a) == Frame(codec, a.final) + work.image;
      CutAppend(Frame(codec, a.final), work.image, room);
      var ok := Encode(ScreenshotResponse(work));
      if ok {
        ok := Write(work.image);
      }
    }

    /**
     handleConnection: on a connection that takes everything the whole answer is written; on one that fails
     after some bytes, exactly the answer's first bytes.
     */
    method Handle(request: Option<Request>, work: Work)
      modifies this
      ensures written == old(written) + Cut(Written(codec, AnswerTo(request, work)), old(room))
      ensures cancelled <==>
              old(cancelled) || (request.Some? && AcceptableCommand(request.value) && request.value.command == "stop")
    {
      hide Written;
      hide Cut;
      hide AcceptableCommand;
      hide Refusal;
      hide InstallAnswer;
      hide TestsResponse;
      hide ScreenshotResponse;
      if request.None? {
        EncodeFinal(ErrorResponse("control_request_invalid", work.message));
        return;
      }
      var refused := ValidateCommand(request.value);
      if refused.Some? {
        EncodeFinal(ErrorResponse(refused.value, work.message));
        return;
      }
      var failed := work.error.Some?;
      match request.value.command {
        case "run-tests" =>
          EncodeTwo(Interim(TestsStartedEvent, work.before),
                    if failed then ErrorResponse(work.error.value, work.message) else TestsResponse(work));
        case "screenshot" =>
          if failed {
            EncodeFinal(ErrorResponse(work.error.value, work.message));
          } else {
            EncodeScreenshot(work);
          }
        case "status" => EncodeFinal(StatusResponse(work.after));
        case "stop" =>
          EncodeFinal(Blank(true, true, StoppingEvent).(state := Some(Stopping)));
          cancelled := true;
        case "install" => HandleInstall(work);
        case _ =>
          EncodeTwo(Interim(AcceptedEvent, work.before),
                    if failed then ErrorResponse(work.error.value, work.message) else UninstalledResponse(work.after));
      }
    }
  }

  lemma NoFrames(codec: Codec)
    ensures Frames(codec, []) == []
  {
  }

  lemma OneFrame(codec: Codec, r: Response)
    ensures Frames(codec, [r]) == Frame(codec, r)
  {
    assert [r][..0] == [];
    assert Frames(codec, []) == [];
  }

  lemma {:induction false} FramesAppend(codec: Codec, a: seq<Response>, b: seq<Response>)
    ensures Frames(codec, a + b) == Frames(codec, a) + Frames(codec, b)
    decreases |b|
  {
    if b == [] {
      assert a + b == a;
    } else {
      assert (a + b)[..|a + b| - 1] == a + b[..|b| - 1];
      FramesAppend(codec, a, b[..|b| - 1]);
    }
  }

  lemma InstallInterim(codec: Codec, work: Work)
    ensures Frames(codec, InstallAnswer(work).interim) ==
            Frame(codec, Interim(AcceptedEvent, work.before)) + Frames(codec, Progress(work.progress))
  {
    OneFrame(codec, Interim(AcceptedEvent, work.before));
    FramesAppend(codec, [Interim(AcceptedEvent, work.before)], Progress(work.progress));
  }
}
