/**
 Request and response end to end: what handleConnection writes, cut after any byte, and what Call returns
 for it.
 */
module Protocol {
  import opened Common
  import opened Streams
  import opened Control
  import opened Calls

  predicate IsPlain(r: Response) {
    r.imageBytes == 0 && !(r.ok && r.event.ScreenshotEvent?)
  }

  predicate IsInterim(rs: seq<Response>) {
    forall i :: 0 <= i < |rs| ==> !rs[i].final && IsPlain(rs[i])
  }

  /** One final response, and an image exactly behind a screenshot's. */
  predicate WellFormed(command: string, a: Answer) {
    && IsInterim(a.interim) && IsInterim(a.late)
    && a.final.final
    && (if a.image == [] then IsPlain(a.final)
        else command == "screenshot" && a.final.ok && a.final.event.ScreenshotEvent?
             && a.final.imageBytes == |a.image| <= MAX_SCREENSHOT_BYTES)
  }

  function Shown(rs: seq<Response>): (shown: seq<Delivered>)
    ensures |shown| == |rs|
  {
    seq(|rs|, i requires 0 <= i < |rs| => Delivered(rs[i], []))
  }

  /** The bytes of the responses up to the final one's closing brace. */
  function HeaderBytes(codec: Codec, a: Answer): nat {
    |Frames(codec, a.interim)| + |codec.encode(a.final)|
  }

  /** The first k bytes hold the final response and all of its image. */
  predicate IsComplete(codec: Codec, a: Answer, k: nat) {
    HeaderBytes(codec, a) + (if a.image == [] then 0 else 1 + |a.image|) <= k
  }

  function Outcome(final: Response): Option<string> {
    if final.ok then None else Some(final.errorCode)
  }

  // ----- What the daemon writes

  /** Daemon.screenshot gives no image that is empty or over the limit. */
  predicate Captured(request: Option<Request>, work: Work) {
    request.Some? && request.value.command == "screenshot" && work.error.None?
    ==> 0 < |work.image| <= MAX_SCREENSHOT_BYTES
  }

  lemma AnswersAreWellFormed(request: Option<Request>, work: Work, command: string)
    requires Captured(request, work)
    requires request.Some? ==> request.value.command == command
    ensures WellFormed(command, AnswerTo(request, work))
  {
    hide AcceptableCommand;
    hide Refusal;
  }

  /** The responses in a stream, whole images skipped. */
  function Parsed(codec: Codec, s: seq<Byte>): seq<Response>
    decreases |s|
  {
    match NextValue(codec, s, |s|)
    case None => []
    case Some((r, rest, _)) =>
      [r] + Parsed(codec, if 0 < r.imageBytes < |rest| then rest[1 + r.imageBytes..] else rest)
  }

  lemma TextIsNext(codec: Codec, r: Response, rest: seq<Byte>, budget: nat)
    requires Lawful(codec)
    ensures var text := codec.encode(r);
            NextValue(codec, text + rest, budget)
            == if |text| <= budget then Some((r, rest, budget - |text|)) else None
  {
    var text := codec.encode(r);
    var s := text + rest;
    if |text| <= budget {
      assert text <= Visible(s, budget);
      assert s[|text|..] == rest;
      ScanSettles(codec, text, s, budget);
    } else if budget > 0 {
      assert Visible(s, budget) == text[..budget];
      CutTextIsNoValue(codec, r, budget);
    }
  }

  /** A text that the stream's end cuts short is not delivered. */
  lemma CutTextIsNotNext(codec: Codec, r: Response, k: nat, budget: nat)
    requires Lawful(codec) && k < |codec.encode(r)|
    ensures NextValue(codec, codec.encode(r)[..k], budget).None?
  {
    var s := codec.encode(r)[..k];
    if k > 0 && budget > 0 {
      assert Visible(s, budget) == codec.encode(r)[..|Visible(s, budget)|];
      CutTextIsNoValue(codec, r, |Visible(s, budget)|);
    }
  }

  lemma BlankIsParsedAway(codec: Codec, s: seq<Byte>)
    ensures Parsed(codec, [NEWLINE] + s) == Parsed(codec, s)
  {
    assert ([NEWLINE] + s)[1..] == s;
    BlankIsSkipped(codec, [NEWLINE] + s, 1 + |s|);
  }

  lemma {:induction false} FrameIsParsed(codec: Codec, r: Response, rest: seq<Byte>)
    requires Lawful(codec) && r.imageBytes == 0
    ensures Parsed(codec, Frame(codec, r) + rest) == [r] + Parsed(codec, rest)
  {
    var s := Frame(codec, r) + rest;
    assert s == codec.encode(r) + ([NEWLINE] + rest);
    TextIsNext(codec, r, [NEWLINE] + rest, |s|);
    BlankIsParsedAway(codec, rest);
  }

  lemma {:induction false} FramesAreParsed(codec: Codec, rs: seq<Response>, rest: seq<Byte>)
    requires Lawful(codec) && IsInterim(rs)
    ensures Parsed(codec, Frames(codec, rs) + rest) == rs + Parsed(codec, rest)
  {
    hide Parsed;
    hide Lawful;
    hide Frame;
    if rs == [] {
      assert Frames(codec, rs) + rest == rest;
    } else {
      var n := |rs| - 1;
      Regroup(Frames(codec, rs[..n]), Frame(codec, rs[n]), rest);
      FramesAreParsed(codec, rs[..n], Frame(codec, rs[n]) + rest);
      FrameIsParsed(codec, rs[n], rest);
      assert rs + Parsed(codec, rest) == rs[..n] + ([rs[n]] + Parsed(codec, rest));
    }
  }

  lemma Regroup(a: seq<Byte>, b: seq<Byte>, c: seq<Byte>)
    ensures a + b + c == a + (b + c)
  {
  }

  lemma ImageIsSkipped(codec: Codec, r: Response, image: seq<Byte>, rest: seq<Byte>)
    requires Lawful(codec) && image != [] && r.imageBytes == |image|
    ensures Parsed(codec, Frame(codec, r) + image + rest) == [r] + Parsed(codec, rest)
  {
    hide Lawful;
    hide NextValue;
    var s, body := Frame(codec, r) + image + rest, [NEWLINE] + image + rest;
    assert s == codec.encode(r) + body;
    TextIsNext(codec, r, body, |s|);
    assert body[1 + |image|..] == rest;
  }

  /** The stream written for a request parses back to the answer's responses, among them one final response. */
  lemma OneFinalResponse(codec: Codec, request: Option<Request>, work: Work)
    requires Lawful(codec) && Captured(request, work)
    ensures var a := AnswerTo(request, work);
            && Parsed(codec, Written(codec, a)) == a.interim + [a.final] + a.late
            && a.final.final
            && (forall i :: 0 <= i < |a.interim| ==> !a.interim[i].final)
            && (forall i :: 0 <= i < |a.late| ==> !a.late[i].final)
  {
    hide AnswerTo;
    hide Lawful;
    hide Parsed;
    hide Written;
    var command := if request.Some? then request.value.command else "";
    AnswersAreWellFormed(request, work, command);
    WrittenIsParsed(codec, command, AnswerTo(request, work));
  }

  lemma WrittenIsParsed(codec: Codec, command: string, a: Answer)
    requires Lawful(codec) && WellFormed(command, a)
    ensures Parsed(codec, Written(codec, a)) == a.interim + [a.final] + a.late
  {
    hide Parsed;
    hide Frame;
    hide Frames;
    hide Lawful;
    var interim, final, late := Frames(codec, a.interim), Frame(codec, a.final), Frames(codec, a.late);
    Regroup(interim, final, a.image);
    Regroup(interim, final + a.image, late);
    FramesAreParsed(codec, a.interim, final + a.image + late);
    FinalIsParsed(codec, command, a);
    LateIsParsed(codec, a);
  }

  lemma FinalIsParsed(codec: Codec, command: string, a: Answer)
    requires Lawful(codec) && WellFormed(command, a)
    ensures var late := Frames(codec, a.late);
            Parsed(codec, Frame(codec, a.final) + a.image + late) == [a.final] + Parsed(codec, late)
  {
    hide Parsed;
    hide Frame;
    hide Frames;
    hide Lawful;
    if a.image == [] {
      assert Frame(codec, a.final) + a.image == Frame(codec, a.final);
      FrameIsParsed(codec, a.final, Frames(codec, a.late));
    } else {
      ImageIsSkipped(codec, a.final, a.image, Frames(codec, a.late));
    }
  }

  lemma LateIsParsed(codec: Codec, a: Answer)
    requires Lawful(codec) && IsInterim(a.late)
    ensures Parsed(codec, Frames(codec, a.late)) == a.late
  {
    hide Parsed;
    hide Frames;
    hide Lawful;
    assert Frames(codec, a.late) + [] == Frames(codec, a.late);
    FramesAreParsed(codec, a.late, []);
    NothingParsed(codec);
  }

  lemma NothingParsed(codec: Codec)
    ensures Parsed(codec, []) == []
  {
  }

  // ----- What Call makes of it

  lemma LeadingNewline(codec: Codec, command: string, s: seq<Byte>, budget: nat)
    ensures CallOn(codec, command, [NEWLINE] + s, budget)
            == if budget == 0 then (Some("control_response_failed"), []) else CallOn(codec, command, s, budget - 1)
  {
    if budget > 0 {
      assert ([NEWLINE] + s)[1..] == s;
      BlankIsSkipped(codec, [NEWLINE] + s, budget);
    }
  }

  lemma NothingMore(codec: Codec, command: string, s: seq<Byte>, budget: nat)
    requires NextValue(codec, s, budget).None?
    ensures CallOn(codec, command, s, budget) == (Some("control_response_failed"), [])
  {
  }

  lemma InterimResponse(codec: Codec, command: string, r: Response, s: seq<Byte>, budget: nat)
    requires Lawful(codec) && !r.final && IsPlain(r)
    ensures var text := codec.encode(r);
            CallOn(codec, command, text + s, budget)
            == if budget < |text| then (Some("control_response_failed"), [])
               else (CallOn(codec, command, s, budget - |text|).0,
                     [Delivered(r, [])] + CallOn(codec, command, s, budget - |text|).1)
  {
    hide NextValue;
    hide Lawful;
    TextIsNext(codec, r, s, budget);
  }

  /** The answer without its first interim response. */
  lemma DropFirst(codec: Codec, a: Answer)
    requires a.interim != []
    ensures var less, first := a.(interim := a.interim[1..]), Frame(codec, a.interim[0]);
            && Written(codec, a) == first + Written(codec, less)
            && HeaderBytes(codec, a) == |first| + HeaderBytes(codec, less)
            && Shown(a.interim) == [Delivered(a.interim[0], [])] + Shown(less.interim)
  {
    var first, less := a.interim[0], a.(interim := a.interim[1..]);
    assert a.interim == [first] + less.interim;
    OneFrame(codec, first);
    FramesAppend(codec, [first], less.interim);
  }

  /** What follows the final response's text. */
  function Tail(codec: Codec, a: Answer): seq<Byte> {
    [NEWLINE] + a.image + Frames(codec, a.late)
  }

  lemma ImageInTail(codec: Codec, a: Answer, k: nat)
    requires a.image != [] && |a.image| <= MAX_SCREENSHOT_BYTES && k <= |Tail(codec, a)|
    ensures BodyOf(Tail(codec, a)[..k], |a.image|)
            == if 1 + |a.image| <= k then Success(a.image) else Failure("control_response_failed")
  {
    var rest := Tail(codec, a)[..k];
    if k > 0 {
      assert rest[0] == NEWLINE;
      if 1 + |a.image| <= k { assert rest[1..1 + |a.image|] == a.image; }
    }
  }

  lemma FinalWhole(codec: Codec, command: string, a: Answer, k: nat, budget: nat)
    requires Lawful(codec) && WellFormed(command, a) && k <= |Tail(codec, a)| && |codec.encode(a.final)| <= budget
    ensures CallOn(codec, command, codec.encode(a.final) + Tail(codec, a)[..k], budget)
            == if a.image == [] || 1 + |a.image| <= k
               then (Outcome(a.final), [Delivered(a.final, a.image)])
               else (Some("control_response_failed"), [])
  {
    hide NextValue;
    hide BodyOf;
    hide Tail;
    hide Lawful;
    TextIsNext(codec, a.final, Tail(codec, a)[..k], budget);
    if a.image != [] { ImageInTail(codec, a, k); }
  }

  lemma FinalOnCut(codec: Codec, command: string, a: Answer, k: nat, budget: nat)
    requires Lawful(codec) && WellFormed(command, a) && a.interim == [] && k <= |Written(codec, a)|
    ensures CallOn(codec, command, Written(codec, a)[..k], budget)
            == if IsComplete(codec, a, k) && HeaderBytes(codec, a) <= budget
               then (Outcome(a.final), [Delivered(a.final, a.image)])
               else (Some("control_response_failed"), [])
  {
    hide CallOn;
    hide Lawful;
    hide NextValue;
    hide WellFormed;
    var text := codec.encode(a.final);
    NoFrames(codec);
    assert Written(codec, a) == text + Tail(codec, a);
    var s := Written(codec, a)[..k];
    if k < |text| {
      assert s == text[..k];
      CutTextIsNotNext(codec, a.final, k, budget);
      NothingMore(codec, command, s, budget);
    } else {
      var rest := Tail(codec, a)[..k - |text|];
      assert s == text + rest;
      TextIsNext(codec, a.final, rest, budget);
      if |text| <= budget {
        FinalWhole(codec, command, a, k - |text|, budget);
      } else {
        NothingMore(codec, command, s, budget);
      }
    }
  }

  /** The stream of an answer cut inside its first response's frame, or behind it. */
  lemma FirstOnCut(codec: Codec, a: Answer, k: nat)
    requires a.interim != [] && k <= |Written(codec, a)|
    ensures var text, less := codec.encode(a.interim[0]), a.(interim := a.interim[1..]);
            && (k < |text| ==> Written(codec, a)[..k] == text[..k])
            && (k == |text| ==> Written(codec, a)[..k] == text + [])
            && (k > |text| ==>
                  && k - |text| - 1 <= |Written(codec, less)|
                  && Written(codec, a)[..k] == text + ([NEWLINE] + Written(codec, less)[..k - |text| - 1]))
  {
    hide Written;
    DropFirst(codec, a);
    var text, less := codec.encode(a.interim[0]), a.(interim := a.interim[1..]);
    assert Written(codec, a) == text + ([NEWLINE] + Written(codec, less));
  }

  /**
   Call on the first k bytes of an answer: exactly when they hold the final response with its image, and the
   responses fit the decoder's limit, Call returns what the final response says, after all the interim ones.
   Otherwise it fails, and what it has delivered are interim responses of this answer.
   */
  lemma {:induction false} CallOnAnswer(codec: Codec, command: string, a: Answer, k: nat, budget: nat)
    requires Lawful(codec) && WellFormed(command, a) && k <= |Written(codec, a)|
    ensures var (error, shown) := CallOn(codec, command, Written(codec, a)[..k], budget);
            if IsComplete(codec, a, k) && HeaderBytes(codec, a) <= budget
            then error == Outcome(a.final) && shown == Shown(a.interim) + [Delivered(a.final, a.image)]
            else error == Some("control_response_failed") && shown <= Shown(a.interim)
    decreases |a.interim|
  {
    hide Written;
    hide CallOn;
    hide HeaderBytes;
    hide Lawful;
    hide NextValue;
    if a.interim == [] {
      FinalOnCut(codec, command, a, k, budget);
    } else {
      var first, less := a.interim[0], a.(interim := a.interim[1..]);
      var text := codec.encode(first);
      DropFirst(codec, a);
      FirstOnCut(codec, a, k);
      if k < |text| {
        CutTextIsNotNext(codec, first, k, budget);
        NothingMore(codec, command, Written(codec, a)[..k], budget);
      } else if k == |text| {
        InterimResponse(codec, command, first, [], budget);
        if |text| <= budget {
          NothingMore(codec, command, [], budget - |text|);
        }
      } else {
        var rest := Written(codec, less)[..k - |text| - 1];
        InterimResponse(codec, command, first, [NEWLINE] + rest, budget);
        if |text| <= budget {
          LeadingNewline(codec, command, rest, budget - |text|);
          if |text| < budget {
            CallOnAnswer(codec, command, less, k - |text| - 1, budget - |text| - 1);
          }
        }
      }
    }
  }

  /** Whatever the connection takes of a daemon's answer, read by Call within its limit of one mebibyte. */
  lemma RequestIsAnswered(codec: Codec, request: Request, work: Work, room: nat)
    requires Lawful(codec) && Captured(Some(request), work)
    ensures var a := AnswerTo(Some(request), work);
            var (error, shown) := CallOn(codec, request.command, Cut(Written(codec, a), room), MAX_HEADERS);
            if IsComplete(codec, a, room) && HeaderBytes(codec, a) <= MAX_HEADERS
            then error == Outcome(a.final) && shown == Shown(a.interim) + [Delivered(a.final, a.image)]
            else error == Some("control_response_failed") && shown <= Shown(a.interim)
  {
    hide AnswerTo;
    hide Lawful;
    hide CallOn;
    var a := AnswerTo(Some(request), work);
    AnswersAreWellFormed(Some(request), work, request.command);
    var all := Written(codec, a);
    var k := if |all| <= room then |all| else room;
    assert Cut(all, room) == all[..k];
    CallOnAnswer(codec, request.command, a, k, MAX_HEADERS);
  }

  lemma {:induction false} FramesSizeAtLeast(codec: Codec, rs: seq<Response>, least: nat)
    requires forall r :: |codec.encode(r)| >= least
    ensures |Frames(codec, rs)| >= |rs| * (least + 1)
  {
    if rs != [] {
      FramesSizeAtLeast(codec, rs[..|rs| - 1], least);
    }
  }

  /** An installation that succeeds after enough progress is reported by Call as a failure. */
  lemma LongProgressFailsTheCall(codec: Codec, request: Request, work: Work, least: nat)
    requires Lawful(codec) && AcceptableCommand(request) && request.command == "install" && work.error.None?
    requires forall r :: |codec.encode(r)| >= least
    requires |work.progress| * (least + 1) > MAX_HEADERS
    ensures var a := AnswerTo(Some(request), work);
            && a.final.ok
            && CallOn(codec, "install", Written(codec, a), MAX_HEADERS).0 == Some("control_response_failed")
  {
    hide AcceptableCommand;
    hide Lawful;
    hide CallOn;
    hide Written;
    var a := AnswerTo(Some(request), work);
    assert Cut(Written(codec, a), |Written(codec, a)|) == Written(codec, a);
    RequestIsAnswered(codec, request, work, |Written(codec, a)|);
    FramesSizeAtLeast(codec, a.interim, least);
    assert |a.interim| == 1 + |work.progress|;
    MoreIsLarger(|work.progress|, |a.interim|, least + 1);
  }

  lemma MoreIsLarger(m: nat, n: nat, size: nat)
    requires m <= n
    ensures m * size <= n * size
  {
  }

  /** An image is read exactly when its size is allowed and a newline and that many bytes follow the header. */
  lemma BodyIsExact(rest: seq<Byte>, size: int, data: seq<Byte>)
    ensures BodyOf(rest, size) == Success(data)
            <==> 1 <= size <= 67_108_864 && |data| == size && [10] + data <= rest
  {
    if [NEWLINE] + data <= rest {
      assert rest[0] == ([NEWLINE] + data)[0];
      assert rest[1..1 + |data|] == ([NEWLINE] + data)[1..];
    }
    if BodyOf(rest, size) == Success(data) {
      assert rest[..1 + size] == [NEWLINE] + data;
    }
  }

  /** JSON's four blanks, and no other byte, may stand before a response. */
  lemma BlanksBeforeValues(codec: Codec, s: seq<Byte>, budget: nat)
    requires s != [] && budget > 0
    ensures s[0] in {9, 10, 13, 32} ==> NextValue(codec, s, budget) == NextValue(codec, s[1..], budget - 1)
    ensures s[0] !in {9, 10, 13, 32} && !codec.scan(Visible(s, budget)).Found? ==> NextValue(codec, s, budget).None?
    ensures s[0] !in {9, 10, 13, 32} && NextValue(codec, s, budget).Some? ==>
              codec.scan(Visible(s, budget)) ==
              Found(NextValue(codec, s, budget).value.0, |s| - |NextValue(codec, s, budget).value.1|)
  {
  }

  /** What is delivered behind a response: an image of the announced size behind a screenshot's, and nothing else. */
  predicate HasItsImage(command: string, d: Delivered) {
    if d.response.imageBytes == 0 && !(d.response.ok && d.response.event.ScreenshotEvent?) then d.image == []
    else
      && command == "screenshot"
      && d.response.ok && d.response.final && d.response.event.ScreenshotEvent?
      && 1 <= |d.image| == d.response.imageBytes <= 67_108_864
  }

  /**
   Whatever is on the stream: only the last response delivered can be final; the call succeeds exactly when it
   is and says so, and fails with its code when it says otherwise; images are behind screenshots alone.
   */
  lemma {:induction false} CallOnAnyStream(codec: Codec, command: string, s: seq<Byte>, budget: nat)
    ensures var (error, shown) := CallOn(codec, command, s, budget);
            && (forall i :: 0 <= i < |shown| ==> HasItsImage(command, shown[i]))
            && (forall i :: 0 <= i < |shown| - 1 ==> !shown[i].response.final)
            && (error.None? ==> shown != [])
            && (shown != [] ==>
                  var last := shown[|shown| - 1].response;
                  && (error.None? <==> last.final && last.ok)
                  && (last.final && !last.ok ==> error == Some(last.errorCode)))
    decreases |s|
  {
    hide NextValue;
    var next := NextValue(codec, s, budget);
    if next.Some? {
      var (r, rest, left) := next.value;
      if IsPlain(r) && !r.final {
        CallOnAnyStream(codec, command, rest, left);
        var more := CallOn(codec, command, rest, left).1;
        var shown := CallOn(codec, command, s, budget).1;
        assert shown == [Delivered(r, [])] + more;
        assert forall i :: 1 <= i < |shown| ==> shown[i] == more[i - 1];
      }
    }
  }
}
