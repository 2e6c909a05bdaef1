/**
 watchStatus (internal/linkcore/watch.go): the loop that reports the daemon's changes and ends when a
 warm session was lost. A finite sequence of readings stands for the answers it gets until its context ends.
 */
module Watch {
  import opened Common
  import opened DaemonFields

  /** A status response. */
  datatype Reply = Reply(
    state: Label,
    generation: nat,
    sessionLosses: nat,
    installCount: nat,
    uninstallCount: nat,
    lastErrorCode: string)

  datatype Reading = Answered(reply: Reply) | Unanswered(code: string, message: string)

  /** What the watch emits; Cold is the one final event. */
  datatype Emission =
    | WatchError(code: string, message: string)
    | Watching(reply: Reply)
    | StateChanged(reply: Reply)
    | Cold(reply: Reply)

  /** What two readings must share not to be reported twice; an error has no state and zero counts. */
  datatype Signature = Signature(
    state: Option<Label>,
    generation: nat,
    sessionLosses: nat,
    installCount: nat,
    uninstallCount: nat,
    lastErrorCode: string,
    errorCode: string)

  predicate IsWarm(r: Reply) {
    r.generation != 0 && WarmLabel(r.state)
  }

  function ReplySignature(r: Reply): Signature {
    Signature(Some(r.state), r.generation, r.sessionLosses, r.installCount, r.uninstallCount, r.lastErrorCode, "")
  }

  function ErrorSignature(code: string): Signature {
    Signature(None, 0, 0, 0, 0, "", code)
  }

  function ReadingSignature(r: Reading): Signature {
    match r
    case Answered(reply) => ReplySignature(reply)
    case Unanswered(code, _) => ErrorSignature(code)
  }

  function EmissionSignature(e: Emission): Signature {
    match e
    case WatchError(code, _) => ErrorSignature(code)
    case Watching(reply) => ReplySignature(reply)
    case StateChanged(reply) => ReplySignature(reply)
    case Cold(reply) => ReplySignature(reply)
  }

  function ReadingSignatures(readings: seq<Reading>): (r: seq<Signature>)
    ensures |r| == |readings|
  {
    seq(|readings|, i requires 0 <= i < |readings| => ReadingSignature(readings[i]))
  }

  function EmissionSignatures(events: seq<Emission>): (r: seq<Signature>)
    ensures |r| == |events|
  {
    seq(|events|, i requires 0 <= i < |events| => EmissionSignature(events[i]))
  }

  /** Two readings are alike exactly when both are answered and the same, or both fail with the same code. */
  lemma SignaturesTellApart(a: Reading, b: Reading)
    ensures ReadingSignature(a) == ReadingSignature(b) <==>
            match (a, b)
            case (Answered(p), Answered(q)) => p == q
            case (Unanswered(c, _), Unanswered(d, _)) => c == d
            case _ => false
  {
  }

  /** And an emission has the signature of the reading that it passes on. */
  lemma EmissionsAreReadings(r: Reply, code: string, message: string)
    ensures EmissionSignature(Watching(r)) == ReadingSignature(Answered(r))
    ensures EmissionSignature(StateChanged(r)) == ReadingSignature(Answered(r))
    ensures EmissionSignature(Cold(r)) == ReadingSignature(Answered(r))
    ensures EmissionSignature(WatchError(code, message)) == ReadingSignature(Unanswered(code, message))
  {
  }

  // ----- What the watch is for

  predicate FirstAnswer(readings: seq<Reading>, b: nat) {
    b < |readings| && readings[b].Answered? && forall j :: 0 <= j < b ==> readings[j].Unanswered?
  }

  predicate WarmBy(readings: seq<Reading>, i: nat) {
    exists j :: 0 <= j <= i && j < |readings| && readings[j].Answered? && IsWarm(readings[j].reply)
  }

  /** Reading i shows a loss since the first answer, and a warm session has been seen. */
  predicate ColdAt(readings: seq<Reading>, i: nat) {
    && i < |readings|
    && readings[i].Answered?
    && WarmBy(readings, i)
    && exists b: nat ::
         FirstAnswer(readings, b) && b <= i && readings[i].reply.sessionLosses > readings[b].reply.sessionLosses
  }

  /** `c` is the first cold reading, or the end if there is none. */
  predicate CutAt(readings: seq<Reading>, c: nat) {
    c <= |readings| && (c < |readings| ==> ColdAt(readings, c)) && forall i: nat :: i < c ==> !ColdAt(readings, i)
  }

  function ColdEvent(r: Reply): Emission {
    Cold(r.(lastErrorCode := "session_lost"))
  }

  lemma CutIsUnique(readings: seq<Reading>, c: nat, d: nat)
    requires CutAt(readings, c) && CutAt(readings, d)
    ensures c == d
  {
  }

  lemma SignaturesSnoc(readings: seq<Reading>, i: nat)
    requires i < |readings|
    ensures ReadingSignatures(readings[..i + 1]) == ReadingSignatures(readings[..i]) + [ReadingSignature(readings[i])]
  {
  }

  /** Says what the events are, given where the readings are cut. */
  predicate Reports(readings: seq<Reading>, c: nat, events: seq<Emission>)
    requires c <= |readings|
  {
    && EmissionSignatures(events) == Destutter(ReadingSignatures(readings[..c]))
    && forall i :: 0 <= i < |events| ==>
         && !events[i].Cold?
         && (events[i].Watching? <==> i == 0 && readings[0].Answered?)
         && (events[i].StateChanged? ==> i > 0)
         && (events[i].WatchError? ==> Unanswered(events[i].code, events[i].message) in readings[..c])
  }

  lemma RepeatSignatures(readings: seq<Reading>, i: nat)
    requires 0 < i < |readings| && ReadingSignature(readings[i]) == ReadingSignature(readings[i - 1])
    ensures Destutter(ReadingSignatures(readings[..i + 1])) == Destutter(ReadingSignatures(readings[..i]))
  {
    hide ReadingSignature;
    SignaturesSnoc(readings, i);
    DestutterSnoc(ReadingSignatures(readings[..i]), ReadingSignature(readings[i]));
  }

  lemma RepeatReports(readings: seq<Reading>, i: nat, events: seq<Emission>)
    requires 0 < i < |readings| && Reports(readings, i, events)
    requires ReadingSignature(readings[i]) == ReadingSignature(readings[i - 1])
    ensures Reports(readings, i + 1, events)
  {
    hide ReadingSignature;
    hide ReadingSignatures;
    hide EmissionSignatures;
    hide Destutter;
    RepeatSignatures(readings, i);
    assert readings[..i + 1] == readings[..i] + [readings[i]];
  }

  lemma ChangeSignatures(readings: seq<Reading>, i: nat, events: seq<Emission>, e: Emission)
    requires i < |readings| && EmissionSignatures(events) == Destutter(ReadingSignatures(readings[..i]))
    requires i > 0 ==> ReadingSignature(readings[i]) != ReadingSignature(readings[i - 1])
    requires EmissionSignature(e) == ReadingSignature(readings[i])
    ensures EmissionSignatures(events + [e]) == Destutter(ReadingSignatures(readings[..i + 1]))
    ensures i > 0 <==> events != []
  {
    hide ReadingSignature;
    hide EmissionSignature;
    SignaturesSnoc(readings, i);
    DestutterSnoc(ReadingSignatures(readings[..i]), ReadingSignature(readings[i]));
    assert EmissionSignatures(events + [e]) == EmissionSignatures(events) + [EmissionSignature(e)];
    assert i > 0 <==> ReadingSignatures(readings[..i]) != [];
  }

  lemma ChangeReports(readings: seq<Reading>, i: nat, events: seq<Emission>, e: Emission)
    requires i < |readings| && Reports(readings, i, events)
    requires i > 0 ==> ReadingSignature(readings[i]) != ReadingSignature(readings[i - 1])
    requires EmissionSignature(e) == ReadingSignature(readings[i])
    requires if readings[i].Unanswered? then e == WatchError(readings[i].code, readings[i].message)
             else if i == 0 then e.Watching? else e.StateChanged?
    ensures Reports(readings, i + 1, events + [e])
  {
    hide ReadingSignature;
    hide EmissionSignature;
    hide ReadingSignatures;
    hide EmissionSignatures;
    hide Destutter;
    ChangeSignatures(readings, i, events, e);
    assert readings[..i + 1] == readings[..i] + [readings[i]];
  }

  /** What the loop's variables remember of the first i readings. */
  ghost predicate Remembers(readings: seq<Reading>, i: nat, warm: bool, baseline: Option<nat>) {
    && (warm <==> exists j :: 0 <= j < i && j < |readings| && readings[j].Answered? && IsWarm(readings[j].reply))
    && (baseline.None? <==> forall j :: 0 <= j < i && j < |readings| ==> readings[j].Unanswered?)
    && (baseline.Some? ==>
          exists b: nat :: FirstAnswer(readings, b) && b < i && readings[b].reply.sessionLosses == baseline.value)
  }

  lemma NothingRead(readings: seq<Reading>)
    ensures Reports(readings, 0, []) && Remembers(readings, 0, false, None)
  {
  }

  /** An error is never a cold reading and leaves nothing to remember. */
  lemma RemembersError(readings: seq<Reading>, i: nat, warm: bool, baseline: Option<nat>)
    requires i < |readings| && readings[i].Unanswered? && Remembers(readings, i, warm, baseline)
    ensures Remembers(readings, i + 1, warm, baseline) && !ColdAt(readings, i)
  {
  }

  lemma RemembersAnswer(readings: seq<Reading>, i: nat, warm: bool, baseline: Option<nat>)
    requires i < |readings| && readings[i].Answered? && Remembers(readings, i, warm, baseline)
    ensures var r := readings[i].reply;
            var base := if baseline.None? then r.sessionLosses else baseline.value;
            && Remembers(readings, i + 1, warm || IsWarm(r), Some(base))
            && (ColdAt(readings, i) <==> (warm || IsWarm(r)) && r.sessionLosses > base)
  {
    if baseline.None? {
      assert FirstAnswer(readings, i);
    }
  }

  /**
   For every sequence of readings: the events are the readings' signatures without repetitions, cut at the
   first cold reading, which is reported by the one final event.
   */
  method WatchStatus(positiveInterval: bool, readings: seq<Reading>)
    returns (error: Option<string>, events: seq<Emission>, ghost cut: nat)
    ensures error.Some? <==> !positiveInterval
    ensures error.Some? ==> events == []
    ensures error.None? ==> CutAt(readings, cut)
    ensures error.None? && cut == |readings| ==> Reports(readings, cut, events)
    ensures error.None? && cut < |readings| ==>
              && events != []
              && Reports(readings, cut, events[..|events| - 1])
              && events[|events| - 1] == Cold(readings[cut].reply.(lastErrorCode := "session_lost"))
  {
    hide Reports;
    hide ColdAt;
    hide Remembers;
    hide IsWarm;
    events := [];
    cut := 0;
    if !positiveInterval {
      return Some("watch_invalid"), events, cut;
    }
    error := None;
    var previous := ErrorSignature("");
    var havePrevious := false;
    var warmObserved := false;
    var baseline: Option<nat> := None;
    NothingRead(readings);
    var i := 0;
    while i < |readings|
      invariant 0 <= i <= |readings|
      invariant havePrevious <==> i > 0
      invariant havePrevious ==> previous == ReadingSignature(readings[i - 1])
      invariant Remembers(readings, i, warmObserved, baseline)
      invariant forall j: nat :: j < i ==> !ColdAt(readings, j)
      invariant Reports(readings, i, events)
    {
      match readings[i] {
        case Unanswered(code, message) =>
          RemembersError(readings, i, warmObserved, baseline);
          var signature := ErrorSignature(code);
          if !havePrevious || signature != previous {
            ChangeReports(readings, i, events, WatchError(code, message));
            events := events + [WatchError(code, message)];
            previous := signature;
            havePrevious := true;
          } else {
            RepeatReports(readings, i, events);
          }
        case Answered(response) =>
          RemembersAnswer(readings, i, warmObserved, baseline);
          if baseline.None? {
            baseline := Some(response.sessionLosses);
          }
          if IsWarm(response) {
            warmObserved := true;
          }
          if warmObserved && response.sessionLosses > baseline.value {
            assert (events + [ColdEvent(response)])[..|events|] == events;
            cut := i;
            events := events + [ColdEvent(response)];
            return;
          }
          var signature := ReplySignature(response);
          if !havePrevious || signature != previous {
            var event := if havePrevious then StateChanged(response) else Watching(response);
            ChangeReports(readings, i, events, event);
            events := events + [event];
            previous := signature;
            havePrevious := true;
          } else {
            RepeatReports(readings, i, events);
          }
      }
      i := i + 1;
    }
    cut := i;
  }
}
