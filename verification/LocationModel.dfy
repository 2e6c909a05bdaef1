/**
 The location session's state behind its own mutex (internal/linkcore/location.go) together with
 the history of every driver opened and every command issued to the device.
 */
module LocationModel {
  import opened Common
  import opened DaemonFields

  /** A 64-bit float as far as the range check can tell values apart. */
  datatype Float = NaN | PosInf | NegInf | Finite(value: real)

  datatype Coord = Coord(lat: Float, lon: Float)

  predicate ValidLocation(c: Coord) {
    && !c.lat.NaN?
    && !c.lon.NaN?
    && c.lat.Finite?
    && c.lon.Finite?
    && -90.0 <= c.lat.value <= 90.0
    && -180.0 <= c.lon.value <= 180.0
  }

  /** The coordinates that may be simulated: numbers within the globe's degrees. */
  lemma ValidLocationsAreDegrees(c: Coord)
    ensures ValidLocation(c) <==>
            exists lat, lon :: c == Coord(Finite(lat), Finite(lon)) && -90.0 <= lat <= 90.0 && -180.0 <= lon <= 180.0
  {
  }

  /** The d-th driver that was ever opened is driver d. */
  type Did = nat

  /** Idle also stands for the empty phase of a session nothing was done to. */
  datatype Phase = Idle | Applying | Live | Lost

  datatype Notice =
    | NoNotice
    | TunnelLost
    | CannotOpen
    | SetUnconfirmed
    | CannotReach
    | ClearUnconfirmed
    | RefreshLost

  datatype Origin = BySet | ByPulse

  datatype Event =
    | Start(driver: Did, at: Coord, origin: Origin)
    | Stop(driver: Did)
    | StopAcked(driver: Did)
    | Failed

  /** A driver, the session it was opened on, and how it was let go. */
  datatype Driver = Driver(sid: Sid, closes: nat, acked: bool)

  datatype Loc = Loc(
    driver: Option<Did>,
    phase: Phase,
    target: Option<Coord>,
    notice: Notice,
    drivers: seq<Driver>,
    log: seq<Event>)

  const INITIAL_LOC := Loc(None, Idle, None, NoNotice, [], [])

  // ----- What the location code writes

  function Closed(l: Loc): Loc {
    if l.driver.Some? && l.driver.value < |l.drivers|
    then
      var d := l.driver.value;
      l.(drivers := l.drivers[d := l.drivers[d].(closes := l.drivers[d].closes + 1)])
    else l
  }

  /** locationSession.fail: the target is retained. */
  function Fail(l: Loc, notice: Notice): Loc {
    Closed(l).(driver := None, phase := Lost, notice := notice, log := l.log + [Failed])
  }

  /** locationSession.lost, called while a lost session is torn down. */
  function TellLost(l: Loc): Loc {
    if l.driver.Some? || l.phase.Live? then Fail(l, TunnelLost) else l
  }

  function Opened(l: Loc, sid: Sid): Loc {
    l.(driver := Some(|l.drivers|), drivers := l.drivers + [Driver(sid, 0, false)])
  }

  function IssueSet(l: Loc, c: Coord): Loc
    requires l.driver.Some?
  {
    l.(phase := Applying, target := Some(c), notice := NoNotice, log := l.log + [Start(l.driver.value, c, BySet)])
  }

  function ConfirmSet(l: Loc, c: Coord): Loc {
    l.(phase := Live, target := Some(c), notice := NoNotice)
  }

  function IssuePulse(l: Loc): Loc
    requires l.driver.Some? && l.target.Some?
  {
    l.(log := l.log + [Start(l.driver.value, l.target.value, ByPulse)])
  }

  function IssueStop(l: Loc): Loc
    requires l.driver.Some?
  {
    l.(log := l.log + [Stop(l.driver.value)])
  }

  function ConfirmStop(l: Loc): Loc
    requires l.driver.Some? && l.driver.value < |l.drivers|
  {
    var d := l.driver.value;
    l.(driver := None, phase := Idle, target := None, notice := NoNotice,
    drivers := l.drivers[d := l.drivers[d].(acked := true)],
    log := l.log + [StopAcked(d)])
  }

  /** locationCall's outcomes: the call returned, or the context ended first and the driver was closed. */
  datatype Outcome = Acknowledged | Refused | TimedOut

  function FailCall(l: Loc, outcome: Outcome, notice: Notice): Loc {
    Fail(if outcome.TimedOut? then Closed(l) else l, notice)
  }

  // ----- What the history says

  /** The coordinate the device may still be simulating: the latest start since the last acknowledged stop. */
  function Outstanding(log: seq<Event>): Option<Coord> {
    if log == [] then None
    else
      match log[|log| - 1]
      case Start(_, at, _) => Some(at)
      case StopAcked(_) => None
      case _ => Outstanding(log[..|log| - 1])
  }

  /** Event i is the latest start and no stop was acknowledged after it. */
  predicate LatestStart(log: seq<Event>, i: nat) {
    && i < |log|
    && log[i].Start?
    && forall j :: i < j < |log| ==> !log[j].Start? && !log[j].StopAcked?
  }

  lemma {:induction false} OutstandingIsLatestStart(log: seq<Event>, c: Coord)
    ensures Outstanding(log) == Some(c) <==> exists i: nat :: LatestStart(log, i) && log[i].at == c
  {
    if log != [] {
      var n := |log| - 1;
      var front := log[..n];
      OutstandingIsLatestStart(front, c);
      if log[n].Start? {
        assert LatestStart(log, n);
      } else if !log[n].StopAcked? {
        if i: nat :| LatestStart(log, i) && log[i].at == c {
          assert LatestStart(front, i);
        }
        if i: nat :| LatestStart(front, i) && front[i].at == c {
          assert LatestStart(log, i);
        }
      }
    }
  }

  lemma OutstandingSnoc(log: seq<Event>, e: Event)
    ensures Outstanding(log + [e]) ==
            match e { case Start(_, at, _) => Some(at) case StopAcked(_) => None case _ => Outstanding(log) }
  {
    assert (log + [e])[..|log|] == log;
  }

  /** The event repeats the start just before it, on the same driver. */
  predicate RepeatsPrevious(log: seq<Event>, i: nat)
    requires i < |log| && log[i].Start?
  {
    i > 0 && log[i - 1].Start? && log[i - 1].driver == log[i].driver && log[i - 1].at == log[i].at
  }

  /** No silent reapply: every refresh repeats the start immediately before it. */
  predicate PulsesRepeat(log: seq<Event>) {
    forall i: nat :: i < |log| && log[i].Start? && log[i].origin.ByPulse? ==> RepeatsPrevious(log, i)
  }

  /** The first start after anything else is a set's. */
  lemma SetStartsAgain(log: seq<Event>, i: nat, j: nat)
    requires PulsesRepeat(log) && i < j < |log|
    requires !log[i].Start? && log[j].Start? && forall k :: i < k < j ==> !log[k].Start?
    ensures log[j].origin.BySet?
  {
    assert !log[j - 1].Start?;
  }

  /** Every driver but the held one was closed or acknowledged a stop. */
  predicate DriversAccounted(l: Loc) {
    && (l.driver.Some? ==> l.driver.value < |l.drivers|)
    && forall d: nat :: d < |l.drivers| && l.driver != Some(d) ==> l.drivers[d].closes > 0 || l.drivers[d].acked
  }

  /** What holds even in the middle of a command. */
  predicate LocConsistent(l: Loc) {
    && DriversAccounted(l)
    && l.target == Outstanding(l.log)
    && (l.target.Some? ==> ValidLocation(l.target.value))
    && PulsesRepeat(l.log)
    && (l.phase.Live? ==> l.driver.Some? && l.target.Some?)
  }

  /** The phase that a command log calls for when no command is under way. */
  function PhaseSaid(log: seq<Event>): Phase {
    if log == [] then Idle
    else
      match log[|log| - 1]
      case Start(_, _, _) => Live
      case Stop(_) => Applying
      case StopAcked(_) => Idle
      case Failed => Lost
  }

  /** The last command was a start of the recorded target on the held driver. */
  predicate LastStartHeld(l: Loc) {
    && l.driver.Some?
    && l.target.Some?
    && l.log != []
    && var e := l.log[|l.log| - 1];
    e.Start? && e.driver == l.driver.value && e.at == l.target.value
  }

  /** What holds whenever the location mutex is free. */
  predicate LocAtRest(l: Loc) {
    && LocConsistent(l)
    && !l.phase.Applying?
    && l.phase == PhaseSaid(l.log)
    && (l.driver.Some? <==> l.phase.Live?)
    && (l.phase.Live? ==> LastStartHeld(l))
  }

  // ----- How the writes keep the history consistent

  lemma FailKeeps(l: Loc, outcome: Outcome, notice: Notice)
    requires LocConsistent(l)
    ensures LocAtRest(FailCall(l, outcome, notice))
    ensures FailCall(l, outcome, notice).target == l.target
  {
    OutstandingSnoc(l.log, Failed);
  }

  lemma TellLostKeeps(l: Loc)
    requires LocAtRest(l)
    ensures LocAtRest(TellLost(l)) && TellLost(l).driver.None? && TellLost(l).target == l.target
  {
    FailKeeps(l, Refused, TunnelLost);
  }

  lemma OpenedKeeps(l: Loc, sid: Sid)
    requires LocConsistent(l) && l.driver.None?
    ensures LocConsistent(Opened(l, sid)) && Opened(l, sid).drivers[Opened(l, sid).driver.value].sid == sid
  {
  }

  lemma IssueSetKeeps(l: Loc, c: Coord)
    requires LocConsistent(l) && l.driver.Some? && ValidLocation(c)
    ensures LocConsistent(IssueSet(l, c)) && LastStartHeld(IssueSet(l, c))
  {
    OutstandingSnoc(l.log, Start(l.driver.value, c, BySet));
  }

  lemma IssuePulseKeeps(l: Loc)
    requires LocConsistent(l) && l.phase.Live? && LastStartHeld(l)
    ensures LocConsistent(IssuePulse(l)) && LastStartHeld(IssuePulse(l))
  {
    OutstandingSnoc(l.log, Start(l.driver.value, l.target.value, ByPulse));
  }

  lemma IssueStopKeeps(l: Loc)
    requires LocConsistent(l) && l.driver.Some?
    ensures LocConsistent(IssueStop(l))
  {
    OutstandingSnoc(l.log, Stop(l.driver.value));
  }

  lemma ConfirmStopKeeps(l: Loc)
    requires LocConsistent(l) && l.driver.Some?
    ensures LocAtRest(ConfirmStop(l)) && ConfirmStop(l).target.None? && ConfirmStop(l).driver.None?
  {
    OutstandingSnoc(l.log, StopAcked(l.driver.value));
  }

  // ----- What the refreshes tell the device

  predicate IsPulse(e: Event) {
    e.Start? && e.origin.ByPulse?
  }

  /** The event as the device sees it: a start does not say who asked for it. */
  function Seen(e: Event): Event {
    match e
    case Start(driver, at, _) => Start(driver, at, BySet)
    case _ => e
  }

  /** What the device is told, immediate repetitions aside. */
  function Told(log: seq<Event>): (r: seq<Event>)
    ensures log != [] ==> r != [] && r[|r| - 1] == Seen(log[|log| - 1])
  {
    if log == [] then []
    else
      var front, x := Told(log[..|log| - 1]), Seen(log[|log| - 1]);
      if front != [] && front[|front| - 1] == x then front else front + [x]
  }

  function WithoutPulses(log: seq<Event>): seq<Event> {
    if log == [] then []
    else
      var front, e := WithoutPulses(log[..|log| - 1]), log[|log| - 1];
      if IsPulse(e) then front else front + [e]
  }

  /** Events look alike to the device exactly when they differ at most in who asked for a start. */
  lemma SeenAlike(a: Event, b: Event)
    ensures Seen(a) == Seen(b) <==>
            a == b || (a.Start? && b.Start? && a.driver == b.driver && a.at == b.at)
  {
  }

  /** What is left without the refreshes: every other event as often as before, in the order in which they came. */
  lemma {:induction false} WithoutPulsesKeepsTheRest(log: seq<Event>, e: Event)
    ensures multiset(WithoutPulses(log))[e] == if e.Start? && e.origin.ByPulse? then 0 else multiset(log)[e]
  {
    if log != [] {
      var n := |log| - 1;
      assert log == log[..n] + [log[n]];
      WithoutPulsesKeepsTheRest(log[..n], e);
    }
  }

  lemma {:induction false} WithoutPulsesInOrder(a: seq<Event>, b: seq<Event>)
    ensures WithoutPulses(a + b) == WithoutPulses(a) + WithoutPulses(b)
    decreases |b|
  {
    if b == [] {
      assert a + b == a;
    } else {
      assert (a + b)[..|a + b| - 1] == a + b[..|b| - 1];
      WithoutPulsesInOrder(a, b[..|b| - 1]);
    }
  }

  lemma ToldSnoc(log: seq<Event>, e: Event)
    ensures var front := Told(log);
            Told(log + [e]) == if front != [] && front[|front| - 1] == Seen(e) then front else front + [Seen(e)]
  {
    assert (log + [e])[..|log|] == log;
  }

  lemma PulsesRepeatPrefix(log: seq<Event>, n: nat)
    requires PulsesRepeat(log) && n <= |log|
    ensures PulsesRepeat(log[..n])
  {
    forall i: nat | i < n && IsPulse(log[i]) ensures RepeatsPrevious(log[..n], i) {
      assert RepeatsPrevious(log, i);
    }
  }

  /** The device is told the same with the refreshes as without them. */
  lemma {:induction false} PulsesOnlyRepeat(log: seq<Event>)
    requires PulsesRepeat(log)
    ensures Told(WithoutPulses(log)) == Told(log)
  {
    if log != [] {
      var n := |log| - 1;
      PulsesRepeatPrefix(log, n);
      PulsesOnlyRepeat(log[..n]);
      if IsPulse(log[n]) {
        assert RepeatsPrevious(log, n);
      } else {
        ToldSnoc(WithoutPulses(log[..n]), log[n]);
      }
    }
  }
}
