/**
 locationSession as the class it is (internal/linkcore/location.go): each method runs under the location
 mutex from its first line to its last, so it is specified by what it does to the whole state at once.
 */
module LocationSessions {
  import opened Common
  import opened DaemonFields
  import opened LocationModel

  /** What `open` answers: no tunnel is active, the device refuses, or a new driver on that session. */
  datatype OpenAnswer = NoSession | OpenFails | Opens(handle: Did, sid: Sid)

  /** A driver that `open` returns is a new object. */
  predicate Fresh(l: Loc, open: OpenAnswer) {
    open.Opens? ==> open.handle == |l.drivers|
  }

  function SetEffect(l: Loc, at: Coord, open: OpenAnswer, outcome: Outcome): Loc {
    if !ValidLocation(at) then l
    else if l.driver.None? && !open.Opens? then Fail(l, CannotOpen)
    else
      var issued := IssueSet(if l.driver.None? then Opened(l, open.sid) else l, at);
      if outcome.Acknowledged? then ConfirmSet(issued, at) else FailCall(issued, outcome, SetUnconfirmed)
  }

  function ClearEffect(l: Loc, open: OpenAnswer, outcome: Outcome): Loc
    requires DriversAccounted(l)
  {
    if l.driver.None? && !open.Opens? then Fail(l, CannotReach)
    else
      var issued := IssueStop(if l.driver.None? then Opened(l, open.sid) else l);
      if outcome.Acknowledged? then ConfirmStop(issued) else FailCall(issued, outcome, ClearUnconfirmed)
  }

  function PulseEffect(l: Loc, outcome: Outcome): Loc {
    if !l.driver.Some? || !l.phase.Live? || l.target.None? then l
    else if outcome.Acknowledged? then IssuePulse(l)
    else FailCall(IssuePulse(l), outcome, RefreshLost)
  }

  /** What set promises, whatever the device answers. */
  lemma SetPromises(l: Loc, at: Coord, open: OpenAnswer, outcome: Outcome)
    requires LocAtRest(l)
    ensures var r := SetEffect(l, at, open, outcome);
            var issued := ValidLocation(at) && (l.driver.Some? || open.Opens?);
            && LocAtRest(r)
            && (issued && outcome.Acknowledged? ==> r.phase.Live? && r.driver.Some? && r.notice.NoNotice?)
            && (ValidLocation(at) && !(issued && outcome.Acknowledged?) ==>
                  r.phase.Lost? && r.driver.None? && !r.notice.NoNotice?)
            && r.target == if issued then Some(at) else l.target
  {
    if ValidLocation(at) && (l.driver.Some? || open.Opens?) {
      var held := if l.driver.None? then Opened(l, open.sid) else l;
      IssueSetKeeps(held, at);
      FailKeeps(IssueSet(held, at), outcome, SetUnconfirmed);
    } else {
      FailKeeps(l, Refused, CannotOpen);
    }
  }

  /** What clear promises. */
  lemma ClearPromises(l: Loc, open: OpenAnswer, outcome: Outcome)
    requires LocAtRest(l)
    ensures var r := ClearEffect(l, open, outcome);
            var acked := (l.driver.Some? || open.Opens?) && outcome.Acknowledged?;
            && LocAtRest(r)
            && r.driver.None?
            && (acked ==> r.phase.Idle? && r.target.None? && r.notice.NoNotice?)
            && (!acked ==> r.phase.Lost? && r.target == l.target && !r.notice.NoNotice?)
  {
    if l.driver.Some? || open.Opens? {
      var held := if l.driver.None? then Opened(l, open.sid) else l;
      IssueStopKeeps(held);
      FailKeeps(IssueStop(held), outcome, ClearUnconfirmed);
      ConfirmStopKeeps(IssueStop(held));
    } else {
      FailKeeps(l, Refused, CannotReach);
    }
  }

  class LocationSession {
    var driver: Option<Did>
    var phase: Phase
    var target: Option<Coord>
    var notice: Notice
    ghost var drivers: seq<Driver>
    ghost var log: seq<Event>

    ghost function View(): Loc
      reads this
    {
      Loc(driver, phase, target, notice, drivers, log)
    }

    ghost predicate Valid()
      reads this
    {
      LocAtRest(View())
    }

    constructor ()
      ensures View() == INITIAL_LOC && Valid()
    {
      driver, phase, target, notice := None, Idle, None, NoNotice;
      drivers, log := [], [];
    }

    /** locationSession.fail. */
    method FailWith(message: Notice)
      modifies this
      ensures View() == Fail(old(View()), message)
      ensures driver.None? && phase.Lost? && notice == message && target == old(target) && log == old(log) + [Failed]
      ensures |drivers| == |old(drivers)|
      ensures forall d: nat :: d < |drivers| ==>
                drivers[d] == if old(driver) == Some(d) then old(drivers)[d].(closes := old(drivers)[d].closes + 1)
                              else old(drivers)[d]
    {
      if driver.Some? {
        drivers := Closed(View()).drivers;
        driver := None;
      }
      phase := Phase.Lost;
      notice := message;
      log := log + [Failed];
    }

    /** locationCall: a call that outlives its context closes the driver before it gives up. */
    method Command(ghost e: Event, outcome: Outcome) returns (ok: bool)
      requires driver.Some?
      modifies this`drivers, this`log
      ensures ok <==> outcome.Acknowledged?
      ensures log == old(log) + [e]
      ensures drivers == (if outcome.TimedOut? then Closed(old(View())) else old(View())).drivers
      ensures |drivers| == |old(drivers)|
      ensures forall d: nat :: d < |drivers| ==>
                drivers[d] == if driver == Some(d) && outcome.TimedOut?
                              then old(drivers)[d].(closes := old(drivers)[d].closes + 1)
                              else old(drivers)[d]
    {
      log := log + [e];
      if outcome.TimedOut? {
        drivers := Closed(View()).drivers;
      }
      ok := outcome.Acknowledged?;
    }

    /** Takes the driver from `open` if none is held yet. */
    method Reach(open: OpenAnswer) returns (ok: bool)
      requires Fresh(View(), open)
      modifies this`driver, this`drivers
      ensures ok <==> old(driver).Some? || open.Opens?
      ensures View() == if old(driver).None? && open.Opens? then Opened(old(View()), open.sid) else old(View())
      ensures ok ==> driver.Some?
    {
      ok := true;
      if driver.None? {
        if open.Opens? {
          driver := Some(open.handle);
          drivers := drivers + [Driver(open.sid, 0, false)];
        } else {
          ok := false;
        }
      }
    }

    /** A failed set forgets no target: if a start was issued its target stays recorded. */
    method Set(at: Coord, open: OpenAnswer, outcome: Outcome) returns (ok: bool)
      requires Valid() && Fresh(View(), open)
      modifies this
      ensures Valid() && View() == SetEffect(old(View()), at, open, outcome)
      ensures ok <==> ValidLocation(at) && (old(driver).Some? || open.Opens?) && outcome.Acknowledged?
      ensures ok ==> phase.Live? && target == Some(at) && driver.Some? && notice.NoNotice?
      ensures !ok && ValidLocation(at) ==> phase.Lost? && driver.None? && !notice.NoNotice?
      ensures ValidLocation(at) && (old(driver).Some? || open.Opens?) ==> target == Some(at)
      ensures !ValidLocation(at) || (old(driver).None? && !open.Opens?) ==> target == old(target)
      ensures !ValidLocation(at) ==> View() == old(View())
      ensures ValidLocation(at) && old(driver).None? && !open.Opens? ==>
                notice == CannotOpen && log == old(log) + [Failed]
      ensures ValidLocation(at) && (old(driver).Some? || open.Opens?) ==>
                var d := if old(driver).Some? then old(driver).value else |old(drivers)|;
                var start := Start(d, at, BySet);
                if ok then driver == Some(d) && log == old(log) + [start]
                else notice == SetUnconfirmed && log == old(log) + [start] + [Failed]
    {
      hide LocConsistent;
      hide Outstanding;
      hide PhaseSaid;
      ghost var l := View();
      SetPromises(l, at, open, outcome);
      if !ValidLocation(at) {
        return false;
      }
      ok := Reach(open);
      if !ok {
        FailWith(CannotOpen);
        return;
      }
      ghost var held := View();
      phase, target, notice := Applying, Some(at), NoNotice;
      ok := Command(Start(driver.value, at, BySet), outcome);
      if !ok {
        assert View() == (if outcome.TimedOut? then Closed(IssueSet(held, at)) else IssueSet(held, at));
        FailWith(SetUnconfirmed);
        return;
      }
      phase, target, notice := Live, Some(at), NoNotice;
    }

    /** A clear that is not acknowledged is never taken for a restoration: the target stays recorded. */
    method Clear(open: OpenAnswer, outcome: Outcome) returns (ok: bool)
      requires Valid() && Fresh(View(), open)
      modifies this
      ensures Valid() && View() == ClearEffect(old(View()), open, outcome)
      ensures ok <==> (old(driver).Some? || open.Opens?) && outcome.Acknowledged?
      ensures driver.None?
      ensures ok ==> phase.Idle? && target.None? && notice.NoNotice?
      ensures !ok ==> phase.Lost? && target == old(target) && !notice.NoNotice?
      ensures old(driver).None? && !open.Opens? ==> notice == CannotReach && log == old(log) + [Failed]
      ensures old(driver).Some? || open.Opens? ==>
                var d := if old(driver).Some? then old(driver).value else |old(drivers)|;
                if ok then log == old(log) + [Stop(d)] + [StopAcked(d)]
                else notice == ClearUnconfirmed && log == old(log) + [Stop(d)] + [Failed]
    {
      hide Outstanding;
      hide PulsesRepeat;
      hide PhaseSaid;
      ghost var l := View();
      ClearPromises(l, open, outcome);
      ok := Reach(open);
      if !ok {
        FailWith(CannotReach);
        return;
      }
      ghost var held := View();
      ok := Command(Stop(driver.value), outcome);
      if !ok {
        assert View() == (if outcome.TimedOut? then Closed(IssueStop(held)) else IssueStop(held));
        FailWith(ClearUnconfirmed);
        return;
      }
      drivers := drivers[driver.value := drivers[driver.value].(acked := true)];
      log := log + [StopAcked(driver.value)];
      driver, phase, target, notice := None, Idle, None, NoNotice;
    }

    /** One tick of the refresh. */
    method PulseTick(outcome: Outcome)
      requires Valid()
      modifies this
      ensures Valid() && View() == PulseEffect(old(View()), outcome)
      ensures target == old(target)
      ensures old(driver).None? ==> View() == old(View())
      ensures old(driver).Some? ==> (phase.Live? <==> outcome.Acknowledged?)
      ensures old(driver).Some? ==>
                var start := Start(old(driver).value, old(target).value, ByPulse);
                if outcome.Acknowledged?
                then driver == old(driver) && notice == old(notice) && log == old(log) + [start]
                else driver.None? && notice == RefreshLost && log == old(log) + [start] + [Failed]
    {
      if driver.Some? && phase.Live? {
        ghost var l := View();
        IssuePulseKeeps(l);
        FailKeeps(IssuePulse(l), outcome, RefreshLost);
        var ok := Command(Start(driver.value, target.value, ByPulse), outcome);
        if !ok {
          FailWith(RefreshLost);
        }
      }
    }

    /** The session under the driver is gone: the driver is let go, the target is not forgotten. */
    method LoseTunnel()
      requires Valid()
      modifies this
      ensures Valid() && View() == TellLost(old(View()))
      ensures driver.None? && !phase.Live? && target == old(target)
      ensures if old(driver).None? then View() == old(View())
              else phase.Lost? && notice == TunnelLost && log == old(log) + [Failed]
    {
      TellLostKeeps(View());
      if driver.Some? || phase.Live? {
        FailWith(TunnelLost);
      }
    }
  }
}
