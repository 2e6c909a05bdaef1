/**
 Daemon as the class it is (internal/linkcore/daemon.go, screenshot.go): each operation runs with the
 operation lock held throughout, so it is specified by what it does to the fields and to the location
 session at once. Answers of the device and of the contexts are parameters.
 */
module Daemons {
  import opened Common
  import opened DaemonFields
  import opened LocationModel
  import opened LocationSessions

  datatype Capture = Capture(generation: nat, state: Label, imageBytes: nat)

  function EstablishEffect(f: Fields, cancelled: bool, answer: Result<Sid, string>): Fields {
    if f.session.Some? || cancelled then f
    else
      match answer
      case Success(sid) => Commit(f, sid)
      case Failure(code) => SetState(f, Waiting, code)
  }

  function LoseEffect(f: Fields, gen: nat): Fields {
    if f.session.None? || f.generation != gen then f else Lose(f)
  }

  function OperateEffect(f: Fields, kind: Kind, ok: bool): Fields {
    if f.session.None? then f
    else if ok then Complete(f, kind)
    else SetState(f, Recovering, "service_unresponsive")
  }

  class Daemon {
    var state: Label
    var generation: nat
    var sessionLosses: nat
    var installCount: nat
    var uninstallCount: nat
    var lastErrorCode: string
    var session: Option<Sid>
    const location: LocationSession
    ghost var closeLog: seq<Sid>

    ghost function View(): Fields
      reads this
    {
      Fields(state, generation, sessionLosses, installCount, uninstallCount, lastErrorCode, session)
    }

    /** With the operation lock free and no shutdown yet. */
    ghost predicate Valid()
      reads this, location
    {
      && location.Valid()
      && LabelAgrees(View())
      && generation == sessionLosses + (if session.Some? then 1 else 0)
      && (session.Some? ==> session.value == generation)
      && closeLog == Upto(sessionLosses)
      && (location.driver.Some? ==>
            session.Some? && location.drivers[location.driver.value].sid == session.value)
    }

    constructor ()
      ensures Valid() && View() == INITIAL_FIELDS && fresh(location) && location.View() == INITIAL_LOC
    {
      state, generation, sessionLosses, installCount, uninstallCount := Waiting, 0, 0, 0, 0;
      lastErrorCode, session, closeLog := "", None, [];
      location := new LocationSession();
    }

    method SetState(newState: Label, code: string)
      modifies this`state, this`lastErrorCode
      ensures View() == DaemonFields.SetState(old(View()), newState, code)
    {
      state := newState;
      lastErrorCode := code;
    }

    /** A session that `openSession` returns is a new one: handle generation + 1. */
    method Establish(cancelled: bool, answer: Result<Sid, string>)
      requires Valid() && (answer.Success? ==> answer.value == generation + 1)
      modifies this
      ensures Valid() && View() == EstablishEffect(old(View()), cancelled, answer)
      ensures closeLog == old(closeLog) && location.View() == old(location.View())
      ensures old(session).Some? || cancelled ==> View() == old(View())
      ensures old(session).None? && !cancelled && answer.Failure? ==>
                state == Waiting && lastErrorCode == answer.error && session.None? && generation == old(generation)
      ensures old(session).None? && !cancelled && answer.Success? ==>
                && generation == old(generation) + 1
                && session == Some(generation)
                && state == Active
                && lastErrorCode == ""
                && old(location.driver).None?
    {
      if session.Some? || cancelled {
        return;
      }
      SetState(Connecting, "");
      match answer
      case Failure(code) => SetState(Waiting, code);
      case Success(sid) =>
        session := Some(sid);
        generation := generation + 1;
        state := Active;
        lastErrorCode := "";
    }

    /** A notice that names a generation other than the held one changes nothing. */
    method LoseSession(gen: nat)
      requires Valid()
      modifies this, location
      ensures Valid() && View() == LoseEffect(old(View()), gen)
      ensures old(session).None? || old(generation) != gen ==>
                closeLog == old(closeLog) && location.View() == old(location.View())
      ensures old(session).Some? && old(generation) == gen ==>
                && session.None?
                && state == SessionLost
                && lastErrorCode == "session_lost"
                && generation == gen
                && sessionLosses == old(sessionLosses) + 1
                && closeLog == old(closeLog) + [gen]
                && location.View() == TellLost(old(location.View()))
                && location.driver.None?
                && location.target == old(location.target)
    {
      if session.None? || generation != gen {
        return;
      }
      var handle := session.value;
      session := None;
      state := SessionLost;
      lastErrorCode := "session_lost";
      sessionLosses := sessionLosses + 1;
      location.LoseTunnel();
      UptoSnoc(sessionLosses - 1);
      closeLog := closeLog + [handle];
    }

    /** install after bundle validation, and uninstall. A device failure is passed on and retains the session. */
    method Operate(kind: Kind, answer: Option<string>) returns (error: Option<string>)
      requires Valid()
      modifies this
      ensures Valid() && View() == OperateEffect(old(View()), kind, answer.None?)
      ensures session == old(session) && closeLog == old(closeLog) && location.View() == old(location.View())
      ensures error == if old(session).Some? then answer else Some("session_not_active")
      ensures installCount == old(installCount) + (if error.None? && kind.Install? then 1 else 0)
      ensures uninstallCount == old(uninstallCount) + (if error.None? && kind.Uninstall? then 1 else 0)
      ensures error.None? ==> state == Active && lastErrorCode == ""
      ensures old(session).Some? && error.Some? ==> state == Recovering && lastErrorCode == "service_unresponsive"
      ensures old(session).None? ==> View() == old(View())
    {
      if session.None? {
        return Some("session_not_active");
      }
      SetState(BusyLabel(kind), "");
      if answer.Some? {
        SetState(Recovering, "service_unresponsive");
        return answer;
      }
      match kind {
        case Install => installCount := installCount + 1;
        case Uninstall => uninstallCount := uninstallCount + 1;
      }
      state := Active;
      lastErrorCode := "";
      error := None;
    }

    /** Bundle validation comes first and without the lock. */
    method InstallApp(validation: Option<string>, answer: Option<string>) returns (error: Option<string>)
      requires Valid()
      modifies this
      ensures Valid() && location.View() == old(location.View()) && closeLog == old(closeLog)
      ensures validation.Some? ==> error == validation && View() == old(View())
      ensures validation.None? ==>
                && View() == OperateEffect(old(View()), Install, answer.None?)
                && error == if old(session).Some? then answer else Some("session_not_active")
    {
      if validation.Some? {
        return validation;
      }
      error := Operate(Install, answer);
    }

    /** A capture never changes the daemon: it reports its session's generation, or one of four errors. */
    method Screenshot(locked: bool, answer: Result<seq<bv8>, string>) returns (r: Result<Capture, string>)
      requires Valid()
      ensures r.Success? <==>
              locked && session.Some? && answer.Success? && 0 < |answer.value| <= MAX_SCREENSHOT_BYTES
      ensures r.Success? ==> session == Some(r.value.generation) && r.value.state == state
                             && r.value.imageBytes == |answer.value|
      ensures !locked ==> r == Failure("session_busy")
      ensures locked && session.None? ==> r == Failure("session_not_active")
      ensures locked && session.Some? && answer.Failure? ==> r == Failure(answer.error)
      ensures locked && session.Some? && answer.Success? && r.Failure? ==> r == Failure("capture_invalid_image")
    {
      if !locked {
        return Failure("session_busy");
      }
      if session.None? {
        return Failure("session_not_active");
      }
      match answer
      case Failure(code) => return Failure(code);
      case Success(data) =>
        if |data| == 0 || |data| > MAX_SCREENSHOT_BYTES {
          return Failure("capture_invalid_image");
        }
        return Success(Capture(generation, state, |data|));
    }

    /** The end of Serve, once the context is cancelled: clear what may still be simulated, then close the session. */
    method Shutdown(open: OpenAnswer, outcome: Outcome)
      requires Valid() && Fresh(location.View(), open)
      modifies this, location
      ensures session.None? && generation == old(generation) && closeLog == Upto(generation)
      ensures location.Valid() && location.driver.None?
      ensures location.target.None? <==>
              old(location.target).None? || ((old(location.driver).Some? || open.Opens?) && outcome.Acknowledged?)
      ensures location.target.Some? ==> location.target == old(location.target)
      ensures old(location.target).None? ==> location.View() == old(location.View())
    {
      SetState(Stopping, "");
      if location.target.Some? {
        var acked := location.Clear(open, outcome);
      }
      if session.Some? {
        UptoSnoc(sessionLosses);
        closeLog := closeLog + [session.value];
        session := None;
      }
    }
  }
}
