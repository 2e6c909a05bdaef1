/**
 The daemon's fields behind its field lock, and what each section under that lock writes
 (internal/linkcore/daemon.go). The class in Daemon.dfy and the interleaved model in
 Machine.dfy both use these writes.
 */
module DaemonFields {
  import opened Common

  /** The state label. */
  datatype Label =
    | Waiting
    | Connecting
    | Active
    | Recovering
    | Installing
    | Uninstalling
    | SessionLost
    | Stopping

  /** A session handle: the n-th session that was ever opened is handle n. */
  type Sid = nat

  datatype Kind = Install | Uninstall

  datatype Fields = Fields(
    state: Label,
    generation: nat,
    sessionLosses: nat,
    installCount: nat,
    uninstallCount: nat,
    lastErrorCode: string,
    session: Option<Sid>)

  const INITIAL_FIELDS := Fields(Waiting, 0, 0, 0, 0, "", None)

  predicate WarmLabel(state: Label) {
    state.Active? || state.Recovering? || state.Installing? || state.Uninstalling?
  }

  predicate ColdLabel(state: Label) {
    state.Waiting? || state.Connecting? || state.SessionLost?
  }

  /** A warm label needs a session (and so a generation), a cold one needs that none is held. */
  predicate LabelAgrees(f: Fields) {
    && (WarmLabel(f.state) ==> f.session.Some? && f.generation >= 1)
    && (ColdLabel(f.state) ==> f.session.None?)
  }

  function SetState(f: Fields, state: Label, code: string): Fields {
    f.(state := state, lastErrorCode := code)
  }

  function Commit(f: Fields, sid: Sid): Fields {
    f.(session := Some(sid), generation := f.generation + 1, state := Active, lastErrorCode := "")
  }

  function Lose(f: Fields): Fields {
    f.(session := None, state := SessionLost, lastErrorCode := "session_lost", sessionLosses := f.sessionLosses + 1)
  }

  function Drop(f: Fields): Fields {
    f.(session := None)
  }

  function BusyLabel(kind: Kind): Label {
    match kind
    case Install => Installing
    case Uninstall => Uninstalling
  }

  function Complete(f: Fields, kind: Kind): Fields {
    var g := f.(state := Active, lastErrorCode := "");
    match kind
    case Install => g.(installCount := g.installCount + 1)
    case Uninstall => g.(uninstallCount := g.uninstallCount + 1)
  }
}
