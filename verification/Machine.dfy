/**
 The warm-session daemon and its location session as one interleaved step system
 (internal/linkcore/daemon.go, location.go, location_http.go, screenshot.go, xctest.go).

 A step is a stretch of one thread's code between lock operations and external calls. The three locks
 are owner fields. A section under the field lock `mu` takes two steps: `Acquire` takes the lock, and the
 section's own step runs it and releases the lock. External calls answer as the step's `Choice` says.
 */
module Machine {
  import opened Common
  import opened DaemonFields
  import opened LocationModel

  type Tid = nat

  const LOOP: Tid := 0
  const SERVE: Tid := 1
  const PULSE: Tid := 2
  const FIRST_HANDLER: Tid := 3

  // ----- Program counters

  /** connectionLoop with establish and loseSession inlined. */
  datatype LoopPc =
    | Top
    | ReadSession
    | ReadLastError
    | SetWaiting(code: string)
    | EstLock
    | EstRead
    | EstCheck
    | EstLabel
    | EstOpen
    | EstFailed(code: string)
    | EstCommit(sid: Sid)
    | EstUnlock
    | Recheck
    | Backoff
    | ReadHandle
    | ReadGeneration(handle: Option<Sid>)
    | Select(handle: Option<Sid>, gen: nat)
    | DoneCheck(gen: nat)
    | LoseLock(gen: nat)
    | LoseClear(gen: nat)
    | LoseLocation(sid: Sid)
    | LoseClose(sid: Sid)
    | LoseUnlock
    | LoopReturned
    | LoopPanicked

  /** locationSession.clear. */
  datatype ClearPc =
    | ClearLock
    | ClearRead
    | ClearOpen(sid: Sid)
    | ClearOpening(sid: Sid)
    | ClearAwait

  /** locationSession.set. */
  datatype SetPc =
    | SetLock
    | SetRead
    | SetOpen(sid: Sid)
    | SetOpening(sid: Sid)
    | SetAwait

  datatype ServePc =
    | Accept
    | MarkStopping
    | SnapRead
    | SnapLock
    | ServeClear(c: ClearPc)
    | TearLock
    | TearRead
    | TearClose(sid: Sid)
    | TearDrop(sid: Sid)
    | TearUnlock
    | ServeReturned
    | ServeFailed

  datatype PulsePc = Ticking | PulseLock | PulseAwait | PulseReturned | PulsePanicked

  datatype HttpRequest = Put(c: Coord) | Delete | Get

  /** A request that has ended its mutation remembers how, and how long the command log was by then. */
  datatype HttpPc =
    | OwnerCheck(request: HttpRequest)
    | Setting(at: Coord, s: SetPc)
    | Clearing(c: ClearPc)
    | StateRead(request: HttpRequest, ok: bool, since: nat)
    | StateLock(request: HttpRequest, ok: bool, since: nat, active: bool)
    | Responded

  /** install and uninstall; the whole bundle validation is one external call. */
  datatype LifecyclePc =
    | Validate
    | OpLock
    | OpRead
    | OpLabel(sid: Sid)
    | OpCall(sid: Sid)
    | OpFailed
    | OpDone
    | OpUnlock
    | OpReturned

  datatype ShotPc = ShotTry | ShotRead | ShotCall(sid: Sid) | ShotReport(sid: Sid) | ShotUnlock | ShotReturned

  datatype TestsPc =
    | TestsTry
    | TestsRead
    | TestsPrepare(sid: Sid)
    | TestsGeneration(sid: Sid)
    | TestsCall(sid: Sid, gen: nat)
    | TestsReport(sid: Sid, gen: nat)
    | TestsUnlock
    | TestsReturned

  datatype Pc =
    | Loop(l: LoopPc)
    | Serve(v: ServePc)
    | Pulse(p: PulsePc)
    | Http(h: HttpPc)
    | Lifecycle(kind: Kind, o: LifecyclePc)
    | Shot(x: ShotPc)
    | Tests(y: TestsPc)

  // ----- State

  /** The generation a screenshot or test run reported, and the handle it had used. */
  datatype Report = Report(handle: Sid, generation: nat)

  /** The reply to an HTTP request: 200 or 502 by `ok`, and the state it shows, taken at log length `upto`. */
  datatype HttpReply = HttpReply(
    t: Tid,
    request: HttpRequest,
    ok: bool,
    since: nat,
    upto: nat,
    phase: Phase,
    target: Option<Coord>,
    active: bool)

  /** How far loseSession has come for the session it took out of the fields. */
  datatype Losing = NotLosing | BeforeNotice(sid: Sid) | AfterNotice(sid: Sid)

  /** History: nothing below is read by the code. `setAcks` holds the sets whose start the device acknowledged. */
  datatype History = History(
    sessionsOpened: nat,
    pending: bool,
    closeLog: seq<Sid>,
    lossLog: seq<nat>,
    losing: Losing,
    tearing: bool,
    tornDown: bool,
    dropped: nat,
    quiesced: bool,
    clearAcked: bool,
    reports: seq<Report>,
    setAcks: map<Tid, Coord>,
    replies: seq<HttpReply>)

  datatype Shared = Shared(
    op: Option<Tid>,
    loc: Option<Tid>,
    cancelled: bool,
    fields: Fields,
    location: Loc,
    hist: History)

  datatype State = State(sh: Shared, mu: Option<Tid>, pcs: map<Tid, Pc>)

  const INITIAL_HISTORY := History(0, false, [], [], NotLosing, false, false, 0, false, false, [], map[], [])

  const INITIAL_SHARED := Shared(None, None, false, INITIAL_FIELDS, INITIAL_LOC, INITIAL_HISTORY)

  const INITIAL_STATE :=
    State(INITIAL_SHARED, None, map[LOOP := Loop(Top), SERVE := Serve(Accept), PULSE := Pulse(Ticking)])

  /** How an external call, a select or a TryLock turns out. */
  datatype Choice = Ok | Err(code: string) | Timeout

  function OutcomeOf(choice: Choice): Outcome {
    match choice
    case Ok => Acknowledged
    case Err(_) => Refused
    case Timeout => TimedOut
  }

  // ----- Locks

  predicate NeedsMu(pc: Pc) {
    match pc
    case Loop(l) =>
      l.ReadSession? || l.ReadLastError? || l.SetWaiting? || l.EstRead? || l.EstLabel? || l.EstFailed? || l.EstCommit?
      || l.Recheck? || l.ReadHandle? || l.ReadGeneration? || l.LoseClear?
    case Serve(v) =>
      v.MarkStopping? || v.SnapRead? || v.TearRead? || v.TearDrop? || (v.ServeClear? && v.c.ClearRead?)
    case Pulse(_) => false
    case Http(h) => (h.Setting? && h.s.SetRead?) || (h.Clearing? && h.c.ClearRead?) || h.StateRead?
    case Lifecycle(_, o) => o.OpRead? || o.OpLabel? || o.OpFailed? || o.OpDone?
    case Shot(x) => x.ShotRead? || x.ShotReport?
    case Tests(y) => y.TestsRead? || y.TestsGeneration? || y.TestsReport?
  }

  /** The thread holds the device operation lock. */
  predicate HoldsOp(pc: Pc) {
    match pc
    case Loop(l) =>
      l.EstRead? || l.EstCheck? || l.EstLabel? || l.EstOpen? || l.EstFailed? || l.EstCommit? || l.EstUnlock?
      || l.LoseClear? || l.LoseLocation? || l.LoseClose? || l.LoseUnlock?
    case Serve(v) => v.TearRead? || v.TearClose? || v.TearDrop? || v.TearUnlock?
    case Pulse(_) => false
    case Http(_) => false
    case Lifecycle(_, o) => o.OpRead? || o.OpLabel? || o.OpCall? || o.OpFailed? || o.OpDone? || o.OpUnlock?
    case Shot(x) => x.ShotRead? || x.ShotCall? || x.ShotReport? || x.ShotUnlock?
    case Tests(y) =>
      y.TestsRead? || y.TestsPrepare? || y.TestsGeneration? || y.TestsCall? || y.TestsReport? || y.TestsUnlock?
  }

  /** The thread holds the location mutex between two of its steps. */
  predicate HoldsLoc(pc: Pc) {
    match pc
    case Serve(v) => v.ServeClear? && !v.c.ClearLock?
    case Pulse(p) => p.PulseAwait? || p.PulsePanicked?
    case Http(h) => (h.Setting? && !h.s.SetLock?) || (h.Clearing? && !h.c.ClearLock?)
    case _ => false
  }

  // ----- Steps, one function for each kind of thread

  datatype Out = Blocked | Next(sh: Shared, pc: Pc)

  function TakeOp(sh: Shared, t: Tid, pc: Pc): Out {
    if sh.op.None? then Next(sh.(op := Some(t)), pc) else Blocked
  }

  function LoopStep(sh: Shared, l: LoopPc, choice: Choice): Out {
    var f := sh.fields;
    var h := sh.hist;
    match l
    case Top => Next(sh, Loop(if sh.cancelled then LoopReturned else ReadSession))
    case ReadSession => Next(sh, Loop(if f.session.None? then ReadLastError else ReadHandle))
    case ReadLastError => Next(sh, Loop(SetWaiting(f.lastErrorCode)))
    case SetWaiting(code) => Next(sh.(fields := SetState(f, Waiting, code)), Loop(EstLock))
    case EstLock => TakeOp(sh, LOOP, Loop(EstRead))
    case EstRead => Next(sh, Loop(if f.session.Some? then EstUnlock else EstCheck))
    case EstCheck => Next(sh, Loop(if sh.cancelled then EstUnlock else EstLabel))
    case EstLabel => Next(sh.(fields := SetState(f, Connecting, "")), Loop(EstOpen))
    case EstOpen =>
      (match choice
       case Ok =>
         Next(sh.(hist := h.(sessionsOpened := h.sessionsOpened + 1, pending := true)),
              Loop(EstCommit(h.sessionsOpened + 1)))
       case Err(code) => Next(sh, Loop(EstFailed(code)))
       case Timeout => Blocked)
    case EstFailed(code) => Next(sh.(fields := SetState(f, Waiting, code)), Loop(EstUnlock))
    case EstCommit(sid) => Next(sh.(fields := Commit(f, sid), hist := h.(pending := false)), Loop(EstUnlock))
    case EstUnlock => Next(sh.(op := None), Loop(Recheck))
    case Recheck => Next(sh, Loop(if f.session.None? then Backoff else Top))
    case Backoff =>
      if choice.Ok? then Next(sh, Loop(Top))
      else if sh.cancelled then Next(sh, Loop(LoopReturned))
      else Blocked
    case ReadHandle => Next(sh, Loop(ReadGeneration(f.session)))
    case ReadGeneration(handle) => Next(sh, Loop(Select(handle, f.generation)))
    case Select(handle, gen) =>
      if handle.None? then Next(sh, Loop(LoopPanicked))
      else if choice.Ok? then Next(sh, Loop(DoneCheck(gen)))
      else if sh.cancelled then Next(sh, Loop(LoopReturned))
      else Blocked
    case DoneCheck(gen) => Next(sh, Loop(if sh.cancelled then LoopReturned else LoseLock(gen)))
    case LoseLock(gen) => TakeOp(sh, LOOP, Loop(LoseClear(gen)))
    case LoseClear(gen) =>
      if f.session.None? || f.generation != gen then Next(sh, Loop(LoseUnlock))
      else
        var sid := f.session.value;
        Next(sh.(fields := Lose(f), hist := h.(lossLog := h.lossLog + [gen], losing := BeforeNotice(sid))),
             Loop(LoseLocation(sid)))
    case LoseLocation(sid) =>
      if sh.loc.Some? then Blocked
      else Next(sh.(location := TellLost(sh.location), hist := h.(losing := AfterNotice(sid))), Loop(LoseClose(sid)))
    case LoseClose(sid) =>
      Next(sh.(hist := h.(closeLog := h.closeLog + [sid], losing := NotLosing)), Loop(LoseUnlock))
    case LoseUnlock => Next(sh.(op := None), Loop(Top))
    case LoopReturned => Blocked
    case LoopPanicked => Blocked
  }

  /** The outcome of one step of clear: still at work, or returned with the mutex released. */
  datatype ClearOut = ClearBlocked | ClearMore(sh: Shared, c: ClearPc) | ClearEnd(sh: Shared, acked: bool)

  /** `owned` says that the call's context ends with the daemon's: true for a request, false for Serve's cleanup. */
  function ClearStep(sh: Shared, t: Tid, c: ClearPc, owned: bool, choice: Choice): ClearOut {
    var l := sh.location;
    match c
    case ClearLock =>
      if sh.loc.Some? then ClearBlocked
      else if l.driver.None? then ClearMore(sh.(loc := Some(t)), ClearRead)
      else ClearMore(sh.(loc := Some(t), location := IssueStop(l)), ClearAwait)
    case ClearRead =>
      if sh.fields.session.None? then ClearEnd(sh.(loc := None, location := Fail(l, CannotReach)), false)
      else ClearMore(sh, ClearOpen(sh.fields.session.value))
    case ClearOpen(sid) =>
      if (owned && sh.cancelled) || !choice.Ok?
      then ClearEnd(sh.(loc := None, location := Fail(l, CannotReach)), false)
      else ClearMore(sh, ClearOpening(sid))
    case ClearOpening(sid) =>
      if choice.Ok? then ClearMore(sh.(location := IssueStop(Opened(l, sid))), ClearAwait)
      else ClearEnd(sh.(loc := None, location := Fail(l, CannotReach)), false)
    case ClearAwait =>
      if !(l.driver.Some? && l.driver.value < |l.drivers|) then ClearBlocked
      else if choice.Ok? then ClearEnd(sh.(loc := None, location := ConfirmStop(l)), true)
      else ClearEnd(sh.(loc := None, location := FailCall(l, OutcomeOf(choice), ClearUnconfirmed)), false)
  }

  function ServeStep(sh: Shared, v: ServePc, choice: Choice): Out {
    var f := sh.fields;
    var h := sh.hist;
    match v
    case Accept =>
      if sh.cancelled then Next(sh, Serve(MarkStopping))
      else if choice.Err? then Next(sh.(cancelled := true), Serve(ServeFailed))
      else Blocked
    case MarkStopping => Next(sh.(fields := SetState(f, Stopping, "")), Serve(SnapRead))
    case SnapRead => Next(sh, Serve(SnapLock))
    case SnapLock =>
      if sh.loc.Some? then Blocked
      else if sh.location.target.Some? then Next(sh, Serve(ServeClear(ClearLock)))
      else Next(sh.(hist := h.(quiesced := true)), Serve(TearLock))
    case ServeClear(c) =>
      (match ClearStep(sh, SERVE, c, false, choice)
       case ClearBlocked => Blocked
       case ClearMore(sh', c') => Next(sh', Serve(ServeClear(c')))
       case ClearEnd(sh', acked) =>
         Next(sh'.(hist := sh'.hist.(quiesced := true, clearAcked := acked)), Serve(TearLock)))
    case TearLock => TakeOp(sh, SERVE, Serve(TearRead))
    case TearRead =>
      if f.session.Some? then Next(sh, Serve(TearClose(f.session.value)))
      else Next(sh.(hist := h.(tornDown := true)), Serve(TearUnlock))
    case TearClose(sid) =>
      Next(sh.(hist := h.(closeLog := h.closeLog + [sid], tearing := true)), Serve(TearDrop(sid)))
    case TearDrop(sid) =>
      Next(sh.(fields := Drop(f), hist := h.(tearing := false, tornDown := true, dropped := h.dropped + 1)),
           Serve(TearUnlock))
    case TearUnlock => Next(sh.(op := None), Serve(ServeReturned))
    case ServeReturned => Blocked
    case ServeFailed => Blocked
  }

  function PulseStep(sh: Shared, p: PulsePc, choice: Choice): Out {
    var l := sh.location;
    match p
    case Ticking =>
      if choice.Ok? then Next(sh, Pulse(PulseLock))
      else if sh.cancelled then Next(sh, Pulse(PulseReturned))
      else Blocked
    case PulseLock =>
      if sh.loc.Some? then Blocked
      else if !(l.driver.Some? && l.phase.Live?) then Next(sh, Pulse(Ticking))
      else if l.target.None? then Next(sh.(loc := Some(PULSE)), Pulse(PulsePanicked))
      else Next(sh.(loc := Some(PULSE), location := IssuePulse(l)), Pulse(PulseAwait))
    case PulseAwait =>
      var l' := if choice.Ok? then l else FailCall(l, OutcomeOf(choice), RefreshLost);
      Next(sh.(loc := None, location := l'), Pulse(Ticking))
    case PulseReturned => Blocked
    case PulsePanicked => Blocked
  }

  /** A mutation is over: what remains is the reply. */
  function Ended(sh: Shared, request: HttpRequest, ok: bool): Out {
    Next(sh, Http(StateRead(request, ok, |sh.location.log|)))
  }

  /** One step of set: an `at` that fails the range check never takes the mutex. */
  function SetStep(sh: Shared, t: Tid, at: Coord, s: SetPc, choice: Choice): Out {
    var l := sh.location;
    match s
    case SetLock =>
      if !ValidLocation(at) then Ended(sh, Put(at), false)
      else if sh.loc.Some? then Blocked
      else if l.driver.None? then Next(sh.(loc := Some(t)), Http(Setting(at, SetRead)))
      else Next(sh.(loc := Some(t), location := IssueSet(l, at)), Http(Setting(at, SetAwait)))
    case SetRead =>
      if sh.fields.session.None? then Ended(sh.(loc := None, location := Fail(l, CannotOpen)), Put(at), false)
      else Next(sh, Http(Setting(at, SetOpen(sh.fields.session.value))))
    case SetOpen(sid) =>
      if sh.cancelled || !choice.Ok? then Ended(sh.(loc := None, location := Fail(l, CannotOpen)), Put(at), false)
      else Next(sh, Http(Setting(at, SetOpening(sid))))
    case SetOpening(sid) =>
      if choice.Ok? then Next(sh.(location := IssueSet(Opened(l, sid), at)), Http(Setting(at, SetAwait)))
      else Ended(sh.(loc := None, location := Fail(l, CannotOpen)), Put(at), false)
    case SetAwait =>
      if choice.Ok? then
        var h := sh.hist.(setAcks := sh.hist.setAcks[t := at]);
        Ended(sh.(loc := None, location := ConfirmSet(l, at), hist := h), Put(at), true)
      else Ended(sh.(loc := None, location := FailCall(l, OutcomeOf(choice), SetUnconfirmed)), Put(at), false)
  }

  function HttpStep(sh: Shared, t: Tid, h: HttpPc, choice: Choice): Out {
    match h
    case OwnerCheck(request) =>
      if sh.cancelled then Next(sh, Http(Responded))
      else
        (match request
         case Put(c) => Next(sh, Http(if ValidLocation(c) then Setting(c, SetLock) else Responded))
         case Delete => Next(sh, Http(Clearing(ClearLock)))
         case Get => Ended(sh, Get, true))
    case Setting(at, s) => SetStep(sh, t, at, s, choice)
    case Clearing(c) =>
      (match ClearStep(sh, t, c, true, choice)
       case ClearBlocked => Blocked
       case ClearMore(sh', c') => Next(sh', Http(Clearing(c')))
       case ClearEnd(sh', acked) => Ended(sh', Delete, acked))
    case StateRead(request, ok, since) =>
      Next(sh, Http(StateLock(request, ok, since, sh.fields.session.Some?)))
    case StateLock(request, ok, since, active) =>
      if sh.loc.Some? then Blocked
      else
        var l := sh.location;
        var reply := HttpReply(t, request, ok, since, |l.log|, l.phase, l.target, active);
        Next(sh.(hist := sh.hist.(replies := sh.hist.replies + [reply])), Http(Responded))
    case Responded => Blocked
  }

  function LifecycleStep(sh: Shared, t: Tid, kind: Kind, o: LifecyclePc, choice: Choice): Out {
    var f := sh.fields;
    match o
    case Validate => Next(sh, Lifecycle(kind, if choice.Ok? then OpLock else OpReturned))
    case OpLock => TakeOp(sh, t, Lifecycle(kind, OpRead))
    case OpRead => Next(sh, Lifecycle(kind, if f.session.None? then OpUnlock else OpLabel(f.session.value)))
    case OpLabel(sid) => Next(sh.(fields := SetState(f, BusyLabel(kind), "")), Lifecycle(kind, OpCall(sid)))
    case OpCall(_) => Next(sh, Lifecycle(kind, if choice.Ok? then OpDone else OpFailed))
    case OpFailed => Next(sh.(fields := SetState(f, Recovering, "service_unresponsive")), Lifecycle(kind, OpUnlock))
    case OpDone => Next(sh.(fields := Complete(f, kind)), Lifecycle(kind, OpUnlock))
    case OpUnlock => Next(sh.(op := None), Lifecycle(kind, OpReturned))
    case OpReturned => Blocked
  }

  /** TryLock may also report failure while the lock is free. */
  function ShotStep(sh: Shared, t: Tid, x: ShotPc, choice: Choice): Out {
    var f := sh.fields;
    match x
    case ShotTry => if choice.Ok? then TakeOp(sh, t, Shot(ShotRead)) else Next(sh, Shot(ShotReturned))
    case ShotRead => Next(sh, Shot(if f.session.None? then ShotUnlock else ShotCall(f.session.value)))
    case ShotCall(sid) => Next(sh, Shot(if choice.Ok? then ShotReport(sid) else ShotUnlock))
    case ShotReport(sid) =>
      Next(sh.(hist := sh.hist.(reports := sh.hist.reports + [Report(sid, f.generation)])), Shot(ShotUnlock))
    case ShotUnlock => Next(sh.(op := None), Shot(ShotReturned))
    case ShotReturned => Blocked
  }

  function TestsStep(sh: Shared, t: Tid, y: TestsPc, choice: Choice): Out {
    var f := sh.fields;
    match y
    case TestsTry => if choice.Ok? then TakeOp(sh, t, Tests(TestsRead)) else Next(sh, Tests(TestsReturned))
    case TestsRead => Next(sh, Tests(if f.session.None? then TestsUnlock else TestsPrepare(f.session.value)))
    case TestsPrepare(sid) => Next(sh, Tests(if choice.Ok? then TestsGeneration(sid) else TestsUnlock))
    case TestsGeneration(sid) => Next(sh, Tests(TestsCall(sid, f.generation)))
    case TestsCall(sid, gen) => Next(sh, Tests(if choice.Ok? then TestsReport(sid, gen) else TestsUnlock))
    case TestsReport(sid, gen) =>
      Next(sh.(hist := sh.hist.(reports := sh.hist.reports + [Report(sid, gen)])), Tests(TestsUnlock))
    case TestsUnlock => Next(sh.(op := None), Tests(TestsReturned))
    case TestsReturned => Blocked
  }

  function ThreadStep(sh: Shared, t: Tid, pc: Pc, choice: Choice): Out {
    match pc
    case Loop(l) => LoopStep(sh, l, choice)
    case Serve(v) => ServeStep(sh, v, choice)
    case Pulse(p) => PulseStep(sh, p, choice)
    case Http(h) => HttpStep(sh, t, h, choice)
    case Lifecycle(kind, o) => LifecycleStep(sh, t, kind, o, choice)
    case Shot(x) => ShotStep(sh, t, x, choice)
    case Tests(y) => TestsStep(sh, t, y, choice)
  }

  // ----- Actions and runs

  datatype Action =
    | Acquire(t: Tid)
    | Step(t: Tid, choice: Choice)
    | Spawn(t: Tid, pc: Pc)
    | Cancel

  /** Request handlers start only while Serve accepts; an HTTP handler may start at any time. */
  predicate MaySpawn(s: State, t: Tid, pc: Pc) {
    && t !in s.pcs
    && FIRST_HANDLER <= t
    && (pc.Http? || (SERVE in s.pcs && s.pcs[SERVE] == Serve(Accept)))
    && match pc
       case Http(h) => h.OwnerCheck?
       case Lifecycle(kind, o) => o == if kind.Install? then Validate else OpLock
       case Shot(x) => x.ShotTry?
       case Tests(y) => y.TestsTry?
       case _ => false
  }

  function Apply(s: State, a: Action): Option<State> {
    match a
    case Acquire(t) =>
      if t in s.pcs && NeedsMu(s.pcs[t]) && s.mu.None? then Some(s.(mu := Some(t))) else None
    case Step(t, choice) =>
      if t !in s.pcs || (NeedsMu(s.pcs[t]) && s.mu != Some(t)) then None
      else
        (match ThreadStep(s.sh, t, s.pcs[t], choice)
         case Blocked => None
         case Next(sh', pc') =>
           Some(State(sh', if NeedsMu(s.pcs[t]) then None else s.mu, s.pcs[t := pc'])))
    case Spawn(t, pc) => if MaySpawn(s, t, pc) then Some(s.(pcs := s.pcs[t := pc])) else None
    case Cancel => Some(s.(sh := s.sh.(cancelled := true)))
  }

  /** The state after a sequence of actions from the start, if every one of them could be taken. */
  function Run(acts: seq<Action>): Option<State> {
    if acts == [] then Some(INITIAL_STATE)
    else
      match Run(acts[..|acts| - 1])
      case None => None
      case Some(s) => Apply(s, acts[|acts| - 1])
  }
}
