/**
 The inductive invariant of the interleaved model: what the shared state satisfies on its own, what each
 thread may rely on at each of its program counters, and why every action keeps both.
 */
module Invariant {
  import opened Common
  import opened DaemonFields
  import opened LocationModel
  import opened Machine

  // ----- Shared state

  /** The number of sessions closed so far: all of them, or all but the newest. */
  function ClosedCount(sh: Shared): int {
    if sh.hist.pending then sh.fields.generation
    else if sh.hist.losing != NotLosing || (sh.fields.session.Some? && !sh.hist.tearing)
    then sh.fields.generation - 1
    else sh.fields.generation
  }

  /** Generations, losses and closes are numbered alike: no session is skipped, lost or closed twice. */
  predicate Conserved(sh: Shared) {
    var f, h := sh.fields, sh.hist;
    && h.sessionsOpened == f.generation + (if h.pending then 1 else 0)
    && (f.session.Some? ==> f.session.value == f.generation && f.generation >= 1)
    && f.generation == f.sessionLosses + h.dropped + (if f.session.Some? then 1 else 0)
    && h.lossLog == Upto(f.sessionLosses)
    && 0 <= ClosedCount(sh)
    && h.closeLog == Upto(ClosedCount(sh))
    && (h.losing != NotLosing ==>
          h.losing.sid == f.generation >= 1 && f.session.None? && !h.tornDown && !h.pending && sh.op == Some(LOOP))
    && (h.pending ==> f.session.None? && !h.tornDown && sh.op == Some(LOOP))
    && (h.tearing ==> f.session.Some? && sh.op == Some(SERVE))
    && (h.tornDown ==> f.session.None? && sh.cancelled)
    && (h.dropped > 0 ==> h.tornDown)
  }

  /** A driver opened on the current session may be held: the session is held, is being given up, or was torn down. */
  predicate Usable(sh: Shared, sid: Sid) {
    && sid == sh.fields.generation
    && (sh.fields.session.Some? || sh.hist.losing.BeforeNotice? || sh.hist.tornDown)
  }

  predicate SharedInv(sh: Shared) {
    && Conserved(sh)
    && (!sh.hist.tornDown ==> LabelAgrees(sh.fields))
    && LocConsistent(sh.location)
    && (sh.loc.None? ==> LocAtRest(sh.location))
    && (sh.location.driver.Some? ==> Usable(sh, sh.location.drivers[sh.location.driver.value].sid))
    && (sh.hist.quiesced ==> sh.cancelled && sh.location.driver.None?)
    && (sh.hist.clearAcked ==> sh.hist.quiesced && sh.location.target.None?)
    && (forall i :: 0 <= i < |sh.hist.reports| ==> sh.hist.reports[i].handle == sh.hist.reports[i].generation)
  }

  // ----- Threads

  predicate RoleOk(t: Tid, pc: Pc) {
    && (pc.Loop? <==> t == LOOP)
    && (pc.Serve? <==> t == SERVE)
    && (pc.Pulse? <==> t == PULSE)
  }

  /** The session handle the loop found is the current one, unless shutdown has cleared it meanwhile. */
  predicate HandleCurrent(sh: Shared, handle: Option<Sid>) {
    if handle.Some? then handle.value == sh.fields.generation && (sh.fields.session.Some? || sh.hist.tornDown)
    else sh.hist.tornDown
  }

  predicate LoopLocal(sh: Shared, l: LoopPc) {
    var f, h := sh.fields, sh.hist;
    && (h.pending <==> l.EstCommit?)
    && h.losing == (match l
                    case LoseLocation(sid) => BeforeNotice(sid)
                    case LoseClose(sid) => AfterNotice(sid)
                    case _ => NotLosing)
    && match l
       case ReadLastError => f.session.None?
       case SetWaiting(_) => f.session.None?
       case EstCheck => f.session.None?
       case EstLabel => f.session.None? && !h.tornDown
       case EstOpen => f.session.None? && !h.tornDown
       case EstFailed(_) => f.session.None? && !h.tornDown
       case EstCommit(sid) => f.session.None? && sid == h.sessionsOpened
       case ReadHandle => f.session.Some? || h.tornDown
       case ReadGeneration(handle) => HandleCurrent(sh, handle)
       case Select(handle, gen) => HandleCurrent(sh, handle) && gen == f.generation
       case DoneCheck(gen) => gen == f.generation && (f.session.Some? || h.tornDown)
       case LoseLock(gen) => gen == f.generation && (f.session.Some? || h.tornDown)
       case LoseClear(gen) => gen == f.generation && (f.session.Some? || h.tornDown)
       case LoseClose(_) => sh.location.driver.None?
       case LoopReturned => sh.cancelled
       case LoopPanicked => h.tornDown
       case _ => true
  }

  /** `fresh` says the call may still open a driver or issue a command. */
  predicate ClearLocal(sh: Shared, c: ClearPc) {
    var l := sh.location;
    match c
    case ClearLock => true
    case ClearRead => l.driver.None? && !l.phase.Live? && !l.phase.Applying?
    case ClearOpen(sid) => l.driver.None? && !l.phase.Live? && !l.phase.Applying? && Usable(sh, sid)
    case ClearOpening(sid) =>
      l.driver.None? && !l.phase.Live? && !l.phase.Applying? && Usable(sh, sid) && !sh.hist.quiesced
    case ClearAwait => l.driver.Some? && !l.phase.Applying? && !sh.hist.quiesced
  }

  predicate SetLocal(sh: Shared, at: Coord, s: SetPc) {
    var l := sh.location;
    match s
    case SetLock => true
    case SetRead => ValidLocation(at) && l.driver.None? && !l.phase.Live? && !l.phase.Applying?
    case SetOpen(sid) =>
      ValidLocation(at) && l.driver.None? && !l.phase.Live? && !l.phase.Applying? && Usable(sh, sid)
    case SetOpening(sid) =>
      && ValidLocation(at)
      && l.driver.None?
      && !l.phase.Live?
      && !l.phase.Applying?
      && Usable(sh, sid)
      && !sh.hist.quiesced
    case SetAwait =>
      && ValidLocation(at)
      && l.driver.Some?
      && l.phase.Applying?
      && l.target == Some(at)
      && LastStartHeld(l)
      && !sh.hist.quiesced
  }

  predicate ServeLocal(sh: Shared, v: ServePc) {
    var f, h := sh.fields, sh.hist;
    && (!v.Accept? ==> sh.cancelled)
    && (h.quiesced <==> v.TearLock? || v.TearRead? || v.TearClose? || v.TearDrop? || v.TearUnlock? || v.ServeReturned?)
    && (h.tearing <==> v.TearDrop?)
    && (h.tornDown <==> v.TearUnlock? || v.ServeReturned?)
    && match v
       case ServeClear(c) => ClearLocal(sh, c)
       case TearClose(sid) => f.session == Some(sid)
       case TearDrop(sid) => f.session == Some(sid)
       case _ => true
  }

  predicate PulseLocal(sh: Shared, p: PulsePc) {
    match p
    case PulseAwait => sh.location.phase.Live? && LastStartHeld(sh.location) && !sh.hist.quiesced
    case PulseReturned => sh.cancelled
    case PulsePanicked => false
    case _ => true
  }

  /** The handle an operation looked up is still the daemon's session. */
  predicate OpLocal(sh: Shared, sid: Sid) {
    sh.fields.session == Some(sid) && !sh.hist.tearing
  }

  predicate Local(sh: Shared, pc: Pc) {
    match pc
    case Loop(l) => LoopLocal(sh, l)
    case Serve(v) => ServeLocal(sh, v)
    case Pulse(p) => PulseLocal(sh, p)
    case Http(h) =>
      (match h
       case Setting(at, s) => SetLocal(sh, at, s)
       case Clearing(c) => ClearLocal(sh, c)
       case _ => true)
    case Lifecycle(_, o) =>
      (match o
       case OpLabel(sid) => OpLocal(sh, sid)
       case OpCall(sid) => OpLocal(sh, sid)
       case OpFailed => sh.fields.session.Some?
       case OpDone => sh.fields.session.Some?
       case _ => true)
    case Shot(x) =>
      (match x
       case ShotCall(sid) => OpLocal(sh, sid)
       case ShotReport(sid) => OpLocal(sh, sid)
       case _ => true)
    case Tests(y) =>
      (match y
       case TestsPrepare(sid) => OpLocal(sh, sid)
       case TestsGeneration(sid) => OpLocal(sh, sid)
       case TestsCall(sid, gen) => OpLocal(sh, sid) && gen == sid
       case TestsReport(sid, gen) => OpLocal(sh, sid) && gen == sid
       case _ => true)
  }

  predicate ThreadInv(sh: Shared, t: Tid, pc: Pc) {
    && RoleOk(t, pc)
    && (sh.op == Some(t) <==> HoldsOp(pc))
    && (sh.loc == Some(t) <==> HoldsLoc(pc))
    && Local(sh, pc)
  }

  predicate Inv(s: State) {
    && SharedInv(s.sh)
    && LOOP in s.pcs && SERVE in s.pcs && PULSE in s.pcs
    && (s.sh.op.Some? ==> s.sh.op.value in s.pcs)
    && (s.sh.loc.Some? ==> s.sh.loc.value in s.pcs)
    && (s.mu.Some? ==> s.mu.value in s.pcs && NeedsMu(s.pcs[s.mu.value]))
    && forall t :: t in s.pcs ==> ThreadInv(s.sh, t, s.pcs[t])
  }

  // ----- What a step of one thread guarantees to the others

  predicate SameOwnerBut(before: Option<Tid>, after: Option<Tid>, t: Tid) {
    after == before || ((before.None? || before == Some(t)) && (after.None? || after == Some(t)))
  }

  predicate Guarantee(a: Shared, b: Shared, t: Tid) {
    && SameOwnerBut(a.op, b.op, t)
    && SameOwnerBut(a.loc, b.loc, t)
    && (a.cancelled ==> b.cancelled)
    && (a.hist.tornDown ==> b.hist.tornDown)
    // the session and its bookkeeping move under the operation lock only
    && (a.op != Some(t) ==>
          && b.fields.session == a.fields.session
          && b.fields.generation == a.fields.generation
          && b.hist.tearing == a.hist.tearing
          && b.hist.tornDown == a.hist.tornDown)
    // only the loop numbers, loses and opens; only Serve shuts down
    && (t != LOOP ==>
          && b.fields.generation == a.fields.generation
          && b.hist.sessionsOpened == a.hist.sessionsOpened
          && b.hist.pending == a.hist.pending
          && b.hist.losing == a.hist.losing
          && (b.fields.session == a.fields.session || (b.fields.session.None? && b.hist.tornDown)))
    && (t != SERVE ==>
          && b.hist.quiesced == a.hist.quiesced
          && b.hist.tornDown == a.hist.tornDown
          && b.hist.tearing == a.hist.tearing)
    // while another thread is inside the location mutex
    && (a.loc.Some? && a.loc != Some(t) ==>
          && b.location == a.location
          && b.hist.quiesced == a.hist.quiesced
          && (Usable(a, a.fields.generation) ==> Usable(b, a.fields.generation)))
    // no driver appears while a lost session waits to be closed
    && (a.hist.losing.AfterNotice? && a.location.driver.None? && t != LOOP ==> b.location.driver.None?)
  }

  /** Rely: what a thread counts on survives another thread's guaranteed step. */
  lemma Stable(a: Shared, b: Shared, t: Tid, u: Tid, pc: Pc)
    requires Guarantee(a, b, t) && t != u && ThreadInv(a, u, pc)
    ensures ThreadInv(b, u, pc)
  {
  }

  /** What one step owes: the shared invariant, the stepping thread's own place, and its guarantee. */
  predicate Owes(a: Shared, t: Tid, out: Out) {
    out.Next? ==> SharedInv(out.sh) && ThreadInv(out.sh, t, out.pc) && Guarantee(a, out.sh, t)
  }

  lemma LoseNoticeOwes(sh: Shared, sid: Sid, choice: Choice)
    requires SharedInv(sh) && ThreadInv(sh, LOOP, Loop(LoseLocation(sid)))
    ensures Owes(sh, LOOP, LoopStep(sh, LoseLocation(sid), choice))
  {
    if sh.loc.None? { TellLostKeeps(sh.location); }
  }

  lemma LoseClearOwes(sh: Shared, gen: nat, choice: Choice)
    requires SharedInv(sh) && ThreadInv(sh, LOOP, Loop(LoseClear(gen)))
    ensures Owes(sh, LOOP, LoopStep(sh, LoseClear(gen), choice))
  {
    hide LocConsistent;
    hide LocAtRest;
    UptoSnoc(sh.fields.sessionLosses);
  }

  lemma LoseEndOwes(sh: Shared, l: LoopPc, choice: Choice)
    requires SharedInv(sh) && ThreadInv(sh, LOOP, Loop(l)) && (l.LoseLock? || l.LoseClose? || l.LoseUnlock?)
    ensures Owes(sh, LOOP, LoopStep(sh, l, choice))
  {
    hide LocConsistent;
    hide LocAtRest;
    if l.LoseClose? { UptoSnoc(ClosedCount(sh)); }
  }

  lemma AcquireOwes(sh: Shared, l: LoopPc, choice: Choice)
    requires SharedInv(sh) && ThreadInv(sh, LOOP, Loop(l)) && (l.EstOpen? || l.EstFailed? || l.EstCommit?)
    ensures Owes(sh, LOOP, LoopStep(sh, l, choice))
  {
    hide LocConsistent;
    hide LocAtRest;
  }

  lemma EstablishOwes(sh: Shared, l: LoopPc, choice: Choice)
    requires SharedInv(sh) && ThreadInv(sh, LOOP, Loop(l))
    requires l.EstLock? || l.EstRead? || l.EstCheck? || l.EstLabel? || l.EstUnlock?
    ensures Owes(sh, LOOP, LoopStep(sh, l, choice))
  {
    hide LocConsistent;
    hide LocAtRest;
  }

  lemma WatchSessionOwes(sh: Shared, l: LoopPc, choice: Choice)
    requires SharedInv(sh) && ThreadInv(sh, LOOP, Loop(l))
    requires l.ReadHandle? || l.ReadGeneration? || l.Select? || l.DoneCheck?
    ensures Owes(sh, LOOP, LoopStep(sh, l, choice))
  {
    hide LocConsistent;
    hide LocAtRest;
  }

  lemma WaitOwes(sh: Shared, l: LoopPc, choice: Choice)
    requires SharedInv(sh) && ThreadInv(sh, LOOP, Loop(l))
    requires
      || l.Top?
      || l.ReadSession?
      || l.ReadLastError?
      || l.SetWaiting?
      || l.Recheck?
      || l.Backoff?
      || l.LoopReturned?
      || l.LoopPanicked?
    ensures Owes(sh, LOOP, LoopStep(sh, l, choice))
  {
    hide LocConsistent;
    hide LocAtRest;
  }

  lemma LoopOwes(sh: Shared, l: LoopPc, choice: Choice)
    requires SharedInv(sh) && ThreadInv(sh, LOOP, Loop(l))
    ensures Owes(sh, LOOP, LoopStep(sh, l, choice))
  {
    if l.LoseLocation? {
      LoseNoticeOwes(sh, l.sid, choice);
    } else if l.LoseClear? {
      LoseClearOwes(sh, l.gen, choice);
    } else if l.LoseLock? || l.LoseClose? || l.LoseUnlock? {
      LoseEndOwes(sh, l, choice);
    } else if l.EstOpen? || l.EstFailed? || l.EstCommit? {
      AcquireOwes(sh, l, choice);
    } else if l.EstLock? || l.EstRead? || l.EstCheck? || l.EstLabel? || l.EstUnlock? {
      EstablishOwes(sh, l, choice);
    } else if l.ReadHandle? || l.ReadGeneration? || l.Select? || l.DoneCheck? {
      WatchSessionOwes(sh, l, choice);
    } else {
      WaitOwes(sh, l, choice);
    }
  }

  /** A write of the location state by the thread that holds, takes or releases its mutex. */
  lemma LocationWrite(a: Shared, t: Tid, owner: Option<Tid>, l: Loc)
    requires SharedInv(a) && t != LOOP
    requires a.loc.None? || a.loc == Some(t)
    requires owner.None? || owner == Some(t)
    requires LocConsistent(l) && (owner.None? ==> LocAtRest(l))
    requires l.driver.Some? ==> Usable(a, l.drivers[l.driver.value].sid) && !a.hist.quiesced
    requires a.hist.clearAcked ==> l.target.None?
    ensures SharedInv(a.(loc := owner, location := l)) && Guarantee(a, a.(loc := owner, location := l), t)
  {
  }

  /** What one step of clear owes to the thread that runs it. */
  predicate ClearOwes(a: Shared, t: Tid, out: ClearOut) {
    match out
    case ClearBlocked => true
    case ClearMore(b, c) => SharedInv(b) && b.op == a.op && b.loc == Some(t) && ClearLocal(b, c) && Guarantee(a, b, t)
    case ClearEnd(b, acked) =>
      && SharedInv(b)
      && b.op == a.op
      && b.loc.None?
      && b.location.driver.None?
      && (acked ==> b.location.target.None?)
      && b.hist == a.hist
      && Guarantee(a, b, t)
  }

  lemma HeldIsUsable(sh: Shared)
    requires SharedInv(sh) && sh.fields.session.Some?
    ensures Usable(sh, sh.fields.session.value)
  {
  }

  lemma NothingDone(sh: Shared, t: Tid)
    ensures Guarantee(sh, sh, t)
  {
  }

  /** A failed call's writes, with the mutex given back. */
  lemma FailOwes(sh: Shared, t: Tid, outcome: Outcome, notice: Notice)
    requires SharedInv(sh) && t != LOOP && sh.loc == Some(t)
    ensures var b := sh.(loc := None, location := FailCall(sh.location, outcome, notice));
            SharedInv(b) && Guarantee(sh, b, t) && b.location.driver.None?
  {
    hide Conserved;
    hide LabelAgrees;
    hide Guarantee;
    FailKeeps(sh.location, outcome, notice);
    LocationWrite(sh, t, None, FailCall(sh.location, outcome, notice));
  }

  lemma ClearBeginOwes(sh: Shared, t: Tid, owned: bool, choice: Choice)
    requires SharedInv(sh) && sh.loc != Some(t) && t != LOOP && (owned || (t == SERVE && !sh.hist.quiesced))
    ensures ClearOwes(sh, t, ClearStep(sh, t, ClearLock, owned, choice))
  {
    hide Conserved;
    hide LabelAgrees;
    hide Guarantee;
    var l := sh.location;
    if sh.loc.None? {
      if l.driver.Some? {
        IssueStopKeeps(l);
        LocationWrite(sh, t, Some(t), IssueStop(l));
      } else {
        LocationWrite(sh, t, Some(t), l);
      }
    }
  }

  lemma ClearLookupOwes(sh: Shared, t: Tid, c: ClearPc, owned: bool, choice: Choice)
    requires SharedInv(sh) && ClearLocal(sh, c) && sh.loc == Some(t) && (c.ClearRead? || c.ClearOpen?)
    requires t != LOOP && (owned || (t == SERVE && !sh.hist.quiesced))
    ensures ClearOwes(sh, t, ClearStep(sh, t, c, owned, choice))
  {
    hide SharedInv;
    hide Guarantee;
    hide Usable;
    FailOwes(sh, t, Refused, CannotReach);
    NothingDone(sh, t);
    if sh.fields.session.Some? { HeldIsUsable(sh); }
    QuiescedIsCancelled(sh);
  }

  lemma QuiescedIsCancelled(sh: Shared)
    requires SharedInv(sh)
    ensures sh.hist.quiesced ==> sh.cancelled
  {
  }

  lemma ClearOpeningOwes(sh: Shared, t: Tid, sid: Sid, owned: bool, choice: Choice)
    requires SharedInv(sh) && ClearLocal(sh, ClearOpening(sid)) && sh.loc == Some(t) && t != LOOP
    ensures ClearOwes(sh, t, ClearStep(sh, t, ClearOpening(sid), owned, choice))
  {
    hide Conserved;
    hide LabelAgrees;
    hide Guarantee;
    hide LocConsistent;
    hide LocAtRest;
    var l := sh.location;
    if choice.Ok? {
      OpenedKeeps(l, sid);
      IssueStopKeeps(Opened(l, sid));
      LocationWrite(sh, t, Some(t), IssueStop(Opened(l, sid)));
    } else {
      FailOwes(sh, t, Refused, CannotReach);
    }
  }

  lemma ClearAwaitOwes(sh: Shared, t: Tid, owned: bool, choice: Choice)
    requires SharedInv(sh) && ClearLocal(sh, ClearAwait) && sh.loc == Some(t) && t != LOOP
    ensures ClearOwes(sh, t, ClearStep(sh, t, ClearAwait, owned, choice))
  {
    hide Conserved;
    hide LabelAgrees;
    hide Guarantee;
    if choice.Ok? {
      ConfirmStopKeeps(sh.location);
      LocationWrite(sh, t, None, ConfirmStop(sh.location));
    } else {
      FailOwes(sh, t, OutcomeOf(choice), ClearUnconfirmed);
    }
  }

  lemma ClearStepOwes(sh: Shared, t: Tid, c: ClearPc, owned: bool, choice: Choice)
    requires SharedInv(sh) && ClearLocal(sh, c) && (sh.loc == Some(t) <==> !c.ClearLock?)
    requires t != LOOP
    requires owned || (t == SERVE && !sh.hist.quiesced)
    ensures ClearOwes(sh, t, ClearStep(sh, t, c, owned, choice))
  {
    hide ClearOwes;
    hide SharedInv;
    hide ClearLocal;
    match c
    case ClearLock => ClearBeginOwes(sh, t, owned, choice);
    case ClearOpening(sid) => ClearOpeningOwes(sh, t, sid, owned, choice);
    case ClearAwait => ClearAwaitOwes(sh, t, owned, choice);
    case _ => ClearLookupOwes(sh, t, c, owned, choice);
  }

  lemma ServeClearOwes(sh: Shared, c: ClearPc, choice: Choice)
    requires SharedInv(sh) && ThreadInv(sh, SERVE, Serve(ServeClear(c)))
    ensures Owes(sh, SERVE, ServeStep(sh, ServeClear(c), choice))
  {
    ClearStepOwes(sh, SERVE, c, false, choice);
    var out := ClearStep(sh, SERVE, c, false, choice);
    if out.ClearEnd? { QuiesceOwes(sh, out.sh, out.acked); }
  }

  /** Serve's clear has returned: from here on the daemon counts as quiesced. */
  lemma QuiesceOwes(a: Shared, b: Shared, acked: bool)
    requires ClearOwes(a, SERVE, ClearEnd(b, acked)) && b.cancelled && !b.hist.quiesced
    requires RoleOk(SERVE, Serve(TearLock)) && b.op != Some(SERVE) && !b.hist.tearing && !b.hist.tornDown
    ensures var c := b.(hist := b.hist.(quiesced := true, clearAcked := acked));
            Owes(a, SERVE, Next(c, Serve(TearLock)))
  {
  }

  lemma TeardownOwes(sh: Shared, v: ServePc, choice: Choice)
    requires SharedInv(sh) && ThreadInv(sh, SERVE, Serve(v))
    requires v.TearLock? || v.TearRead? || v.TearClose? || v.TearDrop? || v.TearUnlock?
    ensures Owes(sh, SERVE, ServeStep(sh, v, choice))
  {
    hide LocConsistent;
    hide LocAtRest;
    if v.TearClose? { UptoSnoc(ClosedCount(sh)); }
  }

  lemma SnapOwes(sh: Shared, choice: Choice)
    requires SharedInv(sh) && ThreadInv(sh, SERVE, Serve(SnapLock))
    ensures Owes(sh, SERVE, ServeStep(sh, SnapLock, choice))
  {
    hide LocConsistent;
  }

  lemma ServeOwes(sh: Shared, v: ServePc, choice: Choice)
    requires SharedInv(sh) && ThreadInv(sh, SERVE, Serve(v)) && !v.ServeClear?
    requires !(v.TearLock? || v.TearRead? || v.TearClose? || v.TearDrop? || v.TearUnlock?)
    ensures Owes(sh, SERVE, ServeStep(sh, v, choice))
  {
    if v.SnapLock? {
      SnapOwes(sh, choice);
    } else {
      hide LocConsistent;
      hide LocAtRest;
    }
  }

  lemma TickOwes(sh: Shared, choice: Choice)
    requires SharedInv(sh) && ThreadInv(sh, PULSE, Pulse(PulseLock))
    ensures Owes(sh, PULSE, PulseStep(sh, PulseLock, choice))
  {
    hide Conserved;
    hide LabelAgrees;
    hide Guarantee;
    NothingDone(sh, PULSE);
    var l := sh.location;
    if l.phase.Live? && sh.loc.None? {
      IssuePulseKeeps(l);
      LocationWrite(sh, PULSE, Some(PULSE), IssuePulse(l));
    }
  }

  lemma PulseAwaitOwes(sh: Shared, choice: Choice)
    requires SharedInv(sh) && ThreadInv(sh, PULSE, Pulse(PulseAwait))
    ensures Owes(sh, PULSE, PulseStep(sh, PulseAwait, choice))
  {
    hide Conserved;
    hide LabelAgrees;
    hide Guarantee;
    var l := sh.location;
    FailKeeps(l, OutcomeOf(choice), RefreshLost);
    LocationWrite(sh, PULSE, None, if choice.Ok? then l else FailCall(l, OutcomeOf(choice), RefreshLost));
  }

  lemma PulseOwes(sh: Shared, p: PulsePc, choice: Choice)
    requires SharedInv(sh) && ThreadInv(sh, PULSE, Pulse(p))
    ensures Owes(sh, PULSE, PulseStep(sh, p, choice))
  {
    match p
    case PulseLock => TickOwes(sh, choice);
    case PulseAwait => PulseAwaitOwes(sh, choice);
    case _ =>
      hide SharedInv;
      hide Guarantee;
      NothingDone(sh, PULSE);
  }

  lemma SetOpeningOwes(sh: Shared, t: Tid, at: Coord, sid: Sid, choice: Choice)
    requires SharedInv(sh) && ThreadInv(sh, t, Http(Setting(at, SetOpening(sid))))
    ensures Owes(sh, t, SetStep(sh, t, at, SetOpening(sid), choice))
  {
    hide Conserved;
    hide LabelAgrees;
    hide Guarantee;
    hide LocConsistent;
    hide LocAtRest;
    var l := sh.location;
    if choice.Ok? {
      OpenedKeeps(l, sid);
      IssueSetKeeps(Opened(l, sid), at);
      LocationWrite(sh, t, Some(t), IssueSet(Opened(l, sid), at));
    } else {
      FailOwes(sh, t, Refused, CannotOpen);
    }
  }

  lemma SetBeginOwes(sh: Shared, t: Tid, at: Coord, choice: Choice)
    requires SharedInv(sh) && ThreadInv(sh, t, Http(Setting(at, SetLock)))
    ensures Owes(sh, t, SetStep(sh, t, at, SetLock, choice))
  {
    hide Conserved;
    hide LabelAgrees;
    hide Guarantee;
    NothingDone(sh, t);
    var l := sh.location;
    if sh.loc.None? && ValidLocation(at) {
      if l.driver.Some? {
        IssueSetKeeps(l, at);
        LocationWrite(sh, t, Some(t), IssueSet(l, at));
      } else {
        LocationWrite(sh, t, Some(t), l);
      }
    }
  }

  lemma SetLookupOwes(sh: Shared, t: Tid, at: Coord, s: SetPc, choice: Choice)
    requires SharedInv(sh) && ThreadInv(sh, t, Http(Setting(at, s))) && (s.SetRead? || s.SetOpen?)
    ensures Owes(sh, t, SetStep(sh, t, at, s, choice))
  {
    hide SharedInv;
    hide Guarantee;
    hide Usable;
    FailOwes(sh, t, Refused, CannotOpen);
    NothingDone(sh, t);
    if sh.fields.session.Some? { HeldIsUsable(sh); }
    QuiescedIsCancelled(sh);
  }

  /** The acknowledgements are history that no thread relies on. */
  lemma AckOwes(a: Shared, b: Shared, t: Tid, at: Coord)
    requires SharedInv(b) && Guarantee(a, b, t)
    ensures var c := b.(hist := b.hist.(setAcks := b.hist.setAcks[t := at]));
            SharedInv(c) && Guarantee(a, c, t)
  {
    hide LocConsistent;
    hide LocAtRest;
  }

  lemma SetAwaitOwes(sh: Shared, t: Tid, at: Coord, choice: Choice)
    requires SharedInv(sh) && ThreadInv(sh, t, Http(Setting(at, SetAwait)))
    ensures Owes(sh, t, SetStep(sh, t, at, SetAwait, choice))
  {
    hide Conserved;
    hide LabelAgrees;
    hide Guarantee;
    var l := sh.location;
    if choice.Ok? {
      LocationWrite(sh, t, None, ConfirmSet(l, at));
      AckOwes(sh, sh.(loc := None, location := ConfirmSet(l, at)), t, at);
    } else {
      FailOwes(sh, t, OutcomeOf(choice), SetUnconfirmed);
    }
  }

  lemma SetOwes(sh: Shared, t: Tid, at: Coord, s: SetPc, choice: Choice)
    requires SharedInv(sh) && ThreadInv(sh, t, Http(Setting(at, s)))
    ensures Owes(sh, t, SetStep(sh, t, at, s, choice))
  {
    match s
    case SetLock => SetBeginOwes(sh, t, at, choice);
    case SetOpening(sid) => SetOpeningOwes(sh, t, at, sid, choice);
    case SetAwait => SetAwaitOwes(sh, t, at, choice);
    case _ => SetLookupOwes(sh, t, at, s, choice);
  }

  lemma RequestOwes(sh: Shared, t: Tid, h: HttpPc, choice: Choice)
    requires SharedInv(sh) && ThreadInv(sh, t, Http(h)) && !h.Setting? && !h.Clearing?
    ensures Owes(sh, t, HttpStep(sh, t, h, choice))
  {
    hide LocConsistent;
    hide LocAtRest;
    hide LabelAgrees;
  }

  lemma HttpClearOwes(sh: Shared, t: Tid, c: ClearPc, choice: Choice)
    requires SharedInv(sh) && ThreadInv(sh, t, Http(Clearing(c)))
    ensures Owes(sh, t, HttpStep(sh, t, Clearing(c), choice))
  {
    hide SharedInv;
    hide Guarantee;
    hide ClearLocal;
    ClearStepOwes(sh, t, c, true, choice);
  }

  lemma HttpOwes(sh: Shared, t: Tid, h: HttpPc, choice: Choice)
    requires SharedInv(sh) && ThreadInv(sh, t, Http(h))
    ensures Owes(sh, t, HttpStep(sh, t, h, choice))
  {
    if h.Setting? {
      SetOwes(sh, t, h.at, h.s, choice);
    } else if h.Clearing? {
      HttpClearOwes(sh, t, h.c, choice);
    } else {
      RequestOwes(sh, t, h, choice);
    }
  }

  lemma LifecycleOwes(sh: Shared, t: Tid, kind: Kind, o: LifecyclePc, choice: Choice)
    requires SharedInv(sh) && ThreadInv(sh, t, Lifecycle(kind, o))
    ensures Owes(sh, t, LifecycleStep(sh, t, kind, o, choice))
  {
    hide LocConsistent;
    hide LocAtRest;
  }

  lemma ShotOwes(sh: Shared, t: Tid, x: ShotPc, choice: Choice)
    requires SharedInv(sh) && ThreadInv(sh, t, Shot(x))
    ensures Owes(sh, t, ShotStep(sh, t, x, choice))
  {
    hide LocConsistent;
    hide LocAtRest;
  }

  lemma TestsOwes(sh: Shared, t: Tid, y: TestsPc, choice: Choice)
    requires SharedInv(sh) && ThreadInv(sh, t, Tests(y))
    ensures Owes(sh, t, TestsStep(sh, t, y, choice))
  {
    hide LocConsistent;
    hide LocAtRest;
  }

  lemma StepOwes(sh: Shared, t: Tid, pc: Pc, choice: Choice)
    requires SharedInv(sh) && ThreadInv(sh, t, pc)
    ensures Owes(sh, t, ThreadStep(sh, t, pc, choice))
  {
    match pc
    case Loop(l) => LoopOwes(sh, l, choice);
    case Serve(v) =>
      if v.ServeClear? {
        ServeClearOwes(sh, v.c, choice);
      } else if v.TearLock? || v.TearRead? || v.TearClose? || v.TearDrop? || v.TearUnlock? {
        TeardownOwes(sh, v, choice);
      } else {
        ServeOwes(sh, v, choice);
      }
    case Pulse(p) => PulseOwes(sh, p, choice);
    case Http(h) => HttpOwes(sh, t, h, choice);
    case Lifecycle(kind, o) => LifecycleOwes(sh, t, kind, o, choice);
    case Shot(x) => ShotOwes(sh, t, x, choice);
    case Tests(y) => TestsOwes(sh, t, y, choice);
  }

  lemma InvInitially()
    ensures Inv(INITIAL_STATE)
  {
  }

  /** A step that owes nothing leaves the whole state invariant. */
  lemma OwedStepKeepsInv(s: State, t: Tid, out: Out, mu: Option<Tid>)
    requires Inv(s) && t in s.pcs && out.Next? && Owes(s.sh, t, out)
    requires mu.None? || (mu == s.mu && mu != Some(t))
    ensures Inv(State(out.sh, mu, s.pcs[t := out.pc]))
  {
    forall u | u in s.pcs && u != t ensures ThreadInv(out.sh, u, s.pcs[u]) {
      Stable(s.sh, out.sh, t, u, s.pcs[u]);
    }
  }

  lemma CancelKeepsInv(s: State)
    requires Inv(s)
    ensures Inv(s.(sh := s.sh.(cancelled := true)))
  {
    forall u | u in s.pcs ensures ThreadInv(s.sh.(cancelled := true), u, s.pcs[u]) {
      assert ThreadInv(s.sh, u, s.pcs[u]);
    }
  }

  lemma SpawnKeepsInv(s: State, t: Tid, pc: Pc)
    requires Inv(s) && MaySpawn(s, t, pc)
    ensures Inv(s.(pcs := s.pcs[t := pc]))
  {
  }

  lemma InvPreserved(s: State, a: Action)
    requires Inv(s) && Apply(s, a).Some?
    ensures Inv(Apply(s, a).value)
  {
    match a
    case Acquire(t) =>
    case Spawn(t, pc) => SpawnKeepsInv(s, t, pc);
    case Cancel => CancelKeepsInv(s);
    case Step(t, choice) =>
      StepOwes(s.sh, t, s.pcs[t], choice);
      OwedStepKeepsInv(s, t, ThreadStep(s.sh, t, s.pcs[t], choice), if NeedsMu(s.pcs[t]) then None else s.mu);
  }

  lemma {:induction false} InvAlways(acts: seq<Action>)
    requires Run(acts).Some?
    ensures Inv(Run(acts).value)
  {
    if acts == [] {
      InvInitially();
    } else {
      InvAlways(acts[..|acts| - 1]);
      InvPreserved(Run(acts[..|acts| - 1]).value, acts[|acts| - 1]);
    }
  }
}
