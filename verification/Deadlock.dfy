/**
 Deadlock freedom: the locks are taken in the order operation lock, location mutex, field lock, so whoever
 waits for a lock waits for a chain of owners that ends in a thread that can step.
 */
module Deadlock {
  import opened Common
  import opened DaemonFields
  import opened LocationModel
  import opened Machine
  import opened Invariant

  predicate Finished(pc: Pc) {
    match pc
    case Loop(l) => l.LoopReturned? || l.LoopPanicked?
    case Serve(v) => v.ServeReturned? || v.ServeFailed?
    case Pulse(p) => p.PulseReturned? || p.PulsePanicked?
    case Http(h) => h.Responded?
    case Lifecycle(_, o) => o.OpReturned?
    case Shot(x) => x.ShotReturned?
    case Tests(y) => y.TestsReturned?
  }

  /** The thread's next step takes the operation lock and waits for it. */
  predicate TakesOp(pc: Pc) {
    match pc
    case Loop(l) => l.EstLock? || l.LoseLock?
    case Serve(v) => v.TearLock?
    case Lifecycle(_, o) => o.OpLock?
    case _ => false
  }

  /** The thread's next step takes the location mutex. */
  predicate TakesLoc(pc: Pc) {
    match pc
    case Loop(l) => l.LoseLocation?
    case Serve(v) => v.SnapLock? || v == ServeClear(ClearLock)
    case Pulse(p) => p.PulseLock?
    case Http(h) => (h.Setting? && h.s.SetLock? && ValidLocation(h.at)) || h == Clearing(ClearLock) || h.StateLock?
    case _ => false
  }

  predicate WaitsForLock(s: State, t: Tid)
    requires t in s.pcs
  {
    || (NeedsMu(s.pcs[t]) && s.mu.Some? && s.mu != Some(t))
    || (TakesOp(s.pcs[t]) && s.sh.op.Some?)
    || (TakesLoc(s.pcs[t]) && s.sh.loc.Some?)
  }

  predicate HoldsLock(s: State, t: Tid) {
    s.mu == Some(t) || s.sh.loc == Some(t) || s.sh.op == Some(t)
  }

  predicate CanStep(s: State, t: Tid) {
    Apply(s, Acquire(t)).Some? || Apply(s, Step(t, Ok)).Some? || Apply(s, Step(t, Err(""))).Some?
  }

  /** A thread that has finished never steps again. */
  lemma FinishedNeverSteps(sh: Shared, t: Tid, pc: Pc, choice: Choice)
    requires Finished(pc)
    ensures ThreadStep(sh, t, pc, choice).Blocked?
  {
  }

  /** A thread that waits for a lock cannot step until the lock is given back. */
  lemma WaitersCannotStep(s: State, t: Tid, choice: Choice)
    requires t in s.pcs && WaitsForLock(s, t)
    ensures Apply(s, Step(t, choice)).None?
    ensures s.mu.Some? || !NeedsMu(s.pcs[t])
  {
    LockOrder(s.pcs[t]);
  }

  /** A thread that neither has finished nor waits for a lock can take its next step. */
  lemma UnblockedCanStep(sh: Shared, t: Tid, pc: Pc)
    requires ThreadInv(sh, t, pc) && LocConsistent(sh.location)
    requires !Finished(pc) && pc != Serve(Accept)
    requires !(TakesOp(pc) && sh.op.Some?) && !(TakesLoc(pc) && sh.loc.Some?)
    ensures ThreadStep(sh, t, pc, Ok).Next? || ThreadStep(sh, t, pc, Err("")).Next?
  {
  }

  lemma CanStepOrWaits(s: State, t: Tid)
    requires Inv(s) && t in s.pcs && !Finished(s.pcs[t]) && s.pcs[t] != Serve(Accept)
    ensures CanStep(s, t) || WaitsForLock(s, t)
  {
    hide ThreadStep;
    if !WaitsForLock(s, t) {
      assert ThreadInv(s.sh, t, s.pcs[t]);
      UnblockedCanStep(s.sh, t, s.pcs[t]);
    }
  }

  /** The rank of the locks, read off the program counters. */
  lemma LockOrder(pc: Pc)
    ensures TakesOp(pc) ==> !HoldsOp(pc) && !HoldsLoc(pc) && !NeedsMu(pc)
    ensures TakesLoc(pc) ==> !HoldsLoc(pc) && !NeedsMu(pc)
    ensures HoldsOp(pc) || HoldsLoc(pc) ==> !Finished(pc) || pc == Pulse(PulsePanicked)
  {
  }

  lemma MuOwnerSteps(s: State, t: Tid)
    requires Inv(s) && s.mu == Some(t)
    ensures CanStep(s, t)
  {
    hide ThreadStep;
    assert ThreadInv(s.sh, t, s.pcs[t]);
    LockOrder(s.pcs[t]);
    UnblockedCanStep(s.sh, t, s.pcs[t]);
  }

  lemma LocOwnerSteps(s: State, t: Tid)
    requires Inv(s) && s.sh.loc == Some(t)
    ensures CanStep(s, t) || (s.mu.Some? && CanStep(s, s.mu.value))
  {
    assert ThreadInv(s.sh, t, s.pcs[t]);
    LockOrder(s.pcs[t]);
    CanStepOrWaits(s, t);
    if s.mu.Some? { MuOwnerSteps(s, s.mu.value); }
  }

  lemma OpOwnerSteps(s: State, t: Tid)
    requires Inv(s) && s.sh.op == Some(t)
    ensures exists u :: HoldsLock(s, u) && CanStep(s, u)
  {
    assert ThreadInv(s.sh, t, s.pcs[t]);
    LockOrder(s.pcs[t]);
    CanStepOrWaits(s, t);
    if CanStep(s, t) {
      assert HoldsLock(s, t);
    } else if s.mu.Some? {
      MuOwnerSteps(s, s.mu.value);
      assert HoldsLock(s, s.mu.value);
    } else {
      LocOwnerSteps(s, s.sh.loc.value);
      assert HoldsLock(s, s.sh.loc.value);
    }
  }

  /** In every reachable state: a thread that waits for a lock waits while some owner of a lock can step. */
  lemma DeadlockFreedom(acts: seq<Action>, t: Tid)
    requires Run(acts).Some? && t in Run(acts).value.pcs && WaitsForLock(Run(acts).value, t)
    ensures exists u :: HoldsLock(Run(acts).value, u) && CanStep(Run(acts).value, u)
  {
    InvAlways(acts);
    var s := Run(acts).value;
    if s.mu.Some? {
      MuOwnerSteps(s, s.mu.value);
      assert HoldsLock(s, s.mu.value);
    } else if s.sh.op.Some? && TakesOp(s.pcs[t]) {
      OpOwnerSteps(s, s.sh.op.value);
    } else {
      LocOwnerSteps(s, s.sh.loc.value);
      assert HoldsLock(s, s.sh.loc.value);
    }
  }

  /** And one that waits for none can step, unless it has finished or Serve waits for a connection. */
  lemma OthersCanStep(acts: seq<Action>, t: Tid)
    requires Run(acts).Some? && t in Run(acts).value.pcs && !WaitsForLock(Run(acts).value, t)
    requires !Finished(Run(acts).value.pcs[t]) && Run(acts).value.pcs[t] != Serve(Accept)
    ensures CanStep(Run(acts).value, t)
  {
    InvAlways(acts);
    CanStepOrWaits(Run(acts).value, t);
  }

  // ----- A lock that is held is given back

  /** How many more of its own steps a thread needs, at most, to give back its operation lock. */
  function OpBudget(pc: Pc): (n: nat)
    ensures n <= 6
  {
    match pc
    case Loop(l) =>
      (match l
       case EstRead => 6
       case EstCheck => 5
       case EstLabel => 4
       case EstOpen => 3
       case EstFailed(_) => 2
       case EstCommit(_) => 2
       case EstUnlock => 1
       case LoseClear(_) => 4
       case LoseLocation(_) => 3
       case LoseClose(_) => 2
       case LoseUnlock => 1
       case _ => 0)
    case Serve(v) =>
      (match v
       case TearRead => 4
       case TearClose(_) => 3
       case TearDrop(_) => 2
       case TearUnlock => 1
       case _ => 0)
    case Lifecycle(_, o) =>
      (match o
       case OpRead => 5
       case OpLabel(_) => 4
       case OpCall(_) => 3
       case OpFailed => 2
       case OpDone => 2
       case OpUnlock => 1
       case _ => 0)
    case Shot(x) =>
      (match x
       case ShotRead => 4
       case ShotCall(_) => 3
       case ShotReport(_) => 2
       case ShotUnlock => 1
       case _ => 0)
    case Tests(y) =>
      (match y
       case TestsRead => 6
       case TestsPrepare(_) => 5
       case TestsGeneration(_) => 4
       case TestsCall(_, _) => 3
       case TestsReport(_, _) => 2
       case TestsUnlock => 1
       case _ => 0)
    case _ => 0
  }

  function ClearBudget(c: ClearPc): nat {
    match c
    case ClearLock => 0
    case ClearRead => 4
    case ClearOpen(_) => 3
    case ClearOpening(_) => 2
    case ClearAwait => 1
  }

  /** The same for the location mutex. */
  function LocBudget(pc: Pc): (n: nat)
    ensures n <= 4
  {
    match pc
    case Serve(ServeClear(c)) => ClearBudget(c)
    case Http(Clearing(c)) => ClearBudget(c)
    case Http(Setting(_, s)) =>
      (match s
       case SetLock => 0
       case SetRead => 4
       case SetOpen(_) => 3
       case SetOpening(_) => 2
       case SetAwait => 1)
    case Pulse(PulseAwait) => 1
    case _ => 0
  }

  lemma OpIsReleased(sh: Shared, t: Tid, pc: Pc, choice: Choice)
    requires ThreadInv(sh, t, pc) && HoldsOp(pc)
    ensures var out := ThreadStep(sh, t, pc, choice);
            out.Next? ==> OpBudget(out.pc) < OpBudget(pc) && (!HoldsOp(out.pc) ==> out.sh.op.None?)
  {
    hide PulseStep;
    hide HttpStep;
    hide Local;
  }

  lemma LocIsReleased(sh: Shared, t: Tid, pc: Pc, choice: Choice)
    requires ThreadInv(sh, t, pc) && HoldsLoc(pc)
    ensures var out := ThreadStep(sh, t, pc, choice);
            out.Next? ==> LocBudget(out.pc) < LocBudget(pc) && (!HoldsLoc(out.pc) ==> out.sh.loc.None?)
  {
    hide LoopStep;
    hide LifecycleStep;
    hide ShotStep;
    hide TestsStep;
    hide Local;
  }

  /** Each step of a lock's owner brings the release nearer; no owner goes round a loop with a lock held. */
  lemma LocksAreReleased(acts: seq<Action>, t: Tid, choice: Choice)
    requires Run(acts).Some? && t in Run(acts).value.pcs
    ensures var s := Run(acts).value;
            var out := ThreadStep(s.sh, t, s.pcs[t], choice);
            && (s.sh.op == Some(t) && out.Next? ==>
                  OpBudget(out.pc) < OpBudget(s.pcs[t]) && (HoldsOp(out.pc) || out.sh.op.None?))
            && (s.sh.loc == Some(t) && out.Next? ==>
                  LocBudget(out.pc) < LocBudget(s.pcs[t]) && (HoldsLoc(out.pc) || out.sh.loc.None?))
  {
    InvAlways(acts);
    var s := Run(acts).value;
    assert ThreadInv(s.sh, t, s.pcs[t]);
    if HoldsOp(s.pcs[t]) { OpIsReleased(s.sh, t, s.pcs[t], choice); }
    if HoldsLoc(s.pcs[t]) { LocIsReleased(s.sh, t, s.pcs[t], choice); }
  }

  // ----- What may happen at all

  /** Phone requests may arrive at any time, socket requests while Serve accepts, each under a new thread. */
  lemma RequestsMayArrive(s: State, t: Tid, request: HttpRequest, kind: Kind)
    requires t !in s.pcs && t >= 3
    ensures Apply(s, Spawn(t, Http(OwnerCheck(request)))) == Some(s.(pcs := s.pcs[t := Http(OwnerCheck(request))]))
    ensures SERVE in s.pcs && s.pcs[SERVE] == Serve(Accept) ==>
              var first := if kind.Install? then Validate else OpLock;
              && Apply(s, Spawn(t, Lifecycle(kind, first))) == Some(s.(pcs := s.pcs[t := Lifecycle(kind, first)]))
              && Apply(s, Spawn(t, Shot(ShotTry))) == Some(s.(pcs := s.pcs[t := Shot(ShotTry)]))
              && Apply(s, Spawn(t, Tests(TestsTry))) == Some(s.(pcs := s.pcs[t := Tests(TestsTry)]))
  {
  }

  /** The context may end at any time, and a thread take a free field lock it needs, and step when it has it. */
  lemma ThreadsMayMove(s: State, t: Tid, choice: Choice)
    ensures Apply(s, Cancel) == Some(s.(sh := s.sh.(cancelled := true)))
    ensures t in s.pcs && NeedsMu(s.pcs[t]) && s.mu.None? ==> Apply(s, Acquire(t)) == Some(s.(mu := Some(t)))
    ensures t in s.pcs && (NeedsMu(s.pcs[t]) ==> s.mu == Some(t)) && ThreadStep(s.sh, t, s.pcs[t], choice).Next? ==>
              var out := ThreadStep(s.sh, t, s.pcs[t], choice);
              var mu := if NeedsMu(s.pcs[t]) then None else s.mu;
              Apply(s, Step(t, choice)) == Some(State(out.sh, mu, s.pcs[t := out.pc]))
  {
    hide ThreadStep;
  }
}
