/**
 What the daemon's label, error code and counters mean, in every run: the label says what is under way, the
 code says what went wrong last, and the counters count the device's successes.
 */
module Labels {
  import opened DaemonFields
  import opened Common
  import opened LocationModel
  import opened Machine
  import opened Invariant
  import opened Progress

  // ----- Histories read off a run

  /** What went wrong last: an acquisition that failed, or a session that was lost. */
  function Trouble(acts: seq<Action>): string
    requires Run(acts).Some?
  {
    if acts == [] then ""
    else
      var front, a := acts[..|acts| - 1], acts[|acts| - 1];
      TroubleAfter(Run(front).value, a, Trouble(front))
  }

  function TroubleAfter(s: State, a: Action, trouble: string): string {
    if !a.Step? || a.t != LOOP || LOOP !in s.pcs then trouble
    else if s.pcs[LOOP] == Loop(EstOpen) && a.choice.Err? then a.choice.code
    else if s.pcs[LOOP].Loop? && s.pcs[LOOP].l.LoseClear? && Holds(s.sh.fields, s.pcs[LOOP].l.gen) then "session_lost"
    else trouble
  }

  predicate Holds(f: Fields, gen: nat) {
    f.session.Some? && f.generation == gen
  }

  /** How often the device has reported success to an operation of this kind. */
  function Successes(acts: seq<Action>, kind: Kind): nat
    requires Run(acts).Some?
  {
    if acts == [] then 0
    else
      var front, a := acts[..|acts| - 1], acts[|acts| - 1];
      Successes(front, kind) + if IsSuccess(Run(front).value, a, kind) then 1 else 0
  }

  predicate IsSuccess(s: State, a: Action, kind: Kind) {
    a.Step? && a.choice.Ok? && a.t in s.pcs && s.pcs[a.t].Lifecycle? && s.pcs[a.t].kind == kind && s.pcs[a.t].o.OpCall?
  }

  // ----- What the fields show

  /** The operation that is at the device, or back from it and not yet done with the fields. */
  function Busy(s: State): Option<Pc> {
    if s.sh.op.Some? && s.sh.op.value in s.pcs && s.pcs[s.sh.op.value].Lifecycle?
       && (s.pcs[s.sh.op.value].o.OpCall? || s.pcs[s.sh.op.value].o.OpFailed? || s.pcs[s.sh.op.value].o.OpDone?)
    then Some(s.pcs[s.sh.op.value])
    else None
  }

  predicate IsBusy(busy: Option<Pc>, kind: Kind) {
    busy.Some? && busy.value.Lifecycle? && busy.value.kind == kind
  }

  predicate IsAcquiring(pc: Pc) {
    pc.Loop? && (pc.l.EstOpen? || pc.l.EstFailed? || pc.l.EstCommit?)
  }

  /** Until the context ends: each label and each code, and what the loop's places say about them. */
  predicate Shows(f: Fields, loop: Pc, busy: Option<Pc>, trouble: string) {
    && !f.state.Stopping?
    && (f.state.Connecting? <==> IsAcquiring(loop))
    && (f.state.Installing? <==> IsBusy(busy, Install))
    && (f.state.Uninstalling? <==> IsBusy(busy, Uninstall))
    && (f.state.Active? || f.state.Connecting? || f.state.Installing? || f.state.Uninstalling? ==>
          f.lastErrorCode == "")
    && (f.state.Recovering? ==> f.lastErrorCode == "service_unresponsive")
    && (f.state.SessionLost? ==> f.lastErrorCode == "session_lost")
    && (f.state.Waiting? || f.state.SessionLost? ==> f.lastErrorCode == trouble)
    && match loop
       case Loop(SetWaiting(code)) => code == trouble
       case Loop(EstLock) => f.session.None?
       case Loop(EstFailed(code)) => code == trouble
       case _ => true
  }

  /** An operation whose success is not counted yet. */
  function Pending(busy: Option<Pc>, kind: Kind): nat {
    if IsBusy(busy, kind) && busy.value.o.OpDone? then 1 else 0
  }

  predicate LabelsInv(s: State, trouble: string, installs: nat, uninstalls: nat) {
    && LOOP in s.pcs
    && (!s.sh.cancelled ==> Shows(s.sh.fields, s.pcs[LOOP], Busy(s), trouble))
    && s.sh.fields.installCount + Pending(Busy(s), Install) == installs
    && s.sh.fields.uninstallCount + Pending(Busy(s), Uninstall) == uninstalls
  }

  // ----- One step

  /** What a step of a thread that is no operation leaves of the fields. */
  predicate KeepsCounts(f: Fields, g: Fields) {
    g.installCount == f.installCount && g.uninstallCount == f.uninstallCount
  }

  lemma LoopShows(sh: Shared, l: LoopPc, choice: Choice, busy: Option<Pc>, trouble: string)
    requires SharedInv(sh) && ThreadInv(sh, LOOP, Loop(l)) && !sh.cancelled
    requires Shows(sh.fields, Loop(l), busy, trouble)
    requires HoldsOp(Loop(l)) || sh.fields.session.None? ==> busy.None?
    ensures var out := LoopStep(sh, l, choice);
            var after := if l.EstOpen? && choice.Err? then choice.code
                         else if l.LoseClear? && Holds(sh.fields, l.gen) then "session_lost" else trouble;
            out.Next? && (HoldsOp(out.pc) ==> busy.None?) ==> Shows(out.sh.fields, out.pc, busy, after)
  {
    hide LocConsistent;
    hide LocAtRest;
  }

  lemma LoopKeepsCounts(sh: Shared, l: LoopPc, choice: Choice)
    ensures LoopStep(sh, l, choice).Next? ==> KeepsCounts(sh.fields, LoopStep(sh, l, choice).sh.fields)
  {
  }

  lemma OperationShows(sh: Shared, t: Tid, kind: Kind, o: LifecyclePc, choice: Choice, loop: Pc, busy: Option<Pc>,
                       trouble: string)
    requires SharedInv(sh) && ThreadInv(sh, t, Lifecycle(kind, o)) && ThreadInv(sh, LOOP, loop) && !sh.cancelled
    requires Shows(sh.fields, loop, busy, trouble)
    requires busy == if o.OpCall? || o.OpFailed? || o.OpDone? then Some(Lifecycle(kind, o)) else None
    requires sh.op == Some(t)
    ensures var out := LifecycleStep(sh, t, kind, o, choice);
            out.Next? ==>
              Shows(out.sh.fields, loop,
                    if out.pc.o.OpCall? || out.pc.o.OpFailed? || out.pc.o.OpDone? then Some(out.pc) else None, trouble)
  {
    hide LocConsistent;
    hide LocAtRest;
  }

  /** A thread outside the operation lock, or on its way in, leaves the fields alone. */
  lemma IdleOperationLeaves(sh: Shared, t: Tid, kind: Kind, o: LifecyclePc, choice: Choice)
    requires !HoldsOp(Lifecycle(kind, o))
    ensures var out := LifecycleStep(sh, t, kind, o, choice);
            out.Next? ==>
              && out.sh.fields == sh.fields
              && out.pc.Lifecycle?
              && !out.pc.o.OpCall? && !out.pc.o.OpFailed? && !out.pc.o.OpDone?
              && (out.sh.op == sh.op || (sh.op.None? && out.sh.op == Some(t)))
  {
  }

  /** Every other thread leaves them alone until the context ends, and never counts. */
  lemma OthersLeave(sh: Shared, t: Tid, pc: Pc, choice: Choice)
    requires ThreadInv(sh, t, pc) && !pc.Loop? && !pc.Lifecycle?
    ensures var out := ThreadStep(sh, t, pc, choice);
            out.Next? ==>
              && (!out.sh.cancelled ==> out.sh.fields == sh.fields)
              && KeepsCounts(sh.fields, out.sh.fields)
              && !out.pc.Loop? && !out.pc.Lifecycle?
  {
    hide LoopStep;
    hide LifecycleStep;
    hide Closed;
    match pc
    case Serve(v) => ServeLeaves(sh, v, choice);
    case Http(h) => HttpLeaves(sh, t, h, choice);
    case _ =>
  }

  lemma ServeLeaves(sh: Shared, v: ServePc, choice: Choice)
    requires ThreadInv(sh, SERVE, Serve(v))
    ensures var out := ServeStep(sh, v, choice);
            out.Next? ==>
              && (!out.sh.cancelled ==> out.sh.fields == sh.fields)
              && KeepsCounts(sh.fields, out.sh.fields)
              && out.pc.Serve?
  {
  }

  lemma HttpLeaves(sh: Shared, t: Tid, h: HttpPc, choice: Choice)
    ensures var out := HttpStep(sh, t, h, choice);
            out.Next? ==> out.sh.fields == sh.fields && out.pc.Http?
  {
  }

  /** Whoever holds the operation lock in a section that is busy holds a session. */
  lemma BusyHoldsSession(s: State)
    requires Inv(s)
    ensures Busy(s).Some? ==> s.sh.fields.session.Some? && s.pcs[LOOP].Loop? && !HoldsOp(s.pcs[LOOP])
  {
    assert ThreadInv(s.sh, LOOP, s.pcs[LOOP]);
    if Busy(s).Some? { assert ThreadInv(s.sh, s.sh.op.value, s.pcs[s.sh.op.value]); }
  }

  lemma LoopStepShows(s: State, b: State, choice: Choice, trouble: string, installs: nat, uninstalls: nat)
    requires Inv(s) && LabelsInv(s, trouble, installs, uninstalls)
    requires Apply(s, Step(LOOP, choice)) == Some(b)
    ensures LabelsInv(b, TroubleAfter(s, Step(LOOP, choice), trouble), installs, uninstalls)
  {
    hide Shows;
    hide LoopStep;
    hide SharedInv;
    var l := s.pcs[LOOP].l;
    assert ThreadInv(s.sh, LOOP, s.pcs[LOOP]);
    BusyHoldsSession(s);
    StepOwes(s.sh, LOOP, s.pcs[LOOP], choice);
    LoopKeepsCounts(s.sh, l, choice);
    assert Busy(b) == Busy(s);
    if !s.sh.cancelled { LoopShows(s.sh, l, choice, Busy(s), trouble); }
  }

  lemma OperationStepShows(s: State, b: State, t: Tid, choice: Choice, trouble: string, installs: nat, uninstalls: nat)
    requires Inv(s) && LabelsInv(s, trouble, installs, uninstalls)
    requires t in s.pcs && s.pcs[t].Lifecycle? && Apply(s, Step(t, choice)) == Some(b)
    ensures var a := Step(t, choice);
            LabelsInv(b, trouble, installs + (if IsSuccess(s, a, Install) then 1 else 0),
                      uninstalls + (if IsSuccess(s, a, Uninstall) then 1 else 0))
  {
    hide Shows;
    hide SharedInv;
    var o, kind := s.pcs[t].o, s.pcs[t].kind;
    assert ThreadInv(s.sh, LOOP, s.pcs[LOOP]) && ThreadInv(s.sh, t, s.pcs[t]);
    if HoldsOp(s.pcs[t]) {
      if !s.sh.cancelled { OperationShows(s.sh, t, kind, o, choice, s.pcs[LOOP], Busy(s), trouble); }
    } else {
      IdleOperationLeaves(s.sh, t, kind, o, choice);
      hide LifecycleStep;
      assert Busy(b) == Busy(s);
    }
  }

  lemma OtherStepShows(s: State, b: State, t: Tid, choice: Choice, trouble: string, installs: nat, uninstalls: nat)
    requires Inv(s) && LabelsInv(s, trouble, installs, uninstalls)
    requires t in s.pcs && !s.pcs[t].Loop? && !s.pcs[t].Lifecycle? && Apply(s, Step(t, choice)) == Some(b)
    ensures LabelsInv(b, trouble, installs, uninstalls)
  {
    hide Shows;
    hide SharedInv;
    hide ThreadStep;
    assert ThreadInv(s.sh, LOOP, s.pcs[LOOP]) && ThreadInv(s.sh, t, s.pcs[t]);
    OthersLeave(s.sh, t, s.pcs[t], choice);
    StepOwes(s.sh, t, s.pcs[t], choice);
    assert Busy(b) == Busy(s);
  }

  lemma ActionShows(s: State, b: State, a: Action, trouble: string, installs: nat, uninstalls: nat)
    requires Inv(s) && LabelsInv(s, trouble, installs, uninstalls) && Apply(s, a) == Some(b)
    ensures LabelsInv(b, TroubleAfter(s, a, trouble), installs + (if IsSuccess(s, a, Install) then 1 else 0),
                      uninstalls + (if IsSuccess(s, a, Uninstall) then 1 else 0))
  {
    hide Shows;
    hide SharedInv;
    if a.Step? {
      assert ThreadInv(s.sh, a.t, s.pcs[a.t]);
      if a.t == LOOP {
        LoopStepShows(s, b, a.choice, trouble, installs, uninstalls);
      } else if s.pcs[a.t].Lifecycle? {
        OperationStepShows(s, b, a.t, a.choice, trouble, installs, uninstalls);
      } else {
        OtherStepShows(s, b, a.t, a.choice, trouble, installs, uninstalls);
      }
    } else {
      assert Busy(b) == Busy(s);
    }
  }

  lemma {:induction false} LabelsAlways(acts: seq<Action>)
    requires Run(acts).Some?
    ensures LabelsInv(Run(acts).value, Trouble(acts), Successes(acts, Install), Successes(acts, Uninstall))
  {
    if acts != [] {
      hide LabelsInv;
      hide TroubleAfter;
      hide IsSuccess;
      hide Inv;
      hide Apply;
      var front := acts[..|acts| - 1];
      LabelsAlways(front);
      InvAlways(front);
      ActionShows(Run(front).value, Run(acts).value, acts[|acts| - 1], Trouble(front), Successes(front, Install),
                  Successes(front, Uninstall));
    }
  }

  // ----- What the fields mean, in every run

  /** The thread's operation is at the device, or back from it and not yet done with the fields. */
  predicate IsOperating(s: State, t: Tid, kind: Kind) {
    t in s.pcs && (s.pcs[t] == Lifecycle(kind, OpFailed) || s.pcs[t] == Lifecycle(kind, OpDone)
                   || (s.pcs[t].Lifecycle? && s.pcs[t].kind == kind && s.pcs[t].o.OpCall?))
  }

  lemma BusyIsOperating(s: State, kind: Kind)
    requires Inv(s)
    ensures IsBusy(Busy(s), kind) <==> exists t :: IsOperating(s, t, kind)
  {
    if t :| IsOperating(s, t, kind) {
      assert ThreadInv(s.sh, t, s.pcs[t]);
    }
    if IsBusy(Busy(s), kind) { assert IsOperating(s, s.sh.op.value, kind); }
  }

  /**
   Until the daemon's context ends: installing and uninstalling are shown exactly while such an operation is at
   the device, connecting exactly while the loop acquires a session, waiting and session_lost only without one.
   */
  lemma LabelSaysWhatIsUnderWay(acts: seq<Action>)
    requires Run(acts).Some? && !Run(acts).value.sh.cancelled
    ensures var s := Run(acts).value;
            var f := s.sh.fields;
            && (f.state == Installing <==> exists t :: IsOperating(s, t, Install))
            && (f.state == Uninstalling <==> exists t :: IsOperating(s, t, Uninstall))
            && LOOP in s.pcs
            && (f.state == Connecting <==>
                  s.pcs[LOOP].Loop? && (s.pcs[LOOP].l.EstOpen? || s.pcs[LOOP].l.EstFailed? || s.pcs[LOOP].l.EstCommit?))
            && (f.state == Waiting || f.state == SessionLost ==> f.session.None?)
            && (f.state == Active || f.state == Recovering ==> f.session.Some?)
            && f.state != Stopping
  {
    hide Run;
    LabelsAlways(acts);
    InvAlways(acts);
    BusyIsOperating(Run(acts).value, Install);
    BusyIsOperating(Run(acts).value, Uninstall);
    LabelAgreesUncancelled(Run(acts).value);
    hide Inv;
    hide Busy;
  }

  lemma LabelAgreesUncancelled(s: State)
    requires Inv(s) && !s.sh.cancelled
    ensures LabelAgrees(s.sh.fields) && LOOP in s.pcs
  {
  }

  /**
   And the error code says what went wrong: an operation's failure while recovering; the latest failed
   acquisition or lost session while waiting for a session; nothing while all is well.
   */
  lemma CodeSaysWhatWentWrong(acts: seq<Action>)
    requires Run(acts).Some? && !Run(acts).value.sh.cancelled
    ensures var f := Run(acts).value.sh.fields;
            match f.state
            case Waiting => f.lastErrorCode == Trouble(acts)
            case SessionLost => f.lastErrorCode == Trouble(acts) == "session_lost"
            case Recovering => f.lastErrorCode == "service_unresponsive"
            case _ => f.lastErrorCode == ""
  {
    hide Run;
    LabelsAlways(acts);
  }

  /** The trouble is the code of the latest acquisition to fail, or session_lost if a session was lost since. */
  lemma TroubleOfLatest(acts: seq<Action>, a: Action)
    requires Run(acts + [a]).Some? && Run(acts).Some? && LOOP in Run(acts).value.pcs
    ensures a.Step? && a.t == LOOP && a.choice.Err? && Run(acts).value.pcs[LOOP] == Loop(EstOpen) ==>
              Trouble(acts + [a]) == a.choice.code
    ensures Run(acts + [a]).value.sh.fields.sessionLosses > Run(acts).value.sh.fields.sessionLosses ==>
              Trouble(acts + [a]) == "session_lost"
    ensures !(a.Step? && a.t == LOOP) ==> Trouble(acts + [a]) == Trouble(acts)
  {
    assert (acts + [a])[..|acts|] == acts;
    InvAlways(acts);
    if Run(acts + [a]).value.sh.fields.sessionLosses > Run(acts).value.sh.fields.sessionLosses {
      LossNeedsSession(Run(acts).value, a);
    }
  }

  lemma LossNeedsSession(s: State, a: Action)
    requires Inv(s) && Apply(s, a).Some? && Apply(s, a).value.sh.fields.sessionLosses > s.sh.fields.sessionLosses
    ensures a.Step? && a.t == LOOP && s.pcs[LOOP].Loop? && s.pcs[LOOP].l.LoseClear?
    ensures Holds(s.sh.fields, s.pcs[LOOP].l.gen)
  {
    hide SharedInv;
    hide ThreadStep;
    ActionProgress(s, a);
    assert ThreadInv(s.sh, LOOP, s.pcs[LOOP]);
    TakenWhenHeld(s.sh, s.pcs[LOOP].l, a.choice);
  }

  lemma TakenWhenHeld(sh: Shared, l: LoopPc, choice: Choice)
    requires l.LoseClear?
    ensures var out := ThreadStep(sh, LOOP, Loop(l), choice);
            out.Next? && out.sh.fields.sessionLosses > sh.fields.sessionLosses ==> Holds(sh.fields, l.gen)
  {
  }

  /** The counters count the device's successes, one of which may not have been counted yet. */
  lemma CountersCountSuccesses(acts: seq<Action>)
    requires Run(acts).Some?
    ensures var s := Run(acts).value;
            var done := (kind: Kind) => exists t :: t in s.pcs && s.pcs[t] == Lifecycle(kind, OpDone);
            && s.sh.fields.installCount + (if done(Install) then 1 else 0) == Successes(acts, Install)
            && s.sh.fields.uninstallCount + (if done(Uninstall) then 1 else 0) == Successes(acts, Uninstall)
  {
    hide Run;
    LabelsAlways(acts);
    InvAlways(acts);
    PendingIsDone(Run(acts).value, Install);
    PendingIsDone(Run(acts).value, Uninstall);
    hide Inv;
  }

  lemma PendingIsDone(s: State, kind: Kind)
    requires Inv(s)
    ensures Pending(Busy(s), kind) == if exists t :: t in s.pcs && s.pcs[t] == Lifecycle(kind, OpDone) then 1 else 0
  {
    if t :| t in s.pcs && s.pcs[t] == Lifecycle(kind, OpDone) { assert ThreadInv(s.sh, t, s.pcs[t]); }
  }
}
