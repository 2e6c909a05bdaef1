/** What every run of the daemon satisfies, read off the invariant and off the steps that lead on from a state. */
module Theorems {
  import opened Common
  import opened DaemonFields
  import opened LocationModel
  import opened Machine
  import opened Invariant
  import opened Progress

  // ----- Runs and their prefixes

  lemma {:induction false} PrefixRuns(acts: seq<Action>, k: nat)
    requires Run(acts).Some? && k <= |acts|
    ensures Run(acts[..k]).Some?
  {
    if k < |acts| {
      PrefixRuns(acts[..|acts| - 1], k);
      assert acts[..|acts| - 1][..k] == acts[..k];
    } else {
      assert acts[..k] == acts;
    }
  }

  /** The state the run has reached after its first k actions. */
  function StateAt(acts: seq<Action>, k: nat): State
    requires Run(acts).Some? && k <= |acts|
  {
    PrefixRuns(acts, k);
    Run(acts[..k]).value
  }

  lemma StateAtSteps(acts: seq<Action>, k: nat)
    requires Run(acts).Some? && k < |acts|
    ensures Apply(StateAt(acts, k), acts[k]) == Some(StateAt(acts, k + 1))
  {
    PrefixRuns(acts, k);
    PrefixRuns(acts, k + 1);
    assert acts[..k + 1][..k] == acts[..k];
  }

  /** Up to there a run and the run without its last action are the same. */
  lemma StateAtFront(acts: seq<Action>, j: nat)
    requires Run(acts).Some? && j < |acts|
    ensures Run(acts[..|acts| - 1]).Some? && StateAt(acts, j) == StateAt(acts[..|acts| - 1], j)
  {
    PrefixRuns(acts, |acts| - 1);
    assert acts[..|acts| - 1][..j] == acts[..j];
  }

  /** And at its end a run is where it is. */
  lemma StateAtEnd(acts: seq<Action>)
    requires Run(acts).Some?
    ensures StateAt(acts, |acts|) == Run(acts).value
  {
    assert acts[..|acts|] == acts;
  }

  lemma InvAt(acts: seq<Action>, k: nat)
    requires Run(acts).Some? && k <= |acts|
    ensures Inv(StateAt(acts, k))
  {
    PrefixRuns(acts, k);
    InvAlways(acts[..k]);
  }

  // ----- The location driver and the session's generation

  /** A driver that is held was opened on the current generation's session. */
  lemma DriverOnCurrentGeneration(acts: seq<Action>)
    requires Run(acts).Some?
    ensures var s := Run(acts).value.sh;
            s.location.driver.Some? ==>
              && s.location.driver.value < |s.location.drivers|
              && s.location.drivers[s.location.driver.value].sid == s.fields.generation
              && s.fields.generation >= 1
              && (s.fields.session.Some? ==> s.fields.session.value == s.location.drivers[s.location.driver.value].sid)
  {
    hide Run;
    InvAlways(acts);
  }

  /** At the step that makes a new session active, no driver of an earlier one is held. */
  lemma NoDriverWhenSessionBecomesActive(acts: seq<Action>, k: nat)
    requires Run(acts).Some? && k < |acts|
    requires StateAt(acts, k + 1).sh.fields.generation != StateAt(acts, k).sh.fields.generation
    ensures StateAt(acts, k).sh.location.driver.None? && StateAt(acts, k + 1).sh.location.driver.None?
    ensures StateAt(acts, k + 1).sh.fields.session == Some(StateAt(acts, k + 1).sh.fields.generation)
    ensures StateAt(acts, k).sh.fields.session.None?
  {
    StateAtSteps(acts, k);
    InvAt(acts, k);
    ActionProgress(StateAt(acts, k), acts[k]);
  }

  // ----- The location state

  /** With the mutex free: a driver is held exactly when the phase is active, applying is never seen. */
  lemma LocationAtRest(acts: seq<Action>)
    requires Run(acts).Some? && Run(acts).value.sh.loc.None?
    ensures var l := Run(acts).value.sh.location;
            && (l.driver.Some? <==> l.phase.Live?)
            && !l.phase.Applying?
            && (l.phase.Live? ==> l.target.Some? && ValidLocation(l.target.value))
  {
    InvAlways(acts);
  }

  /** Every driver ever opened is the held one, was closed, or acknowledged a stop. */
  lemma DriversReleased(acts: seq<Action>, d: Did)
    requires Run(acts).Some? && d < |Run(acts).value.sh.location.drivers|
    ensures var l := Run(acts).value.sh.location;
            l.driver == Some(d) || l.drivers[d].closes > 0 || l.drivers[d].acked
  {
    InvAlways(acts);
  }

  /** The refresh never dereferences a missing coordinate. */
  lemma PulseNeverPanics(acts: seq<Action>)
    requires Run(acts).Some?
    ensures PULSE in Run(acts).value.pcs && Run(acts).value.pcs[PULSE] != Pulse(PulsePanicked)
  {
    InvAlways(acts);
    assert ThreadInv(Run(acts).value.sh, PULSE, Run(acts).value.pcs[PULSE]);
  }

  /** A coordinate is recorded exactly when a start was issued since the last acknowledged stop: the latest one. */
  lemma TargetRetained(acts: seq<Action>, c: Coord)
    requires Run(acts).Some?
    ensures var l := Run(acts).value.sh.location;
            l.target == Some(c) <==> exists i: nat :: LatestStart(l.log, i) && l.log[i].at == c
  {
    InvAlways(acts);
    OutstandingIsLatestStart(Run(acts).value.sh.location.log, c);
  }

  /** Every refresh repeats the start just before it: no failure, loss or stop lies between them. */
  lemma NoSilentReapply(acts: seq<Action>, i: nat)
    requires Run(acts).Some? && i < |Run(acts).value.sh.location.log|
    requires var e := Run(acts).value.sh.location.log[i]; e.Start? && e.origin.ByPulse?
    ensures RepeatsPrevious(Run(acts).value.sh.location.log, i)
  {
    InvAlways(acts);
  }

  /** After a failure, a loss or a stop, the next start is a set's. */
  lemma OnlyASetStartsAgain(acts: seq<Action>, i: nat, j: nat)
    requires Run(acts).Some? && i < j < |Run(acts).value.sh.location.log|
    requires var log := Run(acts).value.sh.location.log;
             !log[i].Start? && log[j].Start? && forall k :: i < k < j ==> !log[k].Start?
    ensures Run(acts).value.sh.location.log[j].origin.BySet?
  {
    InvAlways(acts);
    hide Run;
    SetStartsAgain(Run(acts).value.sh.location.log, i, j);
  }

  /** What the device is told, repetitions aside, is what the sets, stops and failures alone would tell it. */
  lemma DeviceToldBySetsAlone(acts: seq<Action>)
    requires Run(acts).Some?
    ensures var log := Run(acts).value.sh.location.log;
            Told(WithoutPulses(log)) == Told(log)
  {
    InvAlways(acts);
    PulsesOnlyRepeat(Run(acts).value.sh.location.log);
  }

  // ----- Shutdown

  /** Serve has taken its shutdown snapshot and, if one was needed, made its clear attempt. */
  predicate PastClear(s: State) {
    && SERVE in s.pcs
    && s.pcs[SERVE].Serve?
    && var v := s.pcs[SERVE].v;
    v.TearLock? || v.TearRead? || v.TearClose? || v.TearDrop? || v.TearUnlock? || v.ServeReturned?
  }

  lemma PastClearIsQuiesced(s: State)
    requires Inv(s)
    ensures PastClear(s) <==> s.sh.hist.quiesced
  {
    assert ThreadInv(s.sh, SERVE, s.pcs[SERVE]);
  }

  /** From `was` to `now` no start was issued, no driver is held, and an acknowledged clear stands. */
  predicate QuietSince(was: Shared, now: Shared) {
    && now.location.driver.None?
    && was.location.log <= now.location.log
    && (forall i :: |was.location.log| <= i < |now.location.log| ==> !now.location.log[i].Start?)
    && (was.hist.clearAcked ==> now.hist.clearAcked && now.location.target.None?)
  }

  lemma QuietOneMore(was: Shared, mid: Shared, now: Shared)
    requires QuietSince(was, mid) && SharedInv(now) && mid.hist.quiesced && now.hist.quiesced
    requires LogProgress(mid, now) && (mid.hist.clearAcked ==> now.hist.clearAcked)
    ensures QuietSince(was, now)
  {
  }

  /** Once past the clear: no driver is held and no start is ever issued again, by a set or by a refresh. */
  lemma {:induction false} ShutdownQuiescence(acts: seq<Action>, k: nat)
    requires Run(acts).Some? && k <= |acts| && PastClear(StateAt(acts, k))
    ensures PastClear(Run(acts).value) && QuietSince(StateAt(acts, k).sh, Run(acts).value.sh)
    decreases |acts|
  {
    InvAlways(acts);
    PastClearIsQuiesced(Run(acts).value);
    if k == |acts| {
      assert acts[..k] == acts;
    } else {
      var front := acts[..|acts| - 1];
      PrefixRuns(acts, |front|);
      assert front[..k] == acts[..k];
      ShutdownQuiescence(front, k);
      InvAlways(front);
      PastClearIsQuiesced(Run(front).value);
      ActionProgress(Run(front).value, acts[|acts| - 1]);
      QuietOneMore(StateAt(acts, k).sh, Run(front).value.sh, Run(acts).value.sh);
    }
  }

  /** The flag of an acknowledged clear is raised by Serve's own acknowledged stop, and by nothing else. */
  lemma ClearAckedMeansStopAcked(acts: seq<Action>, k: nat)
    requires Run(acts).Some? && k < |acts|
    requires !StateAt(acts, k).sh.hist.clearAcked && StateAt(acts, k + 1).sh.hist.clearAcked
    ensures acts[k].Step? && acts[k].t in StateAt(acts, k).pcs
    ensures StateAt(acts, k).pcs[acts[k].t] == Serve(ServeClear(ClearAwait))
    ensures var log := StateAt(acts, k + 1).sh.location.log;
            log != [] && log[|log| - 1].StopAcked?
  {
    StateAtSteps(acts, k);
    InvAt(acts, k);
    ActionProgress(StateAt(acts, k), acts[k]);
  }

  // ----- Sessions

  /** Serve has cleared the session on its way out, or found none to clear. */
  predicate TornDown(s: State) {
    SERVE in s.pcs && (s.pcs[SERVE] == Serve(TearUnlock) || s.pcs[SERVE] == Serve(ServeReturned))
  }

  /** Before teardown every generation but the held one was lost, each once and in order. */
  lemma GenerationsAreLossesPlusHeld(acts: seq<Action>)
    requires Run(acts).Some? && !TornDown(Run(acts).value)
    ensures var s := Run(acts).value.sh;
            && s.fields.generation == s.fields.sessionLosses + (if s.fields.session.Some? then 1 else 0)
            && s.hist.lossLog == Upto(s.fields.sessionLosses)
            && (s.fields.session.Some? ==> s.fields.session.value == s.fields.generation)
  {
    hide Run;
    InvAlways(acts);
    assert ThreadInv(Run(acts).value.sh, SERVE, Run(acts).value.pcs[SERVE]);
  }

  /** At every moment the closed sessions are the first ones opened, each closed once: all, or all but the newest. */
  lemma ClosedOnceInOrder(acts: seq<Action>)
    requires Run(acts).Some?
    ensures var h := Run(acts).value.sh.hist;
            h.closeLog == Upto(h.sessionsOpened) || (h.sessionsOpened > 0 && h.closeLog == Upto(h.sessionsOpened - 1))
  {
    hide ThreadInv;
    hide LocConsistent;
    hide LocAtRest;
    hide Run;
    InvAlways(acts);
  }

  /** When Serve has returned without error, every session ever opened was closed exactly once. */
  lemma AllClosedWhenServeReturns(acts: seq<Action>)
    requires Run(acts).Some? && SERVE in Run(acts).value.pcs && Run(acts).value.pcs[SERVE] == Serve(ServeReturned)
    ensures var s := Run(acts).value.sh;
            s.hist.closeLog == Upto(s.hist.sessionsOpened) && s.fields.session.None?
  {
    hide Run;
    InvAlways(acts);
    var s := Run(acts).value;
    assert ThreadInv(s.sh, SERVE, s.pcs[SERVE]);
    assert ThreadInv(s.sh, LOOP, s.pcs[LOOP]);
  }

  /** Until teardown, a warm label is shown only with a session held and a cold one only with none. */
  lemma LabelAgreesWithSession(acts: seq<Action>)
    requires Run(acts).Some? && !TornDown(Run(acts).value)
    ensures LabelAgrees(Run(acts).value.sh.fields)
  {
    hide Run;
    InvAlways(acts);
    assert ThreadInv(Run(acts).value.sh, SERVE, Run(acts).value.pcs[SERVE]);
  }

  /** The loop, the refresh and Serve end only when the daemon's context has ended. */
  lemma EndOnlyWhenCancelled(acts: seq<Action>)
    requires Run(acts).Some? && !Run(acts).value.sh.cancelled
    ensures var pcs := Run(acts).value.pcs;
            && LOOP in pcs && SERVE in pcs && PULSE in pcs
            && pcs[LOOP] != Loop(LoopReturned) && pcs[LOOP] != Loop(LoopPanicked)
            && pcs[SERVE] == Serve(Accept)
            && pcs[PULSE] != Pulse(PulseReturned) && pcs[PULSE] != Pulse(PulsePanicked)
  {
    hide Run;
    InvAlways(acts);
    var s := Run(acts).value;
    assert ThreadInv(s.sh, LOOP, s.pcs[LOOP]);
    assert ThreadInv(s.sh, SERVE, s.pcs[SERVE]);
    assert ThreadInv(s.sh, PULSE, s.pcs[PULSE]);
  }

  // ----- Exclusive use of the device session

  /** The handle a thread has looked up for a device operation, while it may still use it. */
  function HandleInUse(pc: Pc): Option<Sid> {
    match pc
    case Lifecycle(_, OpLabel(sid)) => Some(sid)
    case Lifecycle(_, OpCall(sid)) => Some(sid)
    case Shot(ShotCall(sid)) => Some(sid)
    case Tests(TestsPrepare(sid)) => Some(sid)
    case Tests(TestsGeneration(sid)) => Some(sid)
    case Tests(TestsCall(sid, _)) => Some(sid)
    case Serve(TearClose(sid)) => Some(sid)
    case _ => None
  }

  /** At most one thread is in a section that owns the device; its handle is the current session, not yet closed. */
  lemma ExclusiveSessionUse(acts: seq<Action>, t: Tid, u: Tid)
    requires Run(acts).Some?
    requires var s := Run(acts).value; t in s.pcs && u in s.pcs && HoldsOp(s.pcs[t]) && HoldsOp(s.pcs[u])
    ensures t == u
    ensures var s := Run(acts).value;
            var handle := HandleInUse(s.pcs[t]);
            handle.Some? ==> s.sh.fields.session == handle && handle.value !in s.sh.hist.closeLog
  {
    hide Run;
    InvAlways(acts);
    var s := Run(acts).value;
    assert ThreadInv(s.sh, t, s.pcs[t]) && ThreadInv(s.sh, u, s.pcs[u]);
    assert ThreadInv(s.sh, SERVE, s.pcs[SERVE]) && ThreadInv(s.sh, LOOP, s.pcs[LOOP]);
  }

  /** A device call, and Serve's close, is on the current session, not yet closed, under the caller's own lock. */
  lemma DeviceCallsAreOnTheSession(acts: seq<Action>, t: Tid, sid: Sid)
    requires Run(acts).Some? && t in Run(acts).value.pcs
    requires var pc := Run(acts).value.pcs[t];
             || pc == Lifecycle(Install, OpCall(sid)) || pc == Lifecycle(Uninstall, OpCall(sid))
             || pc == Shot(ShotCall(sid))
             || (exists gen :: pc == Tests(TestsCall(sid, gen)))
             || pc == Serve(TearClose(sid))
    ensures var s := Run(acts).value.sh;
            s.op == Some(t) && s.fields.session == Some(sid) && sid == s.fields.generation && sid !in s.hist.closeLog
  {
    hide Run;
    InvAlways(acts);
    var s := Run(acts).value;
    assert ThreadInv(s.sh, t, s.pcs[t]);
    assert ThreadInv(s.sh, SERVE, s.pcs[SERVE]) && ThreadInv(s.sh, LOOP, s.pcs[LOOP]);
  }

  /** Every thread that has a handle in use holds the operation lock. */
  lemma HandleUsersHoldTheLock(pc: Pc, kind: Kind, sid: Sid, gen: nat)
    ensures HandleInUse(pc).Some? ==> HoldsOp(pc)
    ensures pc in {Lifecycle(kind, OpCall(sid)), Shot(ShotCall(sid)), Tests(TestsCall(sid, gen)), Serve(TearClose(sid))}
            ==> HandleInUse(pc) == Some(sid)
  {
  }

  /** Screenshots and test runs report the generation of the very session they used. */
  lemma ReportsNameTheirSession(acts: seq<Action>, i: nat)
    requires Run(acts).Some? && i < |Run(acts).value.sh.hist.reports|
    ensures Run(acts).value.sh.hist.reports[i].handle == Run(acts).value.sh.hist.reports[i].generation
  {
    hide Run;
    InvAlways(acts);
  }
}
