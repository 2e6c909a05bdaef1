/**
 connectionLoop reads the session twice (internal/linkcore/daemon.go:169 and 177) and uses the second
 reading unchecked. The second finds none exactly when shutdown has cleared the session by then, and from
 there the loop can only go on to use the missing handle.
 */
module NilHandle {
  import opened Common
  import opened DaemonFields
  import opened Machine
  import opened Invariant
  import opened Refinement
  import opened Theorems

  predicate MissingAt(pc: Pc) {
    match pc
    case Loop(ReadGeneration(handle)) => handle.None?
    case Loop(Select(handle, _)) => handle.None?
    case Loop(LoopPanicked) => true
    case _ => false
  }

  /** The loop has taken a missing handle for its session; it is going to use it, or has. */
  predicate HandleMissing(s: State) {
    LOOP in s.pcs && MissingAt(s.pcs[LOOP])
  }

  /** The action is the loop's second reading of the session, taken after Serve has cleared it. */
  predicate ReadsTooLate(s: State, a: Action) {
    a.Step? && a.t == LOOP && LOOP in s.pcs && s.pcs[LOOP] == Loop(ReadHandle) && TornDown(s)
  }

  /** From a missing handle every step of the loop leads on to its use, whatever else happens. */
  lemma MissingLeadsToUse(s: State, choice: Choice)
    requires HandleMissing(s) && Apply(s, Step(LOOP, choice)).Some?
    ensures var after := Apply(s, Step(LOOP, choice)).value.pcs[LOOP];
            match s.pcs[LOOP]
            case Loop(ReadGeneration(_)) => after == Loop(Select(None, s.sh.fields.generation))
            case _ => after == Loop(LoopPanicked)
  {
  }

  lemma MissingStays(s: State, a: Action)
    requires HandleMissing(s) && Apply(s, a).Some?
    ensures HandleMissing(Apply(s, a).value)
  {
    if a.Step? && a.t == LOOP { MissingLeadsToUse(s, a.choice); }
  }

  /** The second reading finds no session exactly when it comes after teardown. */
  lemma SecondReading(acts: seq<Action>, k: nat, choice: Choice)
    requires Run(acts).Some? && k < |acts| && acts[k] == Step(LOOP, choice)
    requires LOOP in StateAt(acts, k).pcs && StateAt(acts, k).pcs[LOOP] == Loop(ReadHandle)
    ensures LOOP in StateAt(acts, k + 1).pcs
    ensures StateAt(acts, k + 1).pcs[LOOP] == Loop(ReadGeneration(None)) <==> TornDown(StateAt(acts, k))
  {
    StateAtSteps(acts, k);
    InvAt(acts, k);
    ReadingFindsNone(StateAt(acts, k));
  }

  lemma ReadingFindsNone(s: State)
    requires Inv(s) && s.pcs[LOOP] == Loop(ReadHandle)
    ensures s.sh.fields.session.None? <==> TornDown(s)
  {
    assert ThreadInv(s.sh, LOOP, s.pcs[LOOP]) && ThreadInv(s.sh, SERVE, s.pcs[SERVE]);
  }

  lemma StepFindsNone(sh: Shared, l: LoopPc, choice: Choice)
    requires !MissingAt(Loop(l)) && LoopStep(sh, l, choice).Next?
    ensures MissingAt(LoopStep(sh, l, choice).pc) <==> l.ReadHandle? && sh.fields.session.None?
  {
  }

  lemma MissingArises(s: State, a: Action)
    requires Inv(s) && Apply(s, a).Some? && !HandleMissing(s)
    ensures HandleMissing(Apply(s, a).value) <==> ReadsTooLate(s, a)
  {
    assert ThreadInv(s.sh, LOOP, s.pcs[LOOP]);
    if a.Step? && a.t == LOOP {
      if s.pcs[LOOP].l.ReadHandle? { ReadingFindsNone(s); }
      hide Inv;
      hide LoopStep;
      StepFindsNone(s.sh, s.pcs[LOOP].l, a.choice);
    } else {
      LoopStays(s, a);
    }
  }

  lemma LoopStays(s: State, a: Action)
    requires LOOP in s.pcs && Apply(s, a).Some? && !(a.Step? && a.t == LOOP)
    ensures LOOP in Apply(s, a).value.pcs && Apply(s, a).value.pcs[LOOP] == s.pcs[LOOP]
  {
    hide ThreadStep;
  }

  /** Somewhere in the run the loop has read the session again after teardown. */
  predicate HasReadTooLate(acts: seq<Action>)
    requires Run(acts).Some?
  {
    exists k :: 0 <= k < |acts| && ReadsTooLate(StateAt(acts, k), acts[k])
  }

  lemma HasReadTooLateSnoc(acts: seq<Action>)
    requires Run(acts).Some? && acts != []
    ensures var front := acts[..|acts| - 1];
            HasReadTooLate(acts) <==> HasReadTooLate(front) || ReadsTooLate(Run(front).value, acts[|acts| - 1])
  {
    hide ReadsTooLate;
    hide Apply;
    var n := |acts| - 1;
    var front := acts[..n];
    assert StateAt(acts, n) == Run(front).value;
    forall k | 0 <= k < n ensures StateAt(front, k) == StateAt(acts, k) && front[k] == acts[k] {
      assert front[..k] == acts[..k];
    }
    if HasReadTooLate(front) {
      var k :| 0 <= k < n && ReadsTooLate(StateAt(front, k), front[k]);
      assert ReadsTooLate(StateAt(acts, k), acts[k]);
    }
    if ReadsTooLate(Run(front).value, acts[n]) { assert ReadsTooLate(StateAt(acts, n), acts[n]); }
  }

  /** In every run: the loop has a missing handle exactly when it has read the session again after teardown. */
  lemma {:induction false} MissingExactlyAfterTeardown(acts: seq<Action>)
    requires Run(acts).Some?
    ensures HandleMissing(Run(acts).value) <==> HasReadTooLate(acts)
  {
    hide HasReadTooLate;
    if acts == [] {
      NothingReadYet();
    } else {
      hide Inv;
      hide HandleMissing;
      hide ReadsTooLate;
      hide Apply;
      var front := acts[..|acts| - 1];
      MissingExactlyAfterTeardown(front);
      HasReadTooLateSnoc(acts);
      InvAlways(front);
      if HandleMissing(Run(front).value) {
        MissingStays(Run(front).value, acts[|acts| - 1]);
      } else {
        MissingArises(Run(front).value, acts[|acts| - 1]);
      }
    }
  }

  lemma NothingReadYet()
    ensures !HasReadTooLate([])
  {
  }

  /** So a missing handle is used only after Serve, cancelled, has cleared the session. */
  lemma MissingHandleOnlyAfterTeardown(acts: seq<Action>)
    requires Run(acts).Some? && HandleMissing(Run(acts).value)
    ensures TornDown(Run(acts).value) && Run(acts).value.sh.cancelled
  {
    InvAlways(acts);
    var s := Run(acts).value;
    assert ThreadInv(s.sh, LOOP, s.pcs[LOOP]) && ThreadInv(s.sh, SERVE, s.pcs[SERVE]);
  }

  // ----- A run that gets there

  const ACQUIRED := INITIAL_SHARED.(
    fields := Fields(Active, 1, 0, 0, 0, "", Some(1)),
    hist := INITIAL_HISTORY.(sessionsOpened := 1))

  const STOPPED := ACQUIRED.(
    op := None,
    cancelled := true,
    fields := Fields(Stopping, 1, 0, 0, 0, "", None),
    hist := ACQUIRED.hist.(quiesced := true, closeLog := [1], tornDown := true, dropped := 1))

  lemma FindsNoSession()
    ensures Alone(INITIAL_SHARED, LOOP, Loop(Top), [Ok, Ok, Ok, Ok]) == Next(INITIAL_SHARED, Loop(EstLock))
  {
    AloneCons(INITIAL_SHARED, LOOP, Loop(Top), Ok, [Ok, Ok, Ok]);
    AloneCons(INITIAL_SHARED, LOOP, Loop(ReadSession), Ok, [Ok, Ok]);
    AloneCons(INITIAL_SHARED, LOOP, Loop(ReadLastError), Ok, [Ok]);
    AloneCons(INITIAL_SHARED, LOOP, Loop(SetWaiting("")), Ok, []);
  }

  const CONNECTING := INITIAL_SHARED.(op := Some(LOOP), fields := SetState(INITIAL_FIELDS, Connecting, ""))

  lemma Connects()
    ensures Alone(INITIAL_SHARED, LOOP, Loop(EstLock), [Ok, Ok, Ok, Ok]) == Next(CONNECTING, Loop(EstOpen))
  {
    var s1 := INITIAL_SHARED.(op := Some(LOOP));
    AloneCons(INITIAL_SHARED, LOOP, Loop(EstLock), Ok, [Ok, Ok, Ok]);
    AloneCons(s1, LOOP, Loop(EstRead), Ok, [Ok, Ok]);
    AloneCons(s1, LOOP, Loop(EstCheck), Ok, [Ok]);
    AloneCons(s1, LOOP, Loop(EstLabel), Ok, []);
  }

  lemma AcquiresSession()
    ensures Alone(CONNECTING, LOOP, Loop(EstOpen), [Ok, Ok, Ok]) == Next(ACQUIRED, Loop(Recheck))
  {
    AloneCons(CONNECTING, LOOP, Loop(EstOpen), Ok, [Ok, Ok]);
    var s := CONNECTING.(hist := CONNECTING.hist.(sessionsOpened := 1, pending := true));
    AloneCons(s, LOOP, Loop(EstCommit(1)), Ok, [Ok]);
    AloneCons(ACQUIRED.(op := Some(LOOP)), LOOP, Loop(EstUnlock), Ok, []);
  }

  lemma FindsSession()
    ensures Alone(ACQUIRED, LOOP, Loop(Recheck), [Ok, Ok, Ok]) == Next(ACQUIRED, Loop(ReadHandle))
  {
    AloneCons(ACQUIRED, LOOP, Loop(Recheck), Ok, [Ok, Ok]);
    AloneCons(ACQUIRED, LOOP, Loop(Top), Ok, [Ok]);
    AloneCons(ACQUIRED, LOOP, Loop(ReadSession), Ok, []);
  }

  const QUIET := ACQUIRED.(
    cancelled := true,
    fields := Fields(Stopping, 1, 0, 0, 0, "", Some(1)),
    hist := ACQUIRED.hist.(quiesced := true))

  lemma ServeClears()
    ensures Alone(ACQUIRED.(cancelled := true), SERVE, Serve(Accept), [Ok, Ok, Ok, Ok]) == Next(QUIET, Serve(TearLock))
  {
    var s0 := ACQUIRED.(cancelled := true);
    AloneCons(s0, SERVE, Serve(Accept), Ok, [Ok, Ok, Ok]);
    AloneCons(s0, SERVE, Serve(MarkStopping), Ok, [Ok, Ok]);
    var s1 := s0.(fields := SetState(s0.fields, Stopping, ""));
    AloneCons(s1, SERVE, Serve(SnapRead), Ok, [Ok]);
    AloneCons(s1, SERVE, Serve(SnapLock), Ok, []);
  }

  lemma ServeTearsDown()
    ensures Alone(QUIET, SERVE, Serve(TearLock), [Ok, Ok, Ok, Ok, Ok]) == Next(STOPPED, Serve(ServeReturned))
  {
    var s1 := QUIET.(op := Some(SERVE));
    AloneCons(QUIET, SERVE, Serve(TearLock), Ok, [Ok, Ok, Ok, Ok]);
    AloneCons(s1, SERVE, Serve(TearRead), Ok, [Ok, Ok, Ok]);
    AloneCons(s1, SERVE, Serve(TearClose(1)), Ok, [Ok, Ok]);
    ServeDrops();
  }

  lemma ServeDrops()
    ensures var closing := QUIET.(op := Some(SERVE), hist := QUIET.hist.(closeLog := [1], tearing := true));
            Alone(closing, SERVE, Serve(TearDrop(1)), [Ok, Ok]) == Next(STOPPED, Serve(ServeReturned))
  {
    var closing := QUIET.(op := Some(SERVE), hist := QUIET.hist.(closeLog := [1], tearing := true));
    AloneCons(closing, SERVE, Serve(TearDrop(1)), Ok, [Ok]);
    AloneCons(STOPPED.(op := Some(SERVE)), SERVE, Serve(TearUnlock), Ok, []);
  }

  lemma UsesMissingHandle()
    ensures Alone(STOPPED, LOOP, Loop(ReadHandle), [Ok, Ok, Ok]) == Next(STOPPED, Loop(LoopPanicked))
  {
    AloneCons(STOPPED, LOOP, Loop(ReadHandle), Ok, [Ok, Ok]);
    AloneCons(STOPPED, LOOP, Loop(ReadGeneration(None)), Ok, [Ok]);
    AloneCons(STOPPED, LOOP, Loop(Select(None, 1)), Ok, []);
  }

  lemma CancelRuns(acts: seq<Action>)
    requires Run(acts).Some?
    ensures Run(acts + [Cancel]) == Some(Run(acts).value.(sh := Run(acts).value.sh.(cancelled := true)))
  {
    RunSnoc(acts, Cancel);
  }

  function Pcs(l: LoopPc, v: ServePc): map<Tid, Pc> {
    map[LOOP := Loop(l), SERVE := Serve(v), PULSE := Pulse(Ticking)]
  }

  lemma LoopRuns(acts: seq<Action>, a: Shared, l: LoopPc, v: ServePc, choices: seq<Choice>, b: Shared, l': LoopPc)
    returns (acts': seq<Action>)
    requires Run(acts) == Some(State(a, None, Pcs(l, v)))
    requires Alone(a, LOOP, Loop(l), choices) == Next(b, Loop(l'))
    ensures Run(acts') == Some(State(b, None, Pcs(l', v)))
  {
    hide Alone;
    var more := AloneRuns(acts, LOOP, choices, Next(b, Loop(l')));
    acts' := acts + more;
    assert Pcs(l, v)[LOOP := Loop(l')] == Pcs(l', v);
  }

  lemma ServeRuns(acts: seq<Action>, a: Shared, l: LoopPc, v: ServePc, choices: seq<Choice>, b: Shared, v': ServePc)
    returns (acts': seq<Action>)
    requires Run(acts) == Some(State(a, None, Pcs(l, v)))
    requires Alone(a, SERVE, Serve(v), choices) == Next(b, Serve(v'))
    ensures Run(acts') == Some(State(b, None, Pcs(l, v')))
  {
    hide Alone;
    var more := AloneRuns(acts, SERVE, choices, Next(b, Serve(v')));
    acts' := acts + more;
    assert Pcs(l, v)[SERVE := Serve(v')] == Pcs(l, v');
  }

  /** The loop has acquired its first session and has just found it there. */
  lemma SessionIsAcquired() returns (acts: seq<Action>)
    ensures Run(acts) == Some(State(ACQUIRED, None, Pcs(ReadHandle, Accept)))
  {
    hide Alone;
    FindsNoSession();
    acts := LoopRuns([], INITIAL_SHARED, Top, Accept, [Ok, Ok, Ok, Ok], INITIAL_SHARED, EstLock);
    Connects();
    acts := LoopRuns(acts, INITIAL_SHARED, EstLock, Accept, [Ok, Ok, Ok, Ok], CONNECTING, EstOpen);
    AcquiresSession();
    acts := LoopRuns(acts, CONNECTING, EstOpen, Accept, [Ok, Ok, Ok], ACQUIRED, Recheck);
    FindsSession();
    acts := LoopRuns(acts, ACQUIRED, Recheck, Accept, [Ok, Ok, Ok], ACQUIRED, ReadHandle);
  }

  /** The two readings can disagree: here is a run in which the loop uses a missing handle. */
  lemma MissingHandleIsReachable()
    ensures exists acts ::
              Run(acts).Some? && LOOP in Run(acts).value.pcs && Run(acts).value.pcs[LOOP] == Loop(LoopPanicked)
  {
    hide Alone;
    var acts := SessionIsAcquired();
    CancelRuns(acts);
    ServeClears();
    var late := ACQUIRED.(cancelled := true);
    acts := ServeRuns(acts + [Cancel], late, ReadHandle, Accept, [Ok, Ok, Ok, Ok], QUIET, TearLock);
    ServeTearsDown();
    acts := ServeRuns(acts, QUIET, ReadHandle, TearLock, [Ok, Ok, Ok, Ok, Ok], STOPPED, ServeReturned);
    UsesMissingHandle();
    acts := LoopRuns(acts, STOPPED, ReadHandle, ServeReturned, [Ok, Ok, Ok], STOPPED, LoopPanicked);
    assert Run(acts).Some?;
  }
}
