/**
 The classes and the step system describe the same code: a thread that takes the steps of an operation
 leaves exactly what the operation's method promises. The steps are a thread's own; the invariant's
 guarantee says that nobody else writes what the thread's locks protect.
 */
module Refinement {
  import opened Common
  import opened DaemonFields
  import opened LocationModel
  import opened LocationSessions
  import opened Daemons
  import opened Machine

  /** One thread's steps in a row, the field lock being free whenever it is needed. */
  function Alone(sh: Shared, t: Tid, pc: Pc, choices: seq<Choice>): Out
    decreases |choices|
  {
    if choices == [] then Next(sh, pc)
    else
      match ThreadStep(sh, t, pc, choices[0])
      case Blocked => Blocked
      case Next(sh', pc') => Alone(sh', t, pc', choices[1..])
  }

  function ChoiceOf(outcome: Outcome): Choice {
    match outcome
    case Acknowledged => Ok
    case Refused => Err("")
    case TimedOut => Timeout
  }

  /** What `open` answers fits the daemon: it looks the session up, and fails under a cancelled context. */
  predicate OpenFits(sh: Shared, open: OpenAnswer, owned: bool) {
    match open
    case NoSession => sh.fields.session.None?
    case OpenFails => sh.fields.session.Some?
    case Opens(handle, sid) =>
      sh.fields.session == Some(sid) && handle == |sh.location.drivers| && !(owned && sh.cancelled)
  }

  lemma AloneCons(sh: Shared, t: Tid, pc: Pc, c: Choice, rest: seq<Choice>)
    ensures Alone(sh, t, pc, [c] + rest) ==
            match ThreadStep(sh, t, pc, c) { case Blocked => Blocked case Next(sh', pc') => Alone(sh', t, pc', rest) }
  {
    assert ([c] + rest)[1..] == rest;
  }

  lemma RunSnoc(acts: seq<Action>, a: Action)
    ensures Run(acts + [a]) == match Run(acts) { case None => None case Some(s) => Apply(s, a) }
  {
    assert (acts + [a])[..|acts|] == acts;
  }

  /** One step of one thread, with the field lock taken first where the step needs it. */
  lemma StepRuns(acts: seq<Action>, t: Tid, c: Choice, out: Out) returns (more: seq<Action>)
    requires Run(acts).Some? && Run(acts).value.mu.None? && t in Run(acts).value.pcs
    requires out == ThreadStep(Run(acts).value.sh, t, Run(acts).value.pcs[t], c) && out.Next?
    ensures Run(acts + more) == Some(State(out.sh, None, Run(acts).value.pcs[t := out.pc]))
  {
    var s := Run(acts).value;
    if NeedsMu(s.pcs[t]) {
      RunSnoc(acts, Acquire(t));
      RunSnoc(acts + [Acquire(t)], Step(t, c));
      more := [Acquire(t), Step(t, c)];
      assert acts + more == acts + [Acquire(t)] + [Step(t, c)];
    } else {
      RunSnoc(acts, Step(t, c));
      more := [Step(t, c)];
    }
  }

  /** A thread's steps in a row are a run of the whole system. */
  lemma {:induction false} AloneRuns(acts: seq<Action>, t: Tid, choices: seq<Choice>, out: Out)
    returns (more: seq<Action>)
    requires Run(acts).Some? && Run(acts).value.mu.None? && t in Run(acts).value.pcs
    requires out == Alone(Run(acts).value.sh, t, Run(acts).value.pcs[t], choices) && out.Next?
    ensures Run(acts + more) == Some(State(out.sh, None, Run(acts).value.pcs[t := out.pc]))
    decreases |choices|
  {
    hide ThreadStep;
    var s := Run(acts).value;
    if choices == [] {
      more := [];
      assert acts + [] == acts;
      assert s.pcs[t := s.pcs[t]] == s.pcs;
    } else {
      var one := StepRuns(acts, t, choices[0], ThreadStep(s.sh, t, s.pcs[t], choices[0]));
      var rest := AloneRuns(acts + one, t, choices[1..], out);
      more := one + rest;
      assert acts + one + rest == acts + more;
      assert Run(acts + one).value.pcs[t := out.pc] == s.pcs[t := out.pc];
    }
  }

  // ----- set, clear and the refresh

  function SetChoices(l: Loc, at: Coord, open: OpenAnswer, outcome: Outcome): seq<Choice> {
    if !ValidLocation(at) then [Ok]
    else if l.driver.Some? then [Ok, ChoiceOf(outcome)]
    else
      match open
      case NoSession => [Ok, Ok]
      case OpenFails => [Ok, Ok, Err("")]
      case Opens(_, _) => [Ok, Ok, Ok, Ok, ChoiceOf(outcome)]
  }

  /** Where a request stands after its set, begun on location state l. */
  function SetDone(sh: Shared, l: Loc, t: Tid, at: Coord, open: OpenAnswer, outcome: Outcome): Out {
    var ok := ValidLocation(at) && (l.driver.Some? || open.Opens?) && outcome.Acknowledged?;
    var acks := if ok then sh.hist.setAcks[t := at] else sh.hist.setAcks;
    Ended(sh.(loc := None, location := SetEffect(l, at, open, outcome), hist := sh.hist.(setAcks := acks)), Put(at), ok)
  }

  lemma SetReachRefines(sh: Shared, t: Tid, at: Coord, open: OpenAnswer, outcome: Outcome)
    requires sh.loc == Some(t) && sh.location.driver.None? && ValidLocation(at) && OpenFits(sh, open, true)
    ensures Alone(sh, t, Http(Setting(at, SetRead)), SetChoices(sh.location, at, open, outcome)[1..]) ==
            SetDone(sh, sh.location, t, at, open, outcome)
  {
    hide LoopStep;
    hide ServeStep;
    hide PulseStep;
    hide LifecycleStep;
    hide ShotStep;
    hide TestsStep;
    match open
    case NoSession =>
      AloneCons(sh, t, Http(Setting(at, SetRead)), Ok, []);
    case OpenFails =>
      var sid := sh.fields.session.value;
      AloneCons(sh, t, Http(Setting(at, SetRead)), Ok, [Err("")]);
      AloneCons(sh, t, Http(Setting(at, SetOpen(sid))), Err(""), []);
    case Opens(_, sid) =>
      SetOpensRefines(sh, t, at, open, outcome);
      assert SetChoices(sh.location, at, open, outcome)[1..] == [Ok, Ok, Ok, ChoiceOf(outcome)];
  }

  lemma SetOpensRefines(sh: Shared, t: Tid, at: Coord, open: OpenAnswer, outcome: Outcome)
    requires sh.loc == Some(t) && sh.location.driver.None? && ValidLocation(at)
    requires OpenFits(sh, open, true) && open.Opens?
    ensures Alone(sh, t, Http(Setting(at, SetRead)), [Ok, Ok, Ok, ChoiceOf(outcome)]) ==
            SetDone(sh, sh.location, t, at, open, outcome)
  {
    hide LoopStep;
    hide ServeStep;
    hide PulseStep;
    hide LifecycleStep;
    hide ShotStep;
    hide TestsStep;
    var c, sid := ChoiceOf(outcome), open.sid;
    AloneCons(sh, t, Http(Setting(at, SetRead)), Ok, [Ok, Ok, c]);
    AloneCons(sh, t, Http(Setting(at, SetOpen(sid))), Ok, [Ok, c]);
    AloneCons(sh, t, Http(Setting(at, SetOpening(sid))), Ok, [c]);
    AloneCons(sh.(location := IssueSet(Opened(sh.location, sid), at)), t, Http(Setting(at, SetAwait)), c, []);
  }

  /** The steps of a set do what LocationSession.Set promises, and touch nothing else. */
  lemma SetRefines(sh: Shared, t: Tid, at: Coord, open: OpenAnswer, outcome: Outcome)
    requires sh.loc.None? && OpenFits(sh, open, true)
    ensures Alone(sh, t, Http(Setting(at, SetLock)), SetChoices(sh.location, at, open, outcome)) ==
            SetDone(sh, sh.location, t, at, open, outcome)
  {
    hide LoopStep;
    hide ServeStep;
    hide PulseStep;
    hide LifecycleStep;
    hide ShotStep;
    hide TestsStep;
    var choices := SetChoices(sh.location, at, open, outcome);
    assert choices == [Ok] + choices[1..];
    AloneCons(sh, t, Http(Setting(at, SetLock)), Ok, choices[1..]);
    if ValidLocation(at) {
      var taken := sh.(loc := Some(t));
      if sh.location.driver.None? {
        SetReachRefines(taken, t, at, open, outcome);
      } else {
        var issued := taken.(location := IssueSet(sh.location, at));
        AloneCons(issued, t, Http(Setting(at, SetAwait)), ChoiceOf(outcome), []);
      }
    }
  }

  function ClearChoices(l: Loc, open: OpenAnswer, outcome: Outcome): seq<Choice> {
    if l.driver.Some? then [Ok, ChoiceOf(outcome)]
    else
      match open
      case NoSession => [Ok, Ok]
      case OpenFails => [Ok, Ok, Err("")]
      case Opens(_, _) => [Ok, Ok, Ok, Ok, ChoiceOf(outcome)]
  }

  /** A clear's steps in a row, up to and including its last one. */
  function AloneClear(sh: Shared, t: Tid, c: ClearPc, owned: bool, choices: seq<Choice>): ClearOut
    decreases |choices|
  {
    if choices == [] then ClearBlocked
    else
      var out := ClearStep(sh, t, c, owned, choices[0]);
      if out.ClearMore? then AloneClear(out.sh, t, out.c, owned, choices[1..])
      else if |choices| == 1 then out
      else ClearBlocked
  }

  lemma ClearCons(sh: Shared, t: Tid, c: ClearPc, owned: bool, choice: Choice, rest: seq<Choice>)
    ensures var out := ClearStep(sh, t, c, owned, choice);
            AloneClear(sh, t, c, owned, [choice] + rest) ==
            if out.ClearMore? then AloneClear(out.sh, t, out.c, owned, rest)
            else if rest == [] then out
            else ClearBlocked
  {
    assert ([choice] + rest)[1..] == rest;
  }

  lemma ClearOpens(sh: Shared, t: Tid, owned: bool, open: OpenAnswer, outcome: Outcome)
    requires sh.loc == Some(t) && DriversAccounted(sh.location) && sh.location.driver.None? && OpenFits(sh, open, owned)
    ensures AloneClear(sh, t, ClearRead, owned, ClearChoices(sh.location, open, outcome)[1..]) ==
            ClearEnd(sh.(loc := None, location := ClearEffect(sh.location, open, outcome)),
                     open.Opens? && outcome.Acknowledged?)
  {
    match open
    case NoSession =>
      ClearCons(sh, t, ClearRead, owned, Ok, []);
    case OpenFails =>
      ClearCons(sh, t, ClearRead, owned, Ok, [Err("")]);
      ClearCons(sh, t, ClearOpen(sh.fields.session.value), owned, Err(""), []);
    case Opens(_, sid) =>
      var c := ChoiceOf(outcome);
      ClearCons(sh, t, ClearRead, owned, Ok, [Ok, Ok, c]);
      ClearCons(sh, t, ClearOpen(sid), owned, Ok, [Ok, c]);
      ClearCons(sh, t, ClearOpening(sid), owned, Ok, [c]);
      ClearCons(sh.(location := IssueStop(Opened(sh.location, sid))), t, ClearAwait, owned, c, []);
      assert ClearChoices(sh.location, open, outcome)[1..] == [Ok] + [Ok, Ok, c];
  }

  /** The steps of a clear do what LocationSession.Clear promises. */
  lemma ClearRefines(sh: Shared, t: Tid, owned: bool, open: OpenAnswer, outcome: Outcome)
    requires sh.loc.None? && DriversAccounted(sh.location) && OpenFits(sh, open, owned)
    ensures AloneClear(sh, t, ClearLock, owned, ClearChoices(sh.location, open, outcome)) ==
            ClearEnd(sh.(location := ClearEffect(sh.location, open, outcome)),
                     (sh.location.driver.Some? || open.Opens?) && outcome.Acknowledged?)
  {
    var choices := ClearChoices(sh.location, open, outcome);
    assert choices == [Ok] + choices[1..];
    ClearCons(sh, t, ClearLock, owned, Ok, choices[1..]);
    var taken := sh.(loc := Some(t));
    if sh.location.driver.None? {
      ClearOpens(taken, t, owned, open, outcome);
    } else {
      ClearCons(taken.(location := IssueStop(sh.location)), t, ClearAwait, owned, ChoiceOf(outcome), []);
    }
  }

  /** A request's clear, and where it leaves the request. */
  lemma {:induction false} RequestClears(sh: Shared, t: Tid, c: ClearPc, choices: seq<Choice>)
    requires AloneClear(sh, t, c, true, choices).ClearEnd?
    ensures var end := AloneClear(sh, t, c, true, choices);
            Alone(sh, t, Http(Clearing(c)), choices) == Ended(end.sh, Delete, end.acked)
    decreases |choices|
  {
    var out := ClearStep(sh, t, c, true, choices[0]);
    if out.ClearMore? {
      RequestClears(out.sh, t, out.c, choices[1..]);
    } else {
      assert choices[1..] == [];
    }
  }

  /** Serve's clear, and where it leaves Serve. */
  lemma {:induction false} ServeClears(sh: Shared, c: ClearPc, choices: seq<Choice>)
    requires AloneClear(sh, SERVE, c, false, choices).ClearEnd?
    ensures var end := AloneClear(sh, SERVE, c, false, choices);
            Alone(sh, SERVE, Serve(ServeClear(c)), choices) ==
            Next(end.sh.(hist := end.sh.hist.(quiesced := true, clearAcked := end.acked)), Serve(TearLock))
    decreases |choices|
  {
    var out := ClearStep(sh, SERVE, c, false, choices[0]);
    if out.ClearMore? {
      ServeClears(out.sh, out.c, choices[1..]);
    } else {
      assert choices[1..] == [];
    }
  }

  /** The steps of a tick do what LocationSession.PulseTick promises. */
  lemma PulseRefines(sh: Shared, outcome: Outcome)
    requires sh.loc.None? && LocAtRest(sh.location)
    ensures var choices := if sh.location.driver.Some? then [Ok, ChoiceOf(outcome)] else [Ok];
            Alone(sh, PULSE, Pulse(PulseLock), choices) ==
            Next(sh.(location := PulseEffect(sh.location, outcome)), Pulse(Ticking))
  {
    if sh.location.driver.Some? {
      AloneCons(sh, PULSE, Pulse(PulseLock), Ok, [ChoiceOf(outcome)]);
      var issued := sh.(loc := Some(PULSE), location := IssuePulse(sh.location));
      AloneCons(issued, PULSE, Pulse(PulseAwait), ChoiceOf(outcome), []);
    } else {
      AloneCons(sh, PULSE, Pulse(PulseLock), Ok, []);
    }
  }

  // ----- establish, loseSession and the lifecycle operations

  /** The steps of establish do what Daemon.Establish promises. */
  lemma EstablishRefines(sh: Shared, answer: Result<Sid, string>)
    requires sh.op.None? && !sh.hist.pending
    requires answer.Success? ==> answer.value == sh.hist.sessionsOpened + 1
    ensures var out := Alone(sh, LOOP, Loop(EstLock), EstablishChoices(sh, answer));
            && out.Next?
            && out.pc == Loop(Recheck)
            && out.sh.op.None?
            && out.sh.fields == EstablishEffect(sh.fields, sh.cancelled, answer)
            && out.sh.location == sh.location
            && out.sh.hist.closeLog == sh.hist.closeLog
  {
    hide ServeStep;
    hide PulseStep;
    hide HttpStep;
    hide LifecycleStep;
    hide ShotStep;
    hide TestsStep;
    var taken := sh.(op := Some(LOOP));
    if sh.fields.session.Some? {
      AloneCons(sh, LOOP, Loop(EstLock), Ok, [Ok, Ok]);
      AloneCons(taken, LOOP, Loop(EstRead), Ok, [Ok]);
      AloneCons(taken, LOOP, Loop(EstUnlock), Ok, []);
    } else if sh.cancelled {
      AloneCons(sh, LOOP, Loop(EstLock), Ok, [Ok, Ok, Ok]);
      AloneCons(taken, LOOP, Loop(EstRead), Ok, [Ok, Ok]);
      AloneCons(taken, LOOP, Loop(EstCheck), Ok, [Ok]);
      AloneCons(taken, LOOP, Loop(EstUnlock), Ok, []);
    } else {
      var c := if answer.Success? then Ok else Err(answer.error);
      AloneCons(sh, LOOP, Loop(EstLock), Ok, [Ok, Ok, Ok, c, Ok, Ok]);
      EstablishChecksRefine(taken, answer);
    }
  }

  lemma EstablishChecksRefine(sh: Shared, answer: Result<Sid, string>)
    requires sh.fields.session.None? && !sh.cancelled && !sh.hist.pending
    requires answer.Success? ==> answer.value == sh.hist.sessionsOpened + 1
    ensures var c := if answer.Success? then Ok else Err(answer.error);
            Established(sh, Alone(sh, LOOP, Loop(EstRead), [Ok, Ok, Ok, c, Ok, Ok]), answer)
  {
    hide ServeStep;
    hide PulseStep;
    hide HttpStep;
    hide LifecycleStep;
    hide ShotStep;
    hide TestsStep;
    hide Established;
    var c := if answer.Success? then Ok else Err(answer.error);
    AloneCons(sh, LOOP, Loop(EstRead), Ok, [Ok, Ok, c, Ok, Ok]);
    AloneCons(sh, LOOP, Loop(EstCheck), Ok, [Ok, c, Ok, Ok]);
    EstablishOpenRefines(sh, answer);
  }

  function EstablishChoices(sh: Shared, answer: Result<Sid, string>): seq<Choice> {
    if sh.fields.session.Some? then [Ok, Ok, Ok]
    else if sh.cancelled then [Ok, Ok, Ok, Ok]
    else [Ok, Ok, Ok, Ok, if answer.Success? then Ok else Err(answer.error), Ok, Ok]
  }

  lemma EstablishOpenRefines(sh: Shared, answer: Result<Sid, string>)
    requires !sh.hist.pending
    requires answer.Success? ==> answer.value == sh.hist.sessionsOpened + 1
    ensures var c := if answer.Success? then Ok else Err(answer.error);
            Established(sh, Alone(sh, LOOP, Loop(EstLabel), [Ok, c, Ok, Ok]), answer)
  {
    hide ServeStep;
    hide PulseStep;
    hide HttpStep;
    hide LifecycleStep;
    hide ShotStep;
    hide TestsStep;
    var c := if answer.Success? then Ok else Err(answer.error);
    AloneCons(sh, LOOP, Loop(EstLabel), Ok, [c, Ok, Ok]);
    var labelled := sh.(fields := SetState(sh.fields, Connecting, ""));
    if answer.Success? {
      OpenedRefines(labelled, answer.value);
    } else {
      NotOpenedRefines(labelled, answer.error);
    }
  }

  /** Where establish leaves the loop when openSession gave this answer. */
  predicate Established(sh: Shared, out: Out, answer: Result<Sid, string>) {
    && out.Next?
    && out.pc == Loop(Recheck)
    && out.sh.op.None?
    && out.sh.fields == (match answer
                         case Success(sid) => Commit(sh.fields, sid)
                         case Failure(code) => SetState(sh.fields, Waiting, code))
    && out.sh.location == sh.location
    && out.sh.hist.closeLog == sh.hist.closeLog
  }

  lemma OpenedRefines(sh: Shared, sid: Sid)
    requires !sh.hist.pending && sid == sh.hist.sessionsOpened + 1
    ensures Established(sh, Alone(sh, LOOP, Loop(EstOpen), [Ok, Ok, Ok]), Success(sid))
  {
    hide ServeStep;
    hide PulseStep;
    hide HttpStep;
    hide LifecycleStep;
    hide ShotStep;
    hide TestsStep;
    AloneCons(sh, LOOP, Loop(EstOpen), Ok, [Ok, Ok]);
    var open := sh.(hist := sh.hist.(sessionsOpened := sh.hist.sessionsOpened + 1, pending := true));
    AloneCons(open, LOOP, Loop(EstCommit(sid)), Ok, [Ok]);
    var held := open.(fields := Commit(sh.fields, sid), hist := open.hist.(pending := false));
    AloneCons(held, LOOP, Loop(EstUnlock), Ok, []);
  }

  lemma NotOpenedRefines(sh: Shared, code: string)
    ensures Established(sh, Alone(sh, LOOP, Loop(EstOpen), [Err(code), Ok, Ok]), Failure(code))
  {
    hide ServeStep;
    hide PulseStep;
    hide HttpStep;
    hide LifecycleStep;
    hide ShotStep;
    hide TestsStep;
    AloneCons(sh, LOOP, Loop(EstOpen), Err(code), [Ok, Ok]);
    AloneCons(sh, LOOP, Loop(EstFailed(code)), Ok, [Ok]);
    AloneCons(sh.(fields := SetState(sh.fields, Waiting, code)), LOOP, Loop(EstUnlock), Ok, []);
  }

  // ----- connectionLoop around them

  /** Without a session the loop tries again, from a failed attempt after its pause: it waits with the code it has. */
  lemma LoopTriesAgain(sh: Shared)
    requires sh.fields.session.None? && !sh.cancelled
    ensures Alone(sh, LOOP, Loop(Recheck), [Ok, Ok] + [Ok, Ok, Ok, Ok]) ==
            Next(sh.(fields := sh.fields.(state := Waiting)), Loop(EstLock))
  {
    hide ThreadStep;
    assert [Ok, Ok] + [Ok, Ok, Ok, Ok] == [Ok] + ([Ok] + [Ok, Ok, Ok, Ok]);
    PauseSteps(sh);
    AloneCons(sh, LOOP, Loop(Recheck), Ok, [Ok] + [Ok, Ok, Ok, Ok]);
    AloneCons(sh, LOOP, Loop(Backoff), Ok, [Ok, Ok, Ok, Ok]);
    LoopAttempts(sh);
  }

  lemma PauseSteps(sh: Shared)
    requires sh.fields.session.None?
    ensures ThreadStep(sh, LOOP, Loop(Recheck), Ok) == Next(sh, Loop(Backoff))
    ensures ThreadStep(sh, LOOP, Loop(Backoff), Ok) == Next(sh, Loop(Top))
    ensures ThreadStep(sh, LOOP, Loop(LoseUnlock), Ok) == Next(sh.(op := None), Loop(Top))
  {
  }

  /** And from the start or a lost session at once. */
  lemma LoopAttempts(sh: Shared)
    requires sh.fields.session.None? && !sh.cancelled
    ensures Alone(sh, LOOP, Loop(Top), [Ok, Ok, Ok, Ok]) ==
            Next(sh.(fields := sh.fields.(state := Waiting)), Loop(EstLock))
  {
    hide ServeStep;
    hide PulseStep;
    hide HttpStep;
    hide LifecycleStep;
    hide ShotStep;
    hide TestsStep;
    var code := sh.fields.lastErrorCode;
    AloneCons(sh, LOOP, Loop(Top), Ok, [Ok, Ok, Ok]);
    AloneCons(sh, LOOP, Loop(ReadSession), Ok, [Ok, Ok]);
    AloneCons(sh, LOOP, Loop(ReadLastError), Ok, [Ok]);
    AloneCons(sh, LOOP, Loop(SetWaiting(code)), Ok, []);
  }

  lemma LoopAttemptsAfterLoss(sh: Shared)
    requires sh.op == Some(LOOP) && sh.fields.session.None? && !sh.cancelled
    ensures Alone(sh, LOOP, Loop(LoseUnlock), [Ok, Ok, Ok, Ok, Ok]) ==
            Next(sh.(op := None, fields := sh.fields.(state := Waiting)), Loop(EstLock))
  {
    hide ThreadStep;
    PauseSteps(sh);
    AloneCons(sh, LOOP, Loop(LoseUnlock), Ok, [Ok, Ok, Ok, Ok]);
    LoopAttempts(sh.(op := None));
  }

  /** With a session the loop goes on to wait for that session's end, changing nothing. */
  lemma LoopWaitsForLoss(sh: Shared)
    requires sh.fields.session.Some? && !sh.cancelled
    ensures Alone(sh, LOOP, Loop(Recheck), [Ok, Ok, Ok, Ok, Ok]) ==
            Next(sh, Loop(Select(sh.fields.session, sh.fields.generation)))
  {
    hide ServeStep;
    hide PulseStep;
    hide HttpStep;
    hide LifecycleStep;
    hide ShotStep;
    hide TestsStep;
    var handle, gen := sh.fields.session, sh.fields.generation;
    AloneCons(sh, LOOP, Loop(Recheck), Ok, [Ok, Ok, Ok, Ok]);
    AloneCons(sh, LOOP, Loop(Top), Ok, [Ok, Ok, Ok]);
    AloneCons(sh, LOOP, Loop(ReadSession), Ok, [Ok, Ok]);
    AloneCons(sh, LOOP, Loop(ReadHandle), Ok, [Ok]);
    AloneCons(sh, LOOP, Loop(ReadGeneration(handle)), Ok, []);
  }

  /** A session's end makes the loop report the loss of the generation it waited for, unless the context has ended. */
  lemma LoopHearsLoss(sh: Shared, sid: Sid, gen: nat)
    ensures Alone(sh, LOOP, Loop(Select(Some(sid), gen)), [Ok, Ok]) ==
            Next(sh, Loop(if sh.cancelled then LoopReturned else LoseLock(gen)))
  {
    AloneCons(sh, LOOP, Loop(Select(Some(sid), gen)), Ok, [Ok]);
    AloneCons(sh, LOOP, Loop(DoneCheck(gen)), Ok, []);
  }

  /** Wherever it waits or looks, the loop ends with the context and not before. */
  lemma LoopEndsWithContext(sh: Shared, sid: Sid, gen: nat)
    ensures Alone(sh, LOOP, Loop(Backoff), [Timeout]) ==
            if sh.cancelled then Next(sh, Loop(LoopReturned)) else Blocked
    ensures Alone(sh, LOOP, Loop(Select(Some(sid), gen)), [Timeout]) ==
            if sh.cancelled then Next(sh, Loop(LoopReturned)) else Blocked
    ensures Alone(sh, LOOP, Loop(Top), [Ok]) == Next(sh, Loop(if sh.cancelled then LoopReturned else ReadSession))
  {
    AloneCons(sh, LOOP, Loop(Backoff), Timeout, []);
    AloneCons(sh, LOOP, Loop(Select(Some(sid), gen)), Timeout, []);
    AloneCons(sh, LOOP, Loop(Top), Ok, []);
  }

  /** The refresh's loop: a tick goes to the mutex and back, the end of the context ends it, and nothing else does. */
  lemma RefreshTicks(sh: Shared)
    ensures Alone(sh, PULSE, Pulse(Ticking), [Ok]) == Next(sh, Pulse(PulseLock))
    ensures Alone(sh, PULSE, Pulse(Ticking), [Timeout]) ==
            if sh.cancelled then Next(sh, Pulse(PulseReturned)) else Blocked
  {
    AloneCons(sh, PULSE, Pulse(Ticking), Ok, []);
    AloneCons(sh, PULSE, Pulse(Ticking), Timeout, []);
  }

  /** Serve goes on accepting until its context ends, or its listener fails and ends it. */
  lemma ServeAccepts(sh: Shared, code: string)
    ensures Alone(sh, SERVE, Serve(Accept), [Ok]) ==
            if sh.cancelled then Next(sh, Serve(MarkStopping)) else Blocked
    ensures !sh.cancelled ==>
              Alone(sh, SERVE, Serve(Accept), [Err(code)]) == Next(sh.(cancelled := true), Serve(ServeFailed))
  {
    AloneCons(sh, SERVE, Serve(Accept), Ok, []);
    AloneCons(sh, SERVE, Serve(Accept), Err(code), []);
  }

  /** An HTTP request that comes too late, or asks for an invalid coordinate, is over without a reply and a change. */
  lemma RefusedRefines(sh: Shared, t: Tid, request: HttpRequest)
    requires sh.cancelled || (request.Put? && !ValidLocation(request.c))
    ensures Alone(sh, t, Http(OwnerCheck(request)), [Ok]) == Next(sh, Http(Responded))
  {
    AloneCons(sh, t, Http(OwnerCheck(request)), Ok, []);
  }

  /** install validates its bundle first and without the lock. */
  lemma ValidationRefines(sh: Shared, t: Tid, ok: bool)
    ensures Alone(sh, t, Lifecycle(Install, Validate), [if ok then Ok else Err("")]) ==
            Next(sh, Lifecycle(Install, if ok then OpLock else OpReturned))
  {
    AloneCons(sh, t, Lifecycle(Install, Validate), if ok then Ok else Err(""), []);
  }

  /** The steps of loseSession do what Daemon.LoseSession promises. */
  lemma LoseRefines(sh: Shared, gen: nat)
    requires sh.op.None? && sh.loc.None?
    ensures var stale := sh.fields.session.None? || sh.fields.generation != gen;
            var out := Alone(sh, LOOP, Loop(LoseLock(gen)), if stale then [Ok, Ok, Ok] else [Ok, Ok, Ok, Ok, Ok]);
            && out.Next?
            && out.pc == Loop(Top)
            && out.sh.op.None?
            && out.sh.fields == LoseEffect(sh.fields, gen)
            && (stale ==> out.sh.location == sh.location && out.sh.hist == sh.hist)
            && (!stale ==>
                  && out.sh.location == TellLost(sh.location)
                  && out.sh.hist.closeLog == sh.hist.closeLog + [sh.fields.session.value])
  {
    hide ServeStep;
    hide PulseStep;
    hide HttpStep;
    hide LifecycleStep;
    hide ShotStep;
    hide TestsStep;
    hide TellLost;
    var taken := sh.(op := Some(LOOP));
    if sh.fields.session.None? || sh.fields.generation != gen {
      AloneCons(sh, LOOP, Loop(LoseLock(gen)), Ok, [Ok, Ok]);
      AloneCons(taken, LOOP, Loop(LoseClear(gen)), Ok, [Ok]);
      AloneCons(taken, LOOP, Loop(LoseUnlock), Ok, []);
    } else {
      var sid := sh.fields.session.value;
      AloneCons(sh, LOOP, Loop(LoseLock(gen)), Ok, [Ok, Ok, Ok, Ok]);
      AloneCons(taken, LOOP, Loop(LoseClear(gen)), Ok, [Ok, Ok, Ok]);
      var h := taken.hist.(lossLog := taken.hist.lossLog + [gen], losing := BeforeNotice(sid));
      LoseNoticeRefines(taken.(fields := Lose(sh.fields), hist := h), sid);
    }
  }

  lemma LoseNoticeRefines(sh: Shared, sid: Sid)
    requires sh.loc.None?
    ensures var out := Alone(sh, LOOP, Loop(LoseLocation(sid)), [Ok, Ok, Ok]);
            && out.Next?
            && out.pc == Loop(Top)
            && out.sh.op.None?
            && out.sh.fields == sh.fields
            && out.sh.location == TellLost(sh.location)
            && out.sh.hist.closeLog == sh.hist.closeLog + [sid]
  {
    hide ServeStep;
    hide PulseStep;
    hide HttpStep;
    hide LifecycleStep;
    hide ShotStep;
    hide TestsStep;
    hide TellLost;
    hide AloneClear;
    var told := sh.(location := TellLost(sh.location), hist := sh.hist.(losing := AfterNotice(sid)));
    AloneCons(sh, LOOP, Loop(LoseLocation(sid)), Ok, [Ok, Ok]);
    LoseCloseRefines(told, sid);
  }

  lemma LoseCloseRefines(sh: Shared, sid: Sid)
    ensures var out := Alone(sh, LOOP, Loop(LoseClose(sid)), [Ok, Ok]);
            && out.Next?
            && out.pc == Loop(Top)
            && out.sh.op.None?
            && out.sh.fields == sh.fields
            && out.sh.location == sh.location
            && out.sh.hist.closeLog == sh.hist.closeLog + [sid]
  {
    hide ServeStep;
    hide PulseStep;
    hide HttpStep;
    hide LifecycleStep;
    hide ShotStep;
    hide TestsStep;
    AloneCons(sh, LOOP, Loop(LoseClose(sid)), Ok, [Ok]);
    var closed := sh.(hist := sh.hist.(closeLog := sh.hist.closeLog + [sid], losing := NotLosing));
    AloneCons(closed, LOOP, Loop(LoseUnlock), Ok, []);
  }

  /** The steps of install and uninstall do what Daemon.Operate promises, and touch nothing but the fields. */
  lemma OperateRefines(sh: Shared, t: Tid, kind: Kind, ok: bool)
    requires sh.op.None?
    ensures var c := if ok then Ok else Err("");
            var choices := if sh.fields.session.None? then [Ok, Ok, Ok] else [Ok, Ok, Ok, c, Ok, Ok];
            Alone(sh, t, Lifecycle(kind, OpLock), choices) ==
            Next(sh.(fields := OperateEffect(sh.fields, kind, ok)), Lifecycle(kind, OpReturned))
  {
    var taken := sh.(op := Some(t));
    if sh.fields.session.None? {
      AloneCons(sh, t, Lifecycle(kind, OpLock), Ok, [Ok, Ok]);
      AloneCons(taken, t, Lifecycle(kind, OpRead), Ok, [Ok]);
      AloneCons(taken, t, Lifecycle(kind, OpUnlock), Ok, []);
    } else {
      var c := if ok then Ok else Err("");
      AloneCons(sh, t, Lifecycle(kind, OpLock), Ok, [Ok, Ok, c, Ok, Ok]);
      AloneCons(taken, t, Lifecycle(kind, OpRead), Ok, [Ok, c, Ok, Ok]);
      OperateHeldRefines(taken, t, kind, ok);
    }
  }

  lemma OperateHeldRefines(sh: Shared, t: Tid, kind: Kind, ok: bool)
    requires sh.fields.session.Some?
    ensures var c := if ok then Ok else Err("");
            Alone(sh, t, Lifecycle(kind, OpLabel(sh.fields.session.value)), [Ok, c, Ok, Ok]) ==
            Next(sh.(op := None, fields := OperateEffect(sh.fields, kind, ok)), Lifecycle(kind, OpReturned))
  {
    var c := if ok then Ok else Err("");
    var sid := sh.fields.session.value;
    AloneCons(sh, t, Lifecycle(kind, OpLabel(sid)), Ok, [c, Ok, Ok]);
    var busy := sh.(fields := SetState(sh.fields, BusyLabel(kind), ""));
    AloneCons(busy, t, Lifecycle(kind, OpCall(sid)), c, [Ok, Ok]);
    AloneCons(busy, t, Lifecycle(kind, if ok then OpDone else OpFailed), Ok, [Ok]);
    AloneCons(busy.(fields := OperateEffect(sh.fields, kind, ok)), t, Lifecycle(kind, OpUnlock), Ok, []);
  }

  // ----- Whole requests, screenshots, test runs and the end of Serve

  lemma {:induction false} AloneAppend(sh: Shared, t: Tid, pc: Pc, a: seq<Choice>, b: seq<Choice>, mid: Out)
    requires mid == Alone(sh, t, pc, a) && mid.Next?
    ensures Alone(sh, t, pc, a + b) == Alone(mid.sh, t, mid.pc, b)
    decreases |a|
  {
    hide ThreadStep;
    if a == [] {
      assert a + b == b;
    } else {
      var out := ThreadStep(sh, t, pc, a[0]);
      AloneAppend(out.sh, t, out.pc, a[1..], b, mid);
      assert (a + b)[1..] == a[1..] + b;
    }
  }

  /** The state of a request that has replied with what it finds. */
  function RepliedNow(sh: Shared, t: Tid, request: HttpRequest, ok: bool): Out {
    var l := sh.location;
    var reply := HttpReply(t, request, ok, |l.log|, |l.log|, l.phase, l.target, sh.fields.session.Some?);
    Next(sh.(hist := sh.hist.(replies := sh.hist.replies + [reply])), Http(Responded))
  }

  lemma SnapshotRefines(sh: Shared, t: Tid, request: HttpRequest, ok: bool)
    requires sh.loc.None?
    ensures Alone(sh, t, Ended(sh, request, ok).pc, [Ok, Ok]) == RepliedNow(sh, t, request, ok)
  {
    var n := |sh.location.log|;
    AloneCons(sh, t, Http(StateRead(request, ok, n)), Ok, [Ok]);
    AloneCons(sh, t, Http(StateLock(request, ok, n, sh.fields.session.Some?)), Ok, []);
  }

  /** The steps of an accepted PUT end in the state and the reply that LocationHttp.Handle promises. */
  lemma PutRefines(sh: Shared, t: Tid, at: Coord, open: OpenAnswer, outcome: Outcome)
    requires sh.loc.None? && !sh.cancelled && ValidLocation(at) && OpenFits(sh, open, true)
    ensures var done := SetDone(sh, sh.location, t, at, open, outcome);
            Alone(sh, t, Http(OwnerCheck(Put(at))), [Ok] + (SetChoices(sh.location, at, open, outcome) + [Ok, Ok])) ==
            RepliedNow(done.sh, t, Put(at), done.pc.h.ok)
  {
    var choices, done := SetChoices(sh.location, at, open, outcome), SetDone(sh, sh.location, t, at, open, outcome);
    AloneCons(sh, t, Http(OwnerCheck(Put(at))), Ok, choices + [Ok, Ok]);
    hide Alone;
    hide SetChoices;
    SetRefines(sh, t, at, open, outcome);
    AloneAppend(sh, t, Http(Setting(at, SetLock)), choices, [Ok, Ok], done);
    SnapshotRefines(done.sh, t, Put(at), done.pc.h.ok);
  }

  /** The same for an accepted DELETE. */
  lemma DeleteRefines(sh: Shared, t: Tid, open: OpenAnswer, outcome: Outcome)
    requires sh.loc.None? && !sh.cancelled && DriversAccounted(sh.location) && OpenFits(sh, open, true)
    ensures var acked := (sh.location.driver.Some? || open.Opens?) && outcome.Acknowledged?;
            Alone(sh, t, Http(OwnerCheck(Delete)), [Ok] + (ClearChoices(sh.location, open, outcome) + [Ok, Ok])) ==
            RepliedNow(sh.(location := ClearEffect(sh.location, open, outcome)), t, Delete, acked)
  {
    var choices := ClearChoices(sh.location, open, outcome);
    var cleared := sh.(location := ClearEffect(sh.location, open, outcome));
    var acked := (sh.location.driver.Some? || open.Opens?) && outcome.Acknowledged?;
    AloneCons(sh, t, Http(OwnerCheck(Delete)), Ok, choices + [Ok, Ok]);
    hide Alone;
    hide AloneClear;
    hide ClearChoices;
    hide ClearEffect;
    ClearRefines(sh, t, true, open, outcome);
    RequestClears(sh, t, ClearLock, choices);
    AloneAppend(sh, t, Http(Clearing(ClearLock)), choices, [Ok, Ok], Ended(cleared, Delete, acked));
    SnapshotRefines(cleared, t, Delete, acked);
  }

  /** And for a GET. */
  lemma GetRefines(sh: Shared, t: Tid)
    requires sh.loc.None? && !sh.cancelled
    ensures Alone(sh, t, Http(OwnerCheck(Get)), [Ok] + [Ok, Ok]) == RepliedNow(sh, t, Get, true)
  {
    AloneCons(sh, t, Http(OwnerCheck(Get)), Ok, [Ok, Ok]);
    SnapshotRefines(sh, t, Get, true);
  }

  /** A driver that turns out not to open, after the session was found, is a failure like one without a session. */
  lemma LateOpenFails(sh: Shared, t: Tid, at: Coord, sid: Sid, owned: bool)
    ensures Alone(sh, t, Http(Setting(at, SetOpening(sid))), [Err("")]) ==
            Ended(sh.(loc := None, location := Fail(sh.location, CannotOpen)), Put(at), false)
    ensures AloneClear(sh, t, ClearOpening(sid), owned, [Err("")]) ==
            ClearEnd(sh.(loc := None, location := Fail(sh.location, CannotReach)), false)
  {
    AloneCons(sh, t, Http(Setting(at, SetOpening(sid))), Err(""), []);
    ClearCons(sh, t, ClearOpening(sid), owned, Err(""), []);
  }

  /** A screenshot leaves the fields alone and reports its session's generation, as Daemon.Screenshot promises. */
  lemma ShotRefines(sh: Shared, t: Tid, ok: bool)
    requires sh.op.None?
    ensures Alone(sh, t, Shot(ShotTry), [Err("")]) == Next(sh, Shot(ShotReturned))
    ensures sh.fields.session.None? ==> Alone(sh, t, Shot(ShotTry), [Ok, Ok, Ok]) == Next(sh, Shot(ShotReturned))
    ensures sh.fields.session.Some? && !ok ==>
              Alone(sh, t, Shot(ShotTry), [Ok, Ok, Err(""), Ok]) == Next(sh, Shot(ShotReturned))
    ensures sh.fields.session.Some? && ok ==>
              var report := Report(sh.fields.session.value, sh.fields.generation);
              Alone(sh, t, Shot(ShotTry), [Ok, Ok, Ok, Ok, Ok]) ==
              Next(sh.(hist := sh.hist.(reports := sh.hist.reports + [report])), Shot(ShotReturned))
  {
    var taken := sh.(op := Some(t));
    AloneCons(sh, t, Shot(ShotTry), Err(""), []);
    if sh.fields.session.None? {
      AloneCons(sh, t, Shot(ShotTry), Ok, [Ok, Ok]);
      AloneCons(taken, t, Shot(ShotRead), Ok, [Ok]);
      AloneCons(taken, t, Shot(ShotUnlock), Ok, []);
    } else if !ok {
      AloneCons(sh, t, Shot(ShotTry), Ok, [Ok, Err(""), Ok]);
      AloneCons(taken, t, Shot(ShotRead), Ok, [Err(""), Ok]);
      AloneCons(taken, t, Shot(ShotCall(sh.fields.session.value)), Err(""), [Ok]);
      AloneCons(taken, t, Shot(ShotUnlock), Ok, []);
    } else {
      var sid := sh.fields.session.value;
      AloneCons(sh, t, Shot(ShotTry), Ok, [Ok, Ok, Ok, Ok]);
      AloneCons(taken, t, Shot(ShotRead), Ok, [Ok, Ok, Ok]);
      AloneCons(taken, t, Shot(ShotCall(sid)), Ok, [Ok, Ok]);
      AloneCons(taken, t, Shot(ShotReport(sid)), Ok, [Ok]);
      var report := Report(sid, sh.fields.generation);
      AloneCons(taken.(hist := sh.hist.(reports := sh.hist.reports + [report])), t, Shot(ShotUnlock), Ok, []);
    }
  }

  /** So does a test run, whose generation is read before the device is asked, as TestRuns.RunTests promises. */
  lemma TestsRefine(sh: Shared, t: Tid)
    requires sh.op.None?
    ensures Alone(sh, t, Tests(TestsTry), [Err("")]) == Next(sh, Tests(TestsReturned))
    ensures sh.fields.session.None? ==> Alone(sh, t, Tests(TestsTry), [Ok, Ok, Ok]) == Next(sh, Tests(TestsReturned))
    ensures sh.fields.session.Some? ==>
              var report := Report(sh.fields.session.value, sh.fields.generation);
              Alone(sh, t, Tests(TestsTry), [Ok, Ok, Ok] + [Ok, Ok, Ok, Ok]) ==
              Next(sh.(hist := sh.hist.(reports := sh.hist.reports + [report])), Tests(TestsReturned))
  {
    var taken := sh.(op := Some(t));
    AloneCons(sh, t, Tests(TestsTry), Err(""), []);
    if sh.fields.session.None? {
      AloneCons(sh, t, Tests(TestsTry), Ok, [Ok, Ok]);
      AloneCons(taken, t, Tests(TestsRead), Ok, [Ok]);
      AloneCons(taken, t, Tests(TestsUnlock), Ok, []);
    } else {
      var sid, gen := sh.fields.session.value, sh.fields.generation;
      assert [Ok, Ok, Ok] + [Ok, Ok, Ok, Ok] == [Ok] + ([Ok] + ([Ok] + [Ok, Ok, Ok, Ok]));
      AloneCons(sh, t, Tests(TestsTry), Ok, [Ok] + ([Ok] + [Ok, Ok, Ok, Ok]));
      AloneCons(taken, t, Tests(TestsRead), Ok, [Ok] + [Ok, Ok, Ok, Ok]);
      AloneCons(taken, t, Tests(TestsPrepare(sid)), Ok, [Ok, Ok, Ok, Ok]);
      TestsRunRefines(taken, t, sid);
    }
  }

  lemma TestsRunRefines(sh: Shared, t: Tid, sid: Sid)
    ensures var report := Report(sid, sh.fields.generation);
            Alone(sh, t, Tests(TestsGeneration(sid)), [Ok, Ok, Ok, Ok]) ==
            Next(sh.(op := None, hist := sh.hist.(reports := sh.hist.reports + [report])), Tests(TestsReturned))
  {
    var gen := sh.fields.generation;
    AloneCons(sh, t, Tests(TestsGeneration(sid)), Ok, [Ok, Ok, Ok]);
    AloneCons(sh, t, Tests(TestsCall(sid, gen)), Ok, [Ok, Ok]);
    AloneCons(sh, t, Tests(TestsReport(sid, gen)), Ok, [Ok]);
    var reported := sh.hist.(reports := sh.hist.reports + [Report(sid, gen)]);
    AloneCons(sh.(hist := reported), t, Tests(TestsUnlock), Ok, []);
  }

  /** Serve's teardown closes and drops the session, as Daemon.Shutdown promises. */
  lemma TeardownRefines(sh: Shared)
    requires sh.op.None?
    ensures var held := sh.fields.session.Some?;
            var out := Alone(sh, SERVE, Serve(TearLock), if held then [Ok, Ok, Ok, Ok, Ok] else [Ok, Ok, Ok]);
            && out.Next?
            && out.pc == Serve(ServeReturned)
            && out.sh.op.None?
            && out.sh.fields == Drop(sh.fields)
            && out.sh.location == sh.location
            && out.sh.hist.closeLog == sh.hist.closeLog + (if held then [sh.fields.session.value] else [])
  {
    hide LoopStep;
    hide PulseStep;
    hide HttpStep;
    hide LifecycleStep;
    hide ShotStep;
    hide TestsStep;
    var taken := sh.(op := Some(SERVE));
    if sh.fields.session.None? {
      AloneCons(sh, SERVE, Serve(TearLock), Ok, [Ok, Ok]);
      AloneCons(taken, SERVE, Serve(TearRead), Ok, [Ok]);
      AloneCons(taken.(hist := sh.hist.(tornDown := true)), SERVE, Serve(TearUnlock), Ok, []);
    } else {
      var sid := sh.fields.session.value;
      AloneCons(sh, SERVE, Serve(TearLock), Ok, [Ok, Ok, Ok, Ok]);
      AloneCons(taken, SERVE, Serve(TearRead), Ok, [Ok, Ok, Ok]);
      AloneCons(taken, SERVE, Serve(TearClose(sid)), Ok, [Ok, Ok]);
      CloseRefines(taken.(hist := sh.hist.(closeLog := sh.hist.closeLog + [sid], tearing := true)), sid);
    }
  }

  lemma CloseRefines(sh: Shared, sid: Sid)
    ensures var out := Alone(sh, SERVE, Serve(TearDrop(sid)), [Ok, Ok]);
            && out.Next?
            && out.pc == Serve(ServeReturned)
            && out.sh.op.None?
            && out.sh.fields == Drop(sh.fields)
            && out.sh.location == sh.location
            && out.sh.hist.closeLog == sh.hist.closeLog
  {
    hide LoopStep;
    hide PulseStep;
    hide HttpStep;
    hide LifecycleStep;
    hide ShotStep;
    hide TestsStep;
    AloneCons(sh, SERVE, Serve(TearDrop(sid)), Ok, [Ok]);
    var dropped := sh.hist.(tearing := false, tornDown := true, dropped := sh.hist.dropped + 1);
    AloneCons(sh.(fields := Drop(sh.fields), hist := dropped), SERVE, Serve(TearUnlock), Ok, []);
  }

  /** Up to its teardown: Serve marks itself stopping and clears what may still be simulated. */
  lemma CleanupRefines(sh: Shared, open: OpenAnswer, outcome: Outcome) returns (choices: seq<Choice>)
    requires sh.cancelled && sh.loc.None? && DriversAccounted(sh.location) && OpenFits(sh, open, false)
    ensures var out := Alone(sh, SERVE, Serve(Accept), choices);
            && out.Next?
            && out.pc == Serve(TearLock)
            && out.sh.op == sh.op
            && out.sh.fields == SetState(sh.fields, Stopping, "")
            && out.sh.hist.closeLog == sh.hist.closeLog
            && out.sh.location ==
               if sh.location.target.Some? then ClearEffect(sh.location, open, outcome) else sh.location
  {
    var stopping := sh.(fields := SetState(sh.fields, Stopping, ""));
    choices := if sh.location.target.Some? then ClearChoices(sh.location, open, outcome) else [];
    MarkRefines(sh, choices);
    hide ClearEffect;
    if sh.location.target.Some? {
      hide Alone;
      ClearRefines(stopping, SERVE, false, open, outcome);
      ServeClears(stopping, ClearLock, choices);
    }
    choices := [Ok, Ok, Ok, Ok] + choices;
  }

  lemma MarkRefines(sh: Shared, choices: seq<Choice>)
    requires sh.cancelled && sh.loc.None?
    ensures var stopping := sh.(fields := SetState(sh.fields, Stopping, ""));
            Alone(sh, SERVE, Serve(Accept), [Ok, Ok, Ok, Ok] + choices) ==
            if sh.location.target.Some? then Alone(stopping, SERVE, Serve(ServeClear(ClearLock)), choices)
            else Alone(stopping.(hist := sh.hist.(quiesced := true)), SERVE, Serve(TearLock), choices)
  {
    hide LoopStep;
    hide PulseStep;
    hide HttpStep;
    hide LifecycleStep;
    hide ShotStep;
    hide TestsStep;
    var stopping := sh.(fields := SetState(sh.fields, Stopping, ""));
    assert [Ok, Ok, Ok, Ok] + choices == [Ok] + ([Ok] + ([Ok] + ([Ok] + choices)));
    AloneCons(sh, SERVE, Serve(Accept), Ok, [Ok] + ([Ok] + ([Ok] + choices)));
    AloneCons(sh, SERVE, Serve(MarkStopping), Ok, [Ok] + ([Ok] + choices));
    AloneCons(stopping, SERVE, Serve(SnapRead), Ok, [Ok] + choices);
    AloneCons(stopping, SERVE, Serve(SnapLock), Ok, choices);
  }

  /** The end of Serve as a whole does what Daemon.Shutdown promises. */
  lemma ShutdownRefines(sh: Shared, open: OpenAnswer, outcome: Outcome) returns (choices: seq<Choice>)
    requires sh.cancelled && sh.op.None? && sh.loc.None? && DriversAccounted(sh.location) && OpenFits(sh, open, false)
    ensures var out := Alone(sh, SERVE, Serve(Accept), choices);
            && out.Next?
            && out.pc == Serve(ServeReturned)
            && out.sh.fields == sh.fields.(state := Stopping, lastErrorCode := "", session := None)
            && out.sh.hist.closeLog ==
               sh.hist.closeLog + (if sh.fields.session.Some? then [sh.fields.session.value] else [])
            && out.sh.location ==
               if sh.location.target.Some? then ClearEffect(sh.location, open, outcome) else sh.location
  {
    hide ClearEffect;
    choices := CleanupRefines(sh, open, outcome);
    hide Alone;
    var mid := Alone(sh, SERVE, Serve(Accept), choices);
    var rest := if sh.fields.session.Some? then [Ok, Ok, Ok, Ok, Ok] else [Ok, Ok, Ok];
    TeardownRefines(mid.sh);
    AloneAppend(sh, SERVE, Serve(Accept), choices, rest, mid);
    choices := choices + rest;
  }
}
