/**
 The location operations are atomic in every interleaving: whatever the other threads do while one of them
 holds the location mutex, what it leaves behind is what the class method makes of the state it has found.
 */
module Atomicity {
  import opened Common
  import opened LocationModel
  import opened LocationSessions
  import opened Machine
  import opened Invariant
  import opened Theorems

  /** The state with a driver: the one that was held, or a new one on some session. */
  ghost predicate Reached(was: Loc, now: Loc) {
    if was.driver.Some? then now == was else exists sid :: now == Opened(was, sid)
  }

  /** In the middle of an operation that has found `was`. */
  ghost predicate Midway(was: Loc, now: Loc, pc: Pc) {
    match pc
    case Http(Setting(at, s)) =>
      if s.SetAwait? then exists held :: Reached(was, held) && held.driver.Some? && now == IssueSet(held, at)
      else now == was && was.driver.None?
    case Http(Clearing(c)) => MidClear(was, now, c)
    case Serve(ServeClear(c)) => MidClear(was, now, c)
    case Pulse(PulseAwait) => was.driver.Some? && was.phase.Live? && was.target.Some? && now == IssuePulse(was)
    case _ => false
  }

  ghost predicate MidClear(was: Loc, now: Loc, c: ClearPc) {
    if c.ClearAwait? then exists held :: Reached(was, held) && held.driver.Some? && now == IssueStop(held)
    else now == was && was.driver.None?
  }

  /** The operation's whole effect for some answers of the device. */
  ghost predicate IsEffect(was: Loc, now: Loc, pc: Pc) {
    match pc
    case Http(Setting(at, _)) => exists open, outcome :: Fresh(was, open) && now == SetEffect(was, at, open, outcome)
    case Http(Clearing(_)) => IsClearEffect(was, now)
    case Serve(ServeClear(_)) => IsClearEffect(was, now)
    case Pulse(_) => exists outcome :: now == PulseEffect(was, outcome)
    case _ => false
  }

  ghost predicate IsClearEffect(was: Loc, now: Loc) {
    DriversAccounted(was) && exists open, outcome :: Fresh(was, open) && now == ClearEffect(was, open, outcome)
  }

  /** What `open` must have answered for the driver that is held. */
  lemma OpenOf(was: Loc, held: Loc) returns (open: OpenAnswer)
    requires Reached(was, held) && held.driver.Some?
    ensures Fresh(was, open) && (was.driver.None? ==> open.Opens? && held == Opened(was, open.sid))
  {
    open := NoSession;
    if was.driver.None? {
      var sid :| held == Opened(was, sid);
      open := Opens(|was.drivers|, sid);
    }
  }

  // ----- One step

  lemma SetEnds(was: Loc, sh: Shared, t: Tid, at: Coord, s: SetPc, choice: Choice)
    requires ValidLocation(at) && !s.SetLock? && Midway(was, sh.location, Http(Setting(at, s)))
    ensures var out := SetStep(sh, t, at, s, choice);
            out.Next? ==>
              if HoldsLoc(out.pc) then Midway(was, out.sh.location, out.pc)
              else IsEffect(was, out.sh.location, Http(Setting(at, s)))
  {
    var out := SetStep(sh, t, at, s, choice);
    if s.SetAwait? {
      var held :| Reached(was, held) && held.driver.Some? && sh.location == IssueSet(held, at);
      var open := OpenOf(was, held);
      assert out.sh.location == SetEffect(was, at, open, OutcomeOf(choice));
    } else if out.Next? && HoldsLoc(out.pc) {
      if s.SetOpening? { assert Reached(was, Opened(was, s.sid)); }
    } else {
      assert Fresh(was, NoSession) && out.sh.location == SetEffect(was, at, NoSession, Acknowledged);
    }
  }

  lemma ClearEnds(was: Loc, sh: Shared, t: Tid, c: ClearPc, owned: bool, choice: Choice)
    requires DriversAccounted(was) && DriversAccounted(sh.location) && !c.ClearLock? && MidClear(was, sh.location, c)
    ensures match ClearStep(sh, t, c, owned, choice)
            case ClearBlocked => true
            case ClearMore(b, c') => MidClear(was, b.location, c')
            case ClearEnd(b, _) => IsClearEffect(was, b.location)
  {
    var out := ClearStep(sh, t, c, owned, choice);
    if c.ClearAwait? {
      var held :| Reached(was, held) && held.driver.Some? && sh.location == IssueStop(held);
      var open := OpenOf(was, held);
      if out.ClearEnd? { assert out.sh.location == ClearEffect(was, open, OutcomeOf(choice)); }
    } else if out.ClearMore? {
      if c.ClearOpening? { assert Reached(was, Opened(was, c.sid)); }
    } else {
      assert Fresh(was, NoSession) && out.sh.location == ClearEffect(was, NoSession, Acknowledged);
    }
  }

  lemma PulseEnds(was: Loc, sh: Shared, p: PulsePc, choice: Choice)
    requires p.PulseAwait? && Midway(was, sh.location, Pulse(p))
    ensures IsEffect(was, PulseStep(sh, p, choice).sh.location, Pulse(p))
  {
    assert PulseStep(sh, p, choice).sh.location == PulseEffect(was, OutcomeOf(choice));
  }

  /** The owner's next step goes on in the middle or completes the effect. */
  lemma OwnStep(was: Loc, sh: Shared, t: Tid, pc: Pc, choice: Choice)
    requires SharedInv(sh) && ThreadInv(sh, t, pc) && HoldsLoc(pc)
    requires DriversAccounted(was) && Midway(was, sh.location, pc)
    ensures var out := ThreadStep(sh, t, pc, choice);
            out.Next? ==>
              if HoldsLoc(out.pc) then Midway(was, out.sh.location, out.pc) else IsEffect(was, out.sh.location, pc)
  {
    hide IsClearEffect;
    hide MidClear;
    match pc
    case Http(Setting(at, s)) => SetEnds(was, sh, t, at, s, choice);
    case Http(Clearing(c)) => ClearEnds(was, sh, t, c, true, choice); ClearKeepsPlace(sh, t, c, true, choice);
    case Serve(ServeClear(c)) => ClearEnds(was, sh, t, c, false, choice); ClearKeepsPlace(sh, t, c, false, choice);
    case Pulse(p) => PulseEnds(was, sh, p, choice);
  }

  lemma ClearKeepsPlace(sh: Shared, t: Tid, c: ClearPc, owned: bool, choice: Choice)
    ensures var out := ClearStep(sh, t, c, owned, choice); out.ClearMore? ==> !out.c.ClearLock?
  {
  }

  /** The step that takes the mutex and keeps it. */
  lemma FirstStep(sh: Shared, t: Tid, pc: Pc, choice: Choice)
    requires ThreadInv(sh, t, pc) && !HoldsLoc(pc)
    ensures var out := ThreadStep(sh, t, pc, choice);
            out.Next? && HoldsLoc(out.pc) && out.pc != Pulse(PulsePanicked) ==>
              Midway(sh.location, out.sh.location, out.pc)
  {
    hide LoopStep;
    hide ServeStep;
    hide HttpStep;
    match pc
    case Loop(l) => LoopTakesNone(sh, l, choice);
    case Serve(v) => ServeTakes(sh, v, choice);
    case Http(h) => HttpTakes(sh, t, h, choice);
    case _ =>
  }

  lemma LoopTakesNone(sh: Shared, l: LoopPc, choice: Choice)
    ensures var out := LoopStep(sh, l, choice); out.Next? ==> !HoldsLoc(out.pc)
  {
  }

  lemma ServeTakes(sh: Shared, v: ServePc, choice: Choice)
    requires !HoldsLoc(Serve(v))
    ensures var out := ServeStep(sh, v, choice);
            out.Next? && HoldsLoc(out.pc) ==> Midway(sh.location, out.sh.location, out.pc)
  {
    if sh.location.driver.Some? { assert Reached(sh.location, sh.location); }
  }

  lemma HttpTakes(sh: Shared, t: Tid, h: HttpPc, choice: Choice)
    requires !HoldsLoc(Http(h))
    ensures var out := HttpStep(sh, t, h, choice);
            out.Next? && HoldsLoc(out.pc) ==> Midway(sh.location, out.sh.location, out.pc)
  {
    if sh.location.driver.Some? { assert Reached(sh.location, sh.location); }
  }

  // ----- Runs

  /** From the moment k at which t took the mutex up to now nobody else has touched the state. */
  ghost predicate OwnedSince(acts: seq<Action>, t: Tid, k: nat)
    requires Run(acts).Some?
  {
    && k < |acts|
    && acts[k].Step? && acts[k].t == t
    && StateAt(acts, k).sh.loc.None?
    && (forall j :: k < j <= |acts| ==> StateAt(acts, j).sh.loc == Some(t))
    && t in Run(acts).value.pcs
    && Midway(StateAt(acts, k).sh.location, Run(acts).value.sh.location, Run(acts).value.pcs[t])
  }

  lemma OwnedLonger(acts: seq<Action>, t: Tid, k: nat)
    requires Run(acts).Some? && acts != [] && OwnedSince(acts[..|acts| - 1], t, k)
    requires Run(acts).value.sh.loc == Some(t) && t in Run(acts).value.pcs
    requires Midway(StateAt(acts[..|acts| - 1], k).sh.location, Run(acts).value.sh.location, Run(acts).value.pcs[t])
    ensures OwnedSince(acts, t, k)
  {
    hide Run;
    hide StateAt;
    hide Midway;
    PrefixRuns(acts, |acts| - 1);
    forall j | k <= j < |acts| ensures StateAt(acts, j) == StateAt(acts[..|acts| - 1], j) {
      StateAtFront(acts, j);
    }
    StateAtEnd(acts);
  }

  lemma TakenNow(acts: seq<Action>, t: Tid)
    requires Run(acts).Some? && acts != []
    requires StateAt(acts, |acts| - 1).sh.loc != Some(t) && Run(acts).value.sh.loc == Some(t)
    ensures OwnedSince(acts, t, |acts| - 1)
  {
    hide Run;
    hide StateAt;
    hide Midway;
    StateAtEnd(acts);
    StateAtSteps(acts, |acts| - 1);
    InvAt(acts, |acts| - 1);
    TakenBy(StateAt(acts, |acts| - 1), acts[|acts| - 1], t);
  }

  lemma TakenBy(s: State, a: Action, t: Tid)
    requires Inv(s) && Apply(s, a).Some? && s.sh.loc != Some(t) && Apply(s, a).value.sh.loc == Some(t)
    ensures a.Step? && a.t == t && s.sh.loc.None? && t in Apply(s, a).value.pcs
    ensures Midway(s.sh.location, Apply(s, a).value.sh.location, Apply(s, a).value.pcs[t])
  {
    hide Midway;
    hide SharedInv;
    hide ThreadStep;
    if a.Step? {
      StepOwes(s.sh, a.t, s.pcs[a.t], a.choice);
      if a.t == t && s.sh.loc.None? { TakesLocation(s.sh, t, s.pcs[t], a.choice); }
    }
  }

  lemma TakesLocation(sh: Shared, t: Tid, pc: Pc, choice: Choice)
    requires SharedInv(sh) && ThreadInv(sh, t, pc) && sh.loc.None?
    ensures var out := ThreadStep(sh, t, pc, choice);
            out.Next? && out.sh.loc == Some(t) ==> Midway(sh.location, out.sh.location, out.pc)
  {
    StepOwes(sh, t, pc, choice);
    FirstStep(sh, t, pc, choice);
    hide Midway;
    hide ThreadStep;
    hide SharedInv;
  }

  /** Whoever owns the mutex has owned it since it took it, and is in the middle of one operation. */
  lemma {:induction false} Owned(acts: seq<Action>, t: Tid) returns (k: nat)
    requires Run(acts).Some? && Run(acts).value.sh.loc == Some(t)
    ensures OwnedSince(acts, t, k)
  {
    var front, a := acts[..|acts| - 1], acts[|acts| - 1];
    var s := Run(front).value;
    if s.sh.loc == Some(t) {
      k := Owned(front, t);
      InvAt(front, k);
      InvAlways(front);
      StaysMidway(s, a, t, StateAt(front, k).sh.location);
      OwnedLonger(acts, t, k);
    } else {
      k := |front|;
      StateAtFront(acts, |front|);
      StateAtEnd(front);
      TakenNow(acts, t);
    }
  }

  lemma StaysMidway(s: State, a: Action, t: Tid, was: Loc)
    requires Inv(s) && Apply(s, a).Some? && t in s.pcs && s.sh.loc == Some(t)
    requires DriversAccounted(was) && Midway(was, s.sh.location, s.pcs[t])
    requires Apply(s, a).value.sh.loc == Some(t)
    ensures t in Apply(s, a).value.pcs
    ensures Midway(was, Apply(s, a).value.sh.location, Apply(s, a).value.pcs[t])
  {
    if a.Step? {
      assert ThreadInv(s.sh, t, s.pcs[t]);
      StepOwes(s.sh, a.t, s.pcs[a.t], a.choice);
      if a.t == t { OwnStep(was, s.sh, t, s.pcs[t], a.choice); }
      hide Midway;
      hide ThreadStep;
      hide SharedInv;
    }
  }

  /**
   In every run: when a thread gives the mutex back, the state is what one set, clear or refresh makes of the
   state found when it was taken, for some answers of the device.
   */
  lemma OperationIsAtomic(acts: seq<Action>, t: Tid) returns (k: nat)
    requires Run(acts).Some? && acts != []
    requires Run(acts[..|acts| - 1]).value.sh.loc == Some(t) && Run(acts).value.sh.loc != Some(t)
    ensures OwnedSince(acts[..|acts| - 1], t, k)
    ensures IsEffect(StateAt(acts[..|acts| - 1], k).sh.location, Run(acts).value.sh.location,
                     Run(acts[..|acts| - 1]).value.pcs[t])
  {
    var front, a := acts[..|acts| - 1], acts[|acts| - 1];
    k := Owned(front, t);
    InvAt(front, k);
    InvAlways(front);
    GivesBack(Run(front).value, a, t, StateAt(front, k).sh.location);
  }

  lemma GivesBack(s: State, a: Action, t: Tid, was: Loc)
    requires Inv(s) && Apply(s, a).Some? && t in s.pcs && s.sh.loc == Some(t)
    requires DriversAccounted(was) && Midway(was, s.sh.location, s.pcs[t])
    requires Apply(s, a).value.sh.loc != Some(t)
    ensures IsEffect(was, Apply(s, a).value.sh.location, s.pcs[t])
  {
    assert a.Step?;
    StepOwes(s.sh, a.t, s.pcs[a.t], a.choice);
    assert ThreadInv(s.sh, t, s.pcs[t]);
    assert a.t == t;
    OwnStep(was, s.sh, t, s.pcs[t], a.choice);
    hide Midway;
    hide IsEffect;
    hide ThreadStep;
    hide SharedInv;
  }
}
