/** The watch and the daemon end to end: what a watch of one run of the daemon may conclude. */
module WatchDaemon {
  import opened Common
  import opened DaemonFields
  import opened Machine
  import opened Invariant
  import opened Progress
  import opened Theorems
  import opened Watch

  /** One reading: after how many of the run's actions it was taken, and the error if it was not answered. */
  datatype Look = Look(at: nat, failure: Option<string>)

  predicate LooksInto(acts: seq<Action>, looks: seq<Look>) {
    && (forall i :: 0 <= i < |looks| ==> looks[i].at <= |acts|)
    && forall i, j :: 0 <= i <= j < |looks| ==> looks[i].at <= looks[j].at
  }

  function ReplyOf(f: Fields): Reply {
    Reply(f.state, f.generation, f.sessionLosses, f.installCount, f.uninstallCount, f.lastErrorCode)
  }

  function Readings(acts: seq<Action>, looks: seq<Look>): (r: seq<Reading>)
    requires Run(acts).Some? && LooksInto(acts, looks)
    ensures |r| == |looks|
    ensures forall i :: 0 <= i < |r| ==> (r[i].Answered? <==> looks[i].failure.None?)
  {
    seq(|looks|, i requires 0 <= i < |looks| =>
      if looks[i].failure.Some? then Unanswered(looks[i].failure.value, "")
      else Answered(ReplyOf(StateAt(acts, looks[i].at).sh.fields)))
  }

  function LossesAt(acts: seq<Action>, k: nat): nat
    requires Run(acts).Some? && k <= |acts|
  {
    StateAt(acts, k).sh.fields.sessionLosses
  }

  lemma LossStepAt(acts: seq<Action>, k: nat)
    requires Run(acts).Some? && k < |acts|
    ensures LossesAt(acts, k) <= LossesAt(acts, k + 1)
    ensures LossesAt(acts, k) != LossesAt(acts, k + 1) ==> IsLossStep(StateAt(acts, k), acts[k])
  {
    hide Apply;
    StateAtSteps(acts, k);
    InvAt(acts, k);
    ActionProgress(StateAt(acts, k), acts[k]);
  }

  lemma {:induction false} LossesGrow(acts: seq<Action>, i: nat, j: nat)
    requires Run(acts).Some? && i <= j <= |acts|
    ensures LossesAt(acts, i) <= LossesAt(acts, j)
    decreases j
  {
    if i < j {
      LossesGrow(acts, i, j - 1);
      LossStepAt(acts, j - 1);
    }
  }

  lemma {:induction false} LossBetween(acts: seq<Action>, i: nat, j: nat) returns (k: nat)
    requires Run(acts).Some? && i <= j <= |acts| && LossesAt(acts, i) < LossesAt(acts, j)
    ensures i <= k < j && IsLossStep(StateAt(acts, k), acts[k]) && LossesAt(acts, k) < LossesAt(acts, k + 1)
    decreases j
  {
    if LossesAt(acts, j - 1) < LossesAt(acts, j) {
      k := j - 1;
      LossStepAt(acts, k);
    } else {
      LossStepAt(acts, j - 1);
      k := LossBetween(acts, i, j - 1);
    }
  }

  /** Action k takes a session away, after the first answered reading and before reading c. */
  predicate LostBefore(acts: seq<Action>, looks: seq<Look>, c: nat, b: nat, k: nat)
    requires Run(acts).Some? && LooksInto(acts, looks)
  {
    && b < |looks| && c < |looks|
    && FirstAnswer(Readings(acts, looks), b)
    && looks[b].at <= k < looks[c].at
    && IsLossStep(StateAt(acts, k), acts[k])
    && LossesAt(acts, k) < LossesAt(acts, k + 1)
  }

  /**
   Reading w was answered while a session was held, before shutdown; action k took a session away after it, and
   reading i was answered after that.
   */
  predicate WarmThenLost(acts: seq<Action>, looks: seq<Look>, w: nat, k: nat, i: nat)
    requires Run(acts).Some? && LooksInto(acts, looks)
  {
    && w < i < |looks|
    && Readings(acts, looks)[w].Answered?
    && StateAt(acts, looks[w].at).sh.fields.session.Some?
    && StateAt(acts, looks[w].at).sh.fields.state != Stopping
    && Readings(acts, looks)[i].Answered?
    && looks[w].at <= k < looks[i].at
    && LossesAt(acts, k) < LossesAt(acts, k + 1)
  }

  /** A cold reading is never a false alarm: loseSession took a session between the first answer and it. */
  lemma ColdMeansLoss(acts: seq<Action>, looks: seq<Look>, c: nat)
    requires Run(acts).Some? && LooksInto(acts, looks)
    requires CutAt(Readings(acts, looks), c) && c < |looks|
    ensures exists b: nat, k: nat :: LostBefore(acts, looks, c, b, k)
  {
    hide Readings;
    hide LossesAt;
    hide IsLossStep;
    var readings := Readings(acts, looks);
    var b: nat :|
      FirstAnswer(readings, b) && b <= c && readings[c].reply.sessionLosses > readings[b].reply.sessionLosses;
    ReadingShows(acts, looks, b);
    ReadingShows(acts, looks, c);
    var k := LossBetween(acts, looks[b].at, looks[c].at);
    assert LostBefore(acts, looks, c, b, k);
  }

  /** Until shutdown an answer is warm exactly when a session is held. */
  lemma WarmExactlyWithSession(acts: seq<Action>)
    requires Run(acts).Some? && !TornDown(Run(acts).value) && Run(acts).value.sh.fields.state != Stopping
    ensures IsWarm(ReplyOf(Run(acts).value.sh.fields)) <==> Run(acts).value.sh.fields.session.Some?
  {
    hide Run;
    LabelAgreesWithSession(acts);
    GenerationsAreLossesPlusHeld(acts);
  }

  lemma WarmWithSession(acts: seq<Action>, k: nat)
    requires Run(acts).Some? && k <= |acts|
    requires StateAt(acts, k).sh.fields.session.Some? && StateAt(acts, k).sh.fields.state != Stopping
    ensures IsWarm(ReplyOf(StateAt(acts, k).sh.fields))
  {
    hide IsWarm;
    hide ReplyOf;
    PrefixRuns(acts, k);
    HeldIsNotTornDown(acts[..k]);
    WarmExactlyWithSession(acts[..k]);
  }

  lemma HeldIsNotTornDown(acts: seq<Action>)
    requires Run(acts).Some? && Run(acts).value.sh.fields.session.Some?
    ensures !TornDown(Run(acts).value)
  {
    hide Run;
    InvAlways(acts);
    var s := Run(acts).value;
    assert ThreadInv(s.sh, SERVE, s.pcs[SERVE]);
  }

  /** And a cold reading comes only where an answer was taken while a session was held, or after teardown. */
  lemma ColdMeansWarm(acts: seq<Action>, looks: seq<Look>, c: nat)
    requires Run(acts).Some? && LooksInto(acts, looks)
    requires CutAt(Readings(acts, looks), c) && c < |looks|
    ensures exists w: nat :: w <= c && WarmLook(acts, looks, w)
  {
    hide Readings;
    hide IsWarm;
    hide Run;
    var readings := Readings(acts, looks);
    var w: nat :| w <= c && w < |readings| && readings[w].Answered? && IsWarm(readings[w].reply);
    ReadingShows(acts, looks, w);
    if !TornDown(StateAt(acts, looks[w].at)) && StateAt(acts, looks[w].at).sh.fields.state != Stopping {
      WarmAt(acts, looks[w].at);
    }
    StoppingIsNotWarm(StateAt(acts, looks[w].at).sh.fields);
    assert WarmLook(acts, looks, w);
  }

  predicate WarmLook(acts: seq<Action>, looks: seq<Look>, w: nat)
    requires Run(acts).Some? && LooksInto(acts, looks)
  {
    && w < |looks|
    && Readings(acts, looks)[w].Answered?
    && (StateAt(acts, looks[w].at).sh.fields.session.Some? || TornDown(StateAt(acts, looks[w].at)))
  }

  lemma WarmAt(acts: seq<Action>, k: nat)
    requires Run(acts).Some? && k <= |acts|
    requires !TornDown(StateAt(acts, k)) && StateAt(acts, k).sh.fields.state != Stopping
    ensures IsWarm(ReplyOf(StateAt(acts, k).sh.fields)) <==> StateAt(acts, k).sh.fields.session.Some?
  {
    hide IsWarm;
    hide ReplyOf;
    PrefixRuns(acts, k);
    WarmExactlyWithSession(acts[..k]);
  }

  lemma StoppingIsNotWarm(f: Fields)
    ensures f.state == Stopping ==> !IsWarm(ReplyOf(f))
  {
  }

  lemma ReadingShows(acts: seq<Action>, looks: seq<Look>, i: nat)
    requires Run(acts).Some? && LooksInto(acts, looks) && i < |looks| && Readings(acts, looks)[i].Answered?
    ensures Readings(acts, looks)[i].reply == ReplyOf(StateAt(acts, looks[i].at).sh.fields)
    ensures Readings(acts, looks)[i].reply.sessionLosses == LossesAt(acts, looks[i].at)
  {
  }

  /**
   And no loss goes unreported: once an answer was taken while a session was held, and a session was lost
   after that, the next answer is cold, whatever generation is active by then, so the watch has ended by that reading.
   */
  lemma LossEndsTheWatch(acts: seq<Action>, looks: seq<Look>, w: nat, k: nat, i: nat, c: nat)
    requires Run(acts).Some? && LooksInto(acts, looks) && WarmThenLost(acts, looks, w, k, i)
    requires CutAt(Readings(acts, looks), c)
    ensures ColdAt(Readings(acts, looks), i) && c <= i
  {
    hide Readings;
    hide LossesAt;
    hide IsWarm;
    var readings := Readings(acts, looks);
    var b := FirstOf(readings, w);
    LossesGrow(acts, looks[b].at, looks[w].at);
    LossesGrow(acts, looks[w].at, k);
    LossesGrow(acts, k + 1, looks[i].at);
    ReadingShows(acts, looks, b);
    ReadingShows(acts, looks, i);
    ReadingShows(acts, looks, w);
    WarmWithSession(acts, looks[w].at);
    assert FirstAnswer(readings, b) && b <= i;
    assert WarmBy(readings, i);
  }

  lemma {:induction false} FirstOf(readings: seq<Reading>, w: nat) returns (b: nat)
    requires w < |readings| && readings[w].Answered?
    ensures b <= w && FirstAnswer(readings, b)
  {
    b := 0;
    while readings[b].Unanswered?
      invariant 0 <= b <= w
      invariant forall j :: 0 <= j < b ==> readings[j].Unanswered?
      decreases w - b
    {
      b := b + 1;
    }
  }

  /** Without a loss the watch never ends by itself. */
  lemma NoLossNoCold(acts: seq<Action>, looks: seq<Look>, c: nat)
    requires Run(acts).Some? && LooksInto(acts, looks) && CutAt(Readings(acts, looks), c)
    requires forall k: nat :: k < |acts| ==> LossesAt(acts, k) == LossesAt(acts, k + 1)
    ensures c == |looks|
  {
    if c < |looks| {
      ColdMeansLoss(acts, looks, c);
    }
  }

  predicate EndsCold(events: seq<Emission>) {
    events != [] && events[|events| - 1].Cold?
  }

  /**
   A watch of one run of the daemon, end to end. It emits a cold event at most once and last; that event shows
   the daemon after a session was lost; and if one was lost after an answer that was taken while a session was
   held, it is emitted no later than at the next answer.
   */
  method WatchRun(acts: seq<Action>, looks: seq<Look>) returns (events: seq<Emission>, ghost cut: nat)
    requires Run(acts).Some? && LooksInto(acts, looks)
    ensures cut <= |looks| && (EndsCold(events) <==> cut < |looks|)
    ensures forall i :: 0 <= i < |events| - 1 ==> !events[i].Cold?
    ensures EndsCold(events) ==>
              && looks[cut].at <= |acts|
              && events[|events| - 1] ==
                 Cold(ReplyOf(StateAt(acts, looks[cut].at).sh.fields).(lastErrorCode := "session_lost"))
              && exists b: nat, k: nat :: LostBefore(acts, looks, cut, b, k)
    ensures forall w: nat, k: nat, i: nat :: WarmThenLost(acts, looks, w, k, i) ==> EndsCold(events) && cut <= i
  {
    hide Readings;
    hide Run;
    hide LostBefore;
    hide WarmThenLost;
    var error;
    error, events, cut := WatchStatus(true, Readings(acts, looks));
    forall w: nat, k: nat, i: nat | WarmThenLost(acts, looks, w, k, i) ensures cut <= i < |looks| {
      LossEndsTheWatch(acts, looks, w, k, i, cut);
    }
    if cut < |looks| {
      ColdMeansLoss(acts, looks, cut);
      ReadingShows(acts, looks, cut);
    }
  }
}
