/**
 A run in which the phone is told 200 for its set and shown a lost session: the session goes away after the
 device has acknowledged the start and before the reply's snapshot is taken.
 */
module ReplyRace {
  import opened Common
  import opened DaemonFields
  import opened LocationModel
  import opened Machine
  import opened Refinement
  import opened NilHandle
  import opened Replies

  const PHONE: Tid := 3

  const ORIGIN := Coord(Finite(0.0), Finite(0.0))

  const SETTING := ACQUIRED.(loc := Some(PHONE), location := IssueSet(Opened(INITIAL_LOC, 1), ORIGIN))

  const LOSING := SETTING.(
    op := Some(LOOP),
    fields := Lose(ACQUIRED.fields),
    hist := ACQUIRED.hist.(lossLog := [1], losing := BeforeNotice(1)))

  const CONFIRMED := LOSING.(
    loc := None,
    location := ConfirmSet(SETTING.location, ORIGIN),
    hist := LOSING.hist.(setAcks := map[PHONE := ORIGIN]))

  const LOST := CONFIRMED.(
    location := TellLost(CONFIRMED.location),
    hist := CONFIRMED.hist.(losing := AfterNotice(1)))

  const SHOWN := HttpReply(PHONE, Put(ORIGIN), true, 1, 2, Phase.Lost, Some(ORIGIN), false)

  lemma IssuesStart()
    ensures Alone(ACQUIRED, PHONE, Http(OwnerCheck(Put(ORIGIN))), [Ok, Ok, Ok, Ok, Ok]) ==
            Next(SETTING, Http(Setting(ORIGIN, SetAwait)))
  {
    AloneCons(ACQUIRED, PHONE, Http(OwnerCheck(Put(ORIGIN))), Ok, [Ok, Ok, Ok, Ok]);
    AloneCons(ACQUIRED, PHONE, Http(Setting(ORIGIN, SetLock)), Ok, [Ok, Ok, Ok]);
    var taken := ACQUIRED.(loc := Some(PHONE));
    AloneCons(taken, PHONE, Http(Setting(ORIGIN, SetRead)), Ok, [Ok, Ok]);
    AloneCons(taken, PHONE, Http(Setting(ORIGIN, SetOpen(1))), Ok, [Ok]);
    AloneCons(taken, PHONE, Http(Setting(ORIGIN, SetOpening(1))), Ok, []);
  }

  lemma LosesSession()
    ensures Alone(SETTING, LOOP, Loop(ReadHandle), [Ok, Ok, Ok, Ok] + [Ok, Ok]) == Next(LOSING, Loop(LoseLocation(1)))
  {
    assert [Ok, Ok, Ok, Ok] + [Ok, Ok] == [Ok] + ([Ok] + ([Ok] + ([Ok] + [Ok, Ok])));
    AloneCons(SETTING, LOOP, Loop(ReadHandle), Ok, [Ok] + ([Ok] + ([Ok] + [Ok, Ok])));
    AloneCons(SETTING, LOOP, Loop(ReadGeneration(Some(1))), Ok, [Ok] + ([Ok] + [Ok, Ok]));
    AloneCons(SETTING, LOOP, Loop(Select(Some(1), 1)), Ok, [Ok] + [Ok, Ok]);
    AloneCons(SETTING, LOOP, Loop(DoneCheck(1)), Ok, [Ok, Ok]);
    TakesSessionOut();
  }

  lemma TakesSessionOut()
    ensures Alone(SETTING, LOOP, Loop(LoseLock(1)), [Ok, Ok]) == Next(LOSING, Loop(LoseLocation(1)))
  {
    AloneCons(SETTING, LOOP, Loop(LoseLock(1)), Ok, [Ok]);
    AloneCons(SETTING.(op := Some(LOOP)), LOOP, Loop(LoseClear(1)), Ok, []);
  }

  lemma StartIsAcknowledged()
    ensures Alone(LOSING, PHONE, Http(Setting(ORIGIN, SetAwait)), [Ok]) ==
            Next(CONFIRMED, Http(StateRead(Put(ORIGIN), true, 1)))
  {
    AloneCons(LOSING, PHONE, Http(Setting(ORIGIN, SetAwait)), Ok, []);
  }

  lemma LossIsTold()
    ensures Alone(CONFIRMED, LOOP, Loop(LoseLocation(1)), [Ok]) == Next(LOST, Loop(LoseClose(1)))
  {
    AloneCons(CONFIRMED, LOOP, Loop(LoseLocation(1)), Ok, []);
  }

  lemma ReplyIsTaken()
    ensures Alone(LOST, PHONE, Http(StateRead(Put(ORIGIN), true, 1)), [Ok, Ok]) ==
            Next(LOST.(hist := LOST.hist.(replies := [SHOWN])), Http(Responded))
  {
    AloneCons(LOST, PHONE, Http(StateRead(Put(ORIGIN), true, 1)), Ok, [Ok]);
    AloneCons(LOST, PHONE, Http(StateLock(Put(ORIGIN), true, 1, false)), Ok, []);
  }

  lemma ThreadRuns(acts: seq<Action>, s: State, t: Tid, choices: seq<Choice>, b: Shared, pc: Pc)
    returns (acts': seq<Action>)
    requires Run(acts) == Some(s) && s.mu.None? && t in s.pcs
    requires Alone(s.sh, t, s.pcs[t], choices) == Next(b, pc)
    ensures Run(acts') == Some(State(b, None, s.pcs[t := pc]))
  {
    hide Alone;
    var more := AloneRuns(acts, t, choices, Next(b, pc));
    acts' := acts + more;
  }

  /** A reply of 200 need not show the request's own result. */
  lemma ConfirmedSetMayShowLoss()
    ensures exists acts ::
              && Run(acts).Some?
              && Run(acts).value.sh.hist.replies == [SHOWN]
              && SHOWN.ok && SHOWN.phase.Lost? && !ShowsOwnResult(SHOWN)
  {
    hide Alone;
    hide Run;
    var acts := SessionIsAcquired();
    var pcs := Pcs(ReadHandle, Accept);
    var put := Http(OwnerCheck(Put(ORIGIN)));
    RunSnoc(acts, Spawn(PHONE, put));
    acts := acts + [Spawn(PHONE, put)];
    pcs := pcs[PHONE := put];
    IssuesStart();
    acts := ThreadRuns(acts, State(ACQUIRED, None, pcs), PHONE, [Ok, Ok, Ok, Ok, Ok], SETTING,
                       Http(Setting(ORIGIN, SetAwait)));
    pcs := pcs[PHONE := Http(Setting(ORIGIN, SetAwait))];
    LosesSession();
    acts := ThreadRuns(acts, State(SETTING, None, pcs), LOOP, [Ok, Ok, Ok, Ok] + [Ok, Ok], LOSING,
                       Loop(LoseLocation(1)));
    pcs := pcs[LOOP := Loop(LoseLocation(1))];
    StartIsAcknowledged();
    acts := ThreadRuns(acts, State(LOSING, None, pcs), PHONE, [Ok], CONFIRMED,
                       Http(StateRead(Put(ORIGIN), true, 1)));
    pcs := pcs[PHONE := Http(StateRead(Put(ORIGIN), true, 1))];
    LossIsTold();
    acts := ThreadRuns(acts, State(CONFIRMED, None, pcs), LOOP, [Ok], LOST, Loop(LoseClose(1)));
    pcs := pcs[LOOP := Loop(LoseClose(1))];
    ReplyIsTaken();
    acts := ThreadRuns(acts, State(LOST, None, pcs), PHONE, [Ok, Ok],
                       LOST.(hist := LOST.hist.(replies := [SHOWN])), Http(Responded));
    assert Run(acts).Some?;
  }
}
