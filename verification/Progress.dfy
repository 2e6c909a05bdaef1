/** What a single action may do to the histories, whichever thread takes it. */
module Progress {
  import opened Common
  import opened LocationModel
  import opened Machine
  import opened Invariant

  predicate LogProgress(a: Shared, b: Shared) {
    && a.location.log <= b.location.log
    && |b.location.log| <= |a.location.log| + 1
    && (a.hist.quiesced && |b.location.log| > |a.location.log| ==> !b.location.log[|a.location.log|].Start?)
  }

  /** A generation begins only with no driver held, and with its own session. */
  predicate GenerationProgress(a: Shared, b: Shared) {
    && a.fields.generation <= b.fields.generation
    && (a.fields.generation != b.fields.generation ==>
          && a.fields.session.None?
          && b.fields.session == Some(b.fields.generation)
          && a.location.driver.None?
          && b.location.driver.None?)
  }

  /** The loss count rises only where the loop takes the session out of the fields. */
  predicate LossProgress(a: Shared, b: Shared, pc: Pc) {
    && a.fields.sessionLosses <= b.fields.sessionLosses
    && (a.fields.sessionLosses != b.fields.sessionLosses ==>
          pc.Loop? && pc.l.LoseClear? && a.fields.session.Some? && b.fields.session.None?)
  }

  /** An acknowledged shutdown clear is Serve's own stop, acknowledged. */
  predicate AckProgress(a: Shared, b: Shared, pc: Pc) {
    && (a.hist.quiesced ==> b.hist.quiesced)
    && (a.hist.quiesced && a.hist.clearAcked ==> b.hist.clearAcked)
    && (!a.hist.clearAcked && b.hist.clearAcked ==>
          && pc == Serve(ServeClear(ClearAwait))
          && b.location.log != []
          && b.location.log[|b.location.log| - 1].StopAcked?)
  }

  predicate Progress(a: Shared, b: Shared, pc: Pc) {
    LogProgress(a, b) && GenerationProgress(a, b) && LossProgress(a, b, pc) && AckProgress(a, b, pc)
  }

  lemma LoopProgress(sh: Shared, l: LoopPc, choice: Choice)
    requires SharedInv(sh) && ThreadInv(sh, LOOP, Loop(l))
    ensures var out := LoopStep(sh, l, choice);
            out.Next? ==> Progress(sh, out.sh, Loop(l))
  {
  }

  lemma ClearProgress(sh: Shared, t: Tid, c: ClearPc, owned: bool, choice: Choice)
    requires SharedInv(sh) && ClearLocal(sh, c)
    ensures var out := ClearStep(sh, t, c, owned, choice);
            && (out.ClearMore? ==> Progress(sh, out.sh, Serve(ServeClear(c))) && out.sh.hist == sh.hist)
            && (out.ClearEnd? ==> Progress(sh, out.sh, Serve(ServeClear(c))) && out.sh.hist == sh.hist)
            && (out.ClearEnd? && out.acked ==>
                  c.ClearAwait? && out.sh.location.log == sh.location.log + [StopAcked(sh.location.driver.value)])
  {
  }

  lemma ServeProgress(sh: Shared, v: ServePc, choice: Choice)
    requires SharedInv(sh) && ThreadInv(sh, SERVE, Serve(v))
    ensures var out := ServeStep(sh, v, choice);
            out.Next? ==> Progress(sh, out.sh, Serve(v))
  {
    if v.ServeClear? { ClearProgress(sh, SERVE, v.c, false, choice); }
  }

  lemma PulseProgress(sh: Shared, p: PulsePc, choice: Choice)
    requires SharedInv(sh) && ThreadInv(sh, PULSE, Pulse(p))
    ensures var out := PulseStep(sh, p, choice);
            out.Next? ==> Progress(sh, out.sh, Pulse(p))
  {
  }

  lemma SetProgress(sh: Shared, t: Tid, at: Coord, s: SetPc, choice: Choice)
    requires SharedInv(sh) && ThreadInv(sh, t, Http(Setting(at, s)))
    ensures var out := SetStep(sh, t, at, s, choice);
            out.Next? ==> Progress(sh, out.sh, Http(Setting(at, s)))
  {
  }

  lemma HttpProgress(sh: Shared, t: Tid, h: HttpPc, choice: Choice)
    requires SharedInv(sh) && ThreadInv(sh, t, Http(h))
    ensures var out := HttpStep(sh, t, h, choice);
            out.Next? ==> Progress(sh, out.sh, Http(h))
  {
    if h.Setting? {
      SetProgress(sh, t, h.at, h.s, choice);
    } else if h.Clearing? {
      ClearProgress(sh, t, h.c, true, choice);
    }
  }

  lemma OperationProgress(sh: Shared, t: Tid, pc: Pc, choice: Choice)
    requires pc.Lifecycle? || pc.Shot? || pc.Tests?
    ensures var out := ThreadStep(sh, t, pc, choice);
            out.Next? ==> Progress(sh, out.sh, pc)
  {
  }

  lemma ThreadProgress(sh: Shared, t: Tid, pc: Pc, choice: Choice)
    requires SharedInv(sh) && ThreadInv(sh, t, pc)
    ensures var out := ThreadStep(sh, t, pc, choice);
            out.Next? ==> Progress(sh, out.sh, pc)
  {
    match pc
    case Loop(l) => LoopProgress(sh, l, choice);
    case Serve(v) => ServeProgress(sh, v, choice);
    case Pulse(p) => PulseProgress(sh, p, choice);
    case Http(h) => HttpProgress(sh, t, h, choice);
    case _ => OperationProgress(sh, t, pc, choice);
  }

  /** The action is the loop's step that takes a lost session out of the fields. */
  predicate IsLossStep(s: State, a: Action) {
    a.Step? && a.t == LOOP && LOOP in s.pcs && s.pcs[LOOP].Loop? && s.pcs[LOOP].l.LoseClear?
  }

  lemma ActionProgress(s: State, a: Action)
    requires Inv(s) && Apply(s, a).Some?
    ensures var b := Apply(s, a).value.sh;
            && LogProgress(s.sh, b)
            && GenerationProgress(s.sh, b)
            && s.sh.fields.sessionLosses <= b.fields.sessionLosses
            && (s.sh.fields.sessionLosses != b.fields.sessionLosses ==> IsLossStep(s, a))
            && (s.sh.hist.quiesced ==> b.hist.quiesced)
            && (s.sh.hist.quiesced && s.sh.hist.clearAcked ==> b.hist.clearAcked)
            && (!s.sh.hist.clearAcked && b.hist.clearAcked ==>
                  && a.Step?
                  && s.pcs[a.t] == Serve(ServeClear(ClearAwait))
                  && b.location.log != []
                  && b.location.log[|b.location.log| - 1].StopAcked?)
  {
    if a.Step? {
      assert ThreadInv(s.sh, a.t, s.pcs[a.t]);
      ThreadProgress(s.sh, a.t, s.pcs[a.t], a.choice);
    }
  }
}
