/**
 The field lock: a step that is taken without it neither reads nor writes the daemon's fields
 (internal/linkcore/daemon.go:83-107).
 */
module FieldLock {
  import opened Common
  import opened DaemonFields
  import opened Machine

  /** The step goes the same whatever is in the fields, and leaves them as they are. */
  predicate Ignores(sh: Shared, g: Fields, out: Out, other: Out) {
    match out
    case Blocked => other.Blocked?
    case Next(after, pc) => after.fields == sh.fields && other == Next(after.(fields := g), pc)
  }

  lemma LoopIgnores(sh: Shared, l: LoopPc, choice: Choice, g: Fields)
    requires !NeedsMu(Loop(l))
    ensures Ignores(sh, g, LoopStep(sh, l, choice), LoopStep(sh.(fields := g), l, choice))
  {
  }

  lemma ClearIgnores(sh: Shared, t: Tid, c: ClearPc, owned: bool, choice: Choice, g: Fields)
    requires !c.ClearRead?
    ensures var out, other := ClearStep(sh, t, c, owned, choice), ClearStep(sh.(fields := g), t, c, owned, choice);
            match out
            case ClearBlocked => other.ClearBlocked?
            case ClearMore(after, c') => after.fields == sh.fields && other == ClearMore(after.(fields := g), c')
            case ClearEnd(after, acked) => after.fields == sh.fields && other == ClearEnd(after.(fields := g), acked)
  {
  }

  lemma ServeIgnores(sh: Shared, v: ServePc, choice: Choice, g: Fields)
    requires !NeedsMu(Serve(v))
    ensures Ignores(sh, g, ServeStep(sh, v, choice), ServeStep(sh.(fields := g), v, choice))
  {
    hide ClearStep;
    if v.ServeClear? { ClearIgnores(sh, SERVE, v.c, false, choice, g); }
  }

  lemma HttpIgnores(sh: Shared, t: Tid, h: HttpPc, choice: Choice, g: Fields)
    requires !NeedsMu(Http(h))
    ensures Ignores(sh, g, HttpStep(sh, t, h, choice), HttpStep(sh.(fields := g), t, h, choice))
  {
    hide ClearStep;
    if h.Clearing? { ClearIgnores(sh, t, h.c, true, choice, g); }
  }

  lemma OperationIgnores(sh: Shared, t: Tid, pc: Pc, choice: Choice, g: Fields)
    requires !NeedsMu(pc) && (pc.Pulse? || pc.Lifecycle? || pc.Shot? || pc.Tests?)
    ensures Ignores(sh, g, ThreadStep(sh, t, pc, choice), ThreadStep(sh.(fields := g), t, pc, choice))
  {
    hide LoopStep;
    hide ServeStep;
    hide HttpStep;
  }

  lemma UnlockedStepIgnoresFields(sh: Shared, t: Tid, pc: Pc, choice: Choice, g: Fields)
    requires !NeedsMu(pc)
    ensures Ignores(sh, g, ThreadStep(sh, t, pc, choice), ThreadStep(sh.(fields := g), t, pc, choice))
  {
    hide LoopStep;
    hide ServeStep;
    hide HttpStep;
    hide PulseStep;
    hide Ignores;
    match pc
    case Loop(l) => LoopIgnores(sh, l, choice, g);
    case Serve(v) => ServeIgnores(sh, v, choice, g);
    case Http(h) => HttpIgnores(sh, t, h, choice, g);
    case _ => OperationIgnores(sh, t, pc, choice, g);
  }

  /** So a step that finds or leaves something else in the fields is taken by the owner of the field lock. */
  lemma FieldsAreBehindTheLock(s: State, t: Tid, choice: Choice)
    requires Apply(s, Step(t, choice)).Some? && s.mu != Some(t)
    ensures Apply(s, Step(t, choice)).value.sh.fields == s.sh.fields
    ensures forall g ::
              var other := s.(sh := s.sh.(fields := g));
              Apply(other, Step(t, choice)) ==
              Some(Apply(s, Step(t, choice)).value.(sh := Apply(s, Step(t, choice)).value.sh.(fields := g)))
  {
    hide ThreadStep;
    forall g
      ensures var other := s.(sh := s.sh.(fields := g));
              Apply(other, Step(t, choice)) ==
              Some(Apply(s, Step(t, choice)).value.(sh := Apply(s, Step(t, choice)).value.sh.(fields := g)))
    {
      UnlockedStepIgnoresFields(s.sh, t, s.pcs[t], choice, g);
    }
    UnlockedStepIgnoresFields(s.sh, t, s.pcs[t], choice, s.sh.fields);
  }
}
