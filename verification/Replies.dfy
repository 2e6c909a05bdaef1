/**
 What the replies to the phone's location requests mean while other threads run: a request gives the location
 mutex back before it takes the snapshot that it replies with (internal/linkcore/location_http.go:191-202).
 */
module Replies {
  import opened Common
  import opened LocationModel
  import opened Machine
  import opened Invariant
  import opened Progress

  /** The event that ends a request of this kind with this result. */
  predicate Ends(e: Event, request: HttpRequest, ok: bool) {
    if !ok then e.Failed?
    else
      match request
      case Put(c) => e.Start? && e.at == c
      case Delete => e.StopAcked?
      case Get => true
  }

  /** The request ended when the log had `since` events, with the last of them. */
  predicate EndedAt(log: seq<Event>, request: HttpRequest, ok: bool, since: nat) {
    && since <= |log|
    && (request.Get? ==> ok)
    && (!request.Get? ==> since > 0 && Ends(log[since - 1], request, ok))
    && (request.Put? && ok ==> log[since - 1].origin.BySet?)
  }

  /** A set counts as confirmed exactly when the device acknowledged this request's start of this coordinate. */
  predicate AckFits(acks: map<Tid, Coord>, t: Tid, request: HttpRequest, ok: bool) {
    request.Put? ==> (ok <==> t in acks && acks[t] == request.c)
  }

  /** What a thread's place says about the log and the acknowledgements. */
  predicate HttpFits(log: seq<Event>, acks: map<Tid, Coord>, t: Tid, pc: Pc) {
    match pc
    case Http(OwnerCheck(_)) => t !in acks
    case Http(Setting(at, s)) =>
      && t !in acks
      && ValidLocation(at)
      && (s.SetAwait? ==> log != [] && log[|log| - 1].Start? && log[|log| - 1].at == at && log[|log| - 1].origin.BySet?)
    case Http(StateRead(request, ok, since)) => EndedAt(log, request, ok, since) && AckFits(acks, t, request, ok)
    case Http(StateLock(request, ok, since, _)) => EndedAt(log, request, ok, since) && AckFits(acks, t, request, ok)
    case _ => true
  }

  /** A reply shows what the command log said when the snapshot was taken. */
  predicate ReplyFits(log: seq<Event>, acks: map<Tid, Coord>, r: HttpReply) {
    && EndedAt(log, r.request, r.ok, r.since)
    && AckFits(acks, r.t, r.request, r.ok)
    && r.since <= r.upto <= |log|
    && r.phase == PhaseSaid(log[..r.upto])
    && !r.phase.Applying?
    && r.target == Outstanding(log[..r.upto])
  }

  predicate Replied(s: State, r: HttpReply) {
    r.t in s.pcs && s.pcs[r.t] == Http(Responded) && ReplyFits(s.sh.location.log, s.sh.hist.setAcks, r)
  }

  predicate RepliesInv(s: State) {
    && s.sh.hist.setAcks.Keys <= s.pcs.Keys
    && (forall t :: t in s.pcs ==> HttpFits(s.sh.location.log, s.sh.hist.setAcks, t, s.pcs[t]))
    && forall i :: 0 <= i < |s.sh.hist.replies| ==> Replied(s, s.sh.hist.replies[i])
  }

  // ----- What a longer log and a thread's step leave alone

  lemma EndedLater(log: seq<Event>, more: seq<Event>, request: HttpRequest, ok: bool, since: nat)
    requires EndedAt(log, request, ok, since) && log <= more
    ensures EndedAt(more, request, ok, since)
  {
  }

  lemma ReplyFitsLater(log: seq<Event>, more: seq<Event>, acks: map<Tid, Coord>, acks': map<Tid, Coord>, r: HttpReply)
    requires ReplyFits(log, acks, r) && log <= more
    requires r.t in acks <==> r.t in acks'
    requires r.t in acks ==> acks[r.t] == acks'[r.t]
    ensures ReplyFits(more, acks', r)
  {
    EndedLater(log, more, r.request, r.ok, r.since);
    assert more[..r.upto] == log[..r.upto];
  }

  /** What one step of thread t does to the replies and acknowledgements. */
  ghost predicate Leaves(a: Shared, b: Shared, t: Tid, pc: Pc, after: Pc) {
    && (forall u :: u != t ==> (u in a.hist.setAcks <==> u in b.hist.setAcks))
    && (forall u :: u != t && u in a.hist.setAcks ==> a.hist.setAcks[u] == b.hist.setAcks[u])
    && b.hist.setAcks.Keys <= a.hist.setAcks.Keys + {t}
    && HttpFits(b.location.log, b.hist.setAcks, t, after)
    && (b.hist.replies != a.hist.replies ==>
          && |b.hist.replies| == |a.hist.replies| + 1
          && b.hist.replies[..|a.hist.replies|] == a.hist.replies
          && after == Http(Responded)
          && b.hist.replies[|a.hist.replies|].t == t
          && ReplyFits(b.location.log, b.hist.setAcks, b.hist.replies[|a.hist.replies|]))
    && pc != Http(Responded)
  }

  lemma SnapshotLeaves(sh: Shared, t: Tid, h: HttpPc, choice: Choice)
    requires SharedInv(sh) && h.StateLock? && HttpFits(sh.location.log, sh.hist.setAcks, t, Http(h))
    ensures var out := HttpStep(sh, t, h, choice);
            out.Next? ==> Leaves(sh, out.sh, t, Http(h), out.pc)
  {
    assert sh.location.log[..|sh.location.log|] == sh.location.log;
  }

  lemma SetLeaves(sh: Shared, t: Tid, at: Coord, s: SetPc, choice: Choice)
    requires SharedInv(sh) && ThreadInv(sh, t, Http(Setting(at, s)))
    requires HttpFits(sh.location.log, sh.hist.setAcks, t, Http(Setting(at, s)))
    ensures var out := SetStep(sh, t, at, s, choice);
            out.Next? ==> Leaves(sh, out.sh, t, Http(Setting(at, s)), out.pc)
  {
    hide SharedInv;
  }

  lemma ClearLeaves(sh: Shared, t: Tid, c: ClearPc, choice: Choice)
    requires SharedInv(sh) && ThreadInv(sh, t, Http(Clearing(c)))
    ensures var out := HttpStep(sh, t, Clearing(c), choice);
            out.Next? ==> Leaves(sh, out.sh, t, Http(Clearing(c)), out.pc)
  {
    hide SharedInv;
  }

  lemma HttpLeaves(sh: Shared, t: Tid, h: HttpPc, choice: Choice)
    requires SharedInv(sh) && ThreadInv(sh, t, Http(h)) && HttpFits(sh.location.log, sh.hist.setAcks, t, Http(h))
    ensures var out := HttpStep(sh, t, h, choice);
            out.Next? ==> Leaves(sh, out.sh, t, Http(h), out.pc)
  {
    match h
    case StateLock(_, _, _, _) => SnapshotLeaves(sh, t, h, choice);
    case Setting(at, s) => SetLeaves(sh, t, at, s, choice);
    case Clearing(c) => ClearLeaves(sh, t, c, choice);
    case _ => hide SharedInv;
  }

  /** What is left alone by a step that touches neither the replies nor the acknowledgements. */
  lemma UntouchedLeaves(a: Shared, b: Shared, t: Tid, pc: Pc, after: Pc)
    requires b.hist.replies == a.hist.replies && b.hist.setAcks == a.hist.setAcks && !pc.Http? && !after.Http?
    ensures Leaves(a, b, t, pc, after)
  {
  }

  lemma OthersLeave(sh: Shared, t: Tid, pc: Pc, choice: Choice)
    requires !pc.Http?
    ensures var out := ThreadStep(sh, t, pc, choice);
            out.Next? ==> Leaves(sh, out.sh, t, pc, out.pc)
  {
    hide Leaves;
    var out := ThreadStep(sh, t, pc, choice);
    if out.Next? {
      OthersTouchNeither(sh, t, pc, choice);
      UntouchedLeaves(sh, out.sh, t, pc, out.pc);
    }
  }

  predicate TouchesNeither(sh: Shared, out: Out) {
    out.Next? ==> out.sh.hist.replies == sh.hist.replies && out.sh.hist.setAcks == sh.hist.setAcks && !out.pc.Http?
  }

  lemma LoopTouchesNeither(sh: Shared, l: LoopPc, choice: Choice)
    ensures TouchesNeither(sh, LoopStep(sh, l, choice))
  {
  }

  lemma ServeTouchesNeither(sh: Shared, v: ServePc, choice: Choice)
    ensures TouchesNeither(sh, ServeStep(sh, v, choice))
  {
  }

  lemma OthersTouchNeither(sh: Shared, t: Tid, pc: Pc, choice: Choice)
    requires !pc.Http?
    ensures TouchesNeither(sh, ThreadStep(sh, t, pc, choice))
  {
    match pc
    case Loop(l) => LoopTouchesNeither(sh, l, choice);
    case Serve(v) => ServeTouchesNeither(sh, v, choice);
    case _ =>
  }

  /** A thread in the middle of its set relies on the mutex it holds; the others only on a log that grows. */
  lemma FitsLater(a: Shared, b: Shared, t: Tid, u: Tid, pc: Pc)
    requires HttpFits(a.location.log, a.hist.setAcks, u, pc) && ThreadInv(a, u, pc) && t != u
    requires Guarantee(a, b, t) && a.location.log <= b.location.log
    requires u in a.hist.setAcks <==> u in b.hist.setAcks
    requires u in a.hist.setAcks ==> a.hist.setAcks[u] == b.hist.setAcks[u]
    ensures HttpFits(b.location.log, b.hist.setAcks, u, pc)
  {
    if pc.Http? && (pc.h.StateRead? || pc.h.StateLock?) {
      EndedLater(a.location.log, b.location.log, pc.h.request, pc.h.ok, pc.h.since);
    }
  }

  lemma StepKeepsReplies(s: State, t: Tid, out: Out, mu: Option<Tid>)
    requires Inv(s) && RepliesInv(s) && t in s.pcs && out.Next?
    requires Guarantee(s.sh, out.sh, t) && s.sh.location.log <= out.sh.location.log
    requires Leaves(s.sh, out.sh, t, s.pcs[t], out.pc)
    ensures RepliesInv(State(out.sh, mu, s.pcs[t := out.pc]))
  {
    hide HttpFits;
    hide ReplyFits;
    hide Guarantee;
    hide ThreadInv;
    hide SharedInv;
    var a, b := s.sh, out.sh;
    var after := State(b, mu, s.pcs[t := out.pc]);
    forall u | u in after.pcs ensures HttpFits(b.location.log, b.hist.setAcks, u, after.pcs[u]) {
      if u != t { FitsLater(a, b, t, u, s.pcs[u]); }
    }
    forall i | 0 <= i < |b.hist.replies| ensures Replied(after, b.hist.replies[i]) {
      if i < |a.hist.replies| {
        var r := a.hist.replies[i];
        assert b.hist.replies[i] == r && Replied(s, r);
        ReplyFitsLater(a.location.log, b.location.log, a.hist.setAcks, b.hist.setAcks, r);
      }
    }
  }

  lemma ActionKeepsReplies(s: State, a: Action)
    requires Inv(s) && RepliesInv(s) && Apply(s, a).Some?
    ensures RepliesInv(Apply(s, a).value)
  {
    hide SharedInv;
    hide Guarantee;
    if a.Step? {
      var pc := s.pcs[a.t];
      assert ThreadInv(s.sh, a.t, pc);
      StepOwes(s.sh, a.t, pc, a.choice);
      ActionProgress(s, a);
      assert HttpFits(s.sh.location.log, s.sh.hist.setAcks, a.t, pc);
      if pc.Http? { HttpLeaves(s.sh, a.t, pc.h, a.choice); } else { OthersLeave(s.sh, a.t, pc, a.choice); }
      StepKeepsReplies(s, a.t, ThreadStep(s.sh, a.t, pc, a.choice), if NeedsMu(pc) then None else s.mu);
    } else {
      OtherActionKeepsReplies(s, a);
    }
  }

  lemma OtherActionKeepsReplies(s: State, a: Action)
    requires RepliesInv(s) && Apply(s, a).Some? && !a.Step?
    ensures RepliesInv(Apply(s, a).value)
  {
    hide ReplyFits;
    var b := Apply(s, a).value;
    assert b.sh.hist == s.sh.hist && b.sh.location == s.sh.location;
    forall i | 0 <= i < |b.sh.hist.replies| ensures Replied(b, b.sh.hist.replies[i]) {
      assert Replied(s, s.sh.hist.replies[i]);
    }
  }

  lemma {:induction false} RepliesAlwaysFit(acts: seq<Action>)
    requires Run(acts).Some?
    ensures RepliesInv(Run(acts).value)
  {
    if acts != [] {
      var front := acts[..|acts| - 1];
      RepliesAlwaysFit(front);
      InvAlways(front);
      ActionKeepsReplies(Run(front).value, acts[|acts| - 1]);
    }
  }

  // ----- What a reply says, in every run

  /** The reply shows what this request has done. */
  predicate ShowsOwnResult(r: HttpReply) {
    if !r.ok then r.phase.Lost?
    else
      match r.request
      case Put(c) => r.phase.Live? && r.target == Some(c)
      case Delete => r.phase.Idle? && r.target.None?
      case Get => true
  }

  lemma ReplyOfRun(acts: seq<Action>, i: nat) returns (r: HttpReply)
    requires Run(acts).Some? && i < |Run(acts).value.sh.hist.replies|
    ensures r == Run(acts).value.sh.hist.replies[i]
    ensures ReplyFits(Run(acts).value.sh.location.log, Run(acts).value.sh.hist.setAcks, r)
    ensures PulsesRepeat(Run(acts).value.sh.location.log)
  {
    RepliesAlwaysFit(acts);
    InvAlways(acts);
    r := Run(acts).value.sh.hist.replies[i];
    assert Replied(Run(acts).value, r);
  }

  /** A set is answered with 200 exactly when the device acknowledged its start, and never forgets a failure. */
  lemma SetIsConfirmed(acts: seq<Action>, i: nat)
    requires Run(acts).Some? && i < |Run(acts).value.sh.hist.replies|
    requires Run(acts).value.sh.hist.replies[i].request.Put?
    ensures var sh := Run(acts).value.sh;
            var r := sh.hist.replies[i];
            && (r.ok <==> r.t in sh.hist.setAcks && sh.hist.setAcks[r.t] == r.request.c)
            && 0 < r.since <= r.upto <= |sh.location.log|
            && var e := sh.location.log[r.since - 1];
            if r.ok then e.Start? && e.at == r.request.c && e.origin.BySet? else e.Failed?
  {
    hide Run;
    var r := ReplyOfRun(acts, i);
  }

  /** A clear is answered with 200 exactly when its stop was acknowledged. */
  lemma ClearIsConfirmed(acts: seq<Action>, i: nat)
    requires Run(acts).Some? && i < |Run(acts).value.sh.hist.replies|
    requires Run(acts).value.sh.hist.replies[i].request.Delete?
    ensures var sh := Run(acts).value.sh;
            var r := sh.hist.replies[i];
            && 0 < r.since <= r.upto <= |sh.location.log|
            && (if r.ok then sh.location.log[r.since - 1].StopAcked? else sh.location.log[r.since - 1].Failed?)
  {
    hide Run;
    var r := ReplyOfRun(acts, i);
  }

  /** Every reply shows the phase and the target that the commands before its snapshot call for. */
  lemma ReplyShowsTheLog(acts: seq<Action>, i: nat)
    requires Run(acts).Some? && i < |Run(acts).value.sh.hist.replies|
    ensures var log := Run(acts).value.sh.location.log;
            var r := Run(acts).value.sh.hist.replies[i];
            && r.since <= r.upto <= |log|
            && r.phase == PhaseSaid(log[..r.upto])
            && !r.phase.Applying?
            && r.target == Outstanding(log[..r.upto])
  {
    hide Run;
    var r := ReplyOfRun(acts, i);
  }

  lemma OwnResultByLog(log: seq<Event>, acks: map<Tid, Coord>, r: HttpReply)
    requires ReplyFits(log, acks, r) && !r.request.Get?
    ensures 0 < r.upto <= |log| && (ShowsOwnResult(r) <==> Ends(log[r.upto - 1], r.request, r.ok))
  {
    assert log[..r.upto][r.upto - 1] == log[r.upto - 1];
  }

  /** It shows the request's own result exactly when the latest event before the snapshot is one that gives it. */
  lemma OwnResultShown(acts: seq<Action>, i: nat)
    requires Run(acts).Some? && i < |Run(acts).value.sh.hist.replies|
    requires !Run(acts).value.sh.hist.replies[i].request.Get?
    ensures var log := Run(acts).value.sh.location.log;
            var r := Run(acts).value.sh.hist.replies[i];
            0 < r.upto <= |log| && (ShowsOwnResult(r) <==> Ends(log[r.upto - 1], r.request, r.ok))
  {
    hide Run;
    var r := ReplyOfRun(acts, i);
    OwnResultByLog(Run(acts).value.sh.location.log, Run(acts).value.sh.hist.setAcks, r);
  }

  lemma {:induction false} RefreshesChangeNothing(log: seq<Event>, since: nat, upto: nat)
    requires PulsesRepeat(log) && 0 < since <= upto <= |log|
    requires forall j :: since <= j < upto ==> IsPulse(log[j])
    ensures Seen(log[upto - 1]) == Seen(log[since - 1])
    decreases upto
  {
    if since < upto {
      RefreshesChangeNothing(log, since, upto - 1);
      assert IsPulse(log[upto - 1]) && RepeatsPrevious(log, upto - 1);
    }
  }

  /** So it does whenever only refreshes came between. */
  lemma OwnResultAfterRefreshes(acts: seq<Action>, i: nat)
    requires Run(acts).Some? && i < |Run(acts).value.sh.hist.replies|
    requires var r := Run(acts).value.sh.hist.replies[i];
             && !r.request.Get?
             && r.upto <= |Run(acts).value.sh.location.log|
             && forall j :: r.since <= j < r.upto ==>
                  var e := Run(acts).value.sh.location.log[j]; e.Start? && e.origin.ByPulse?
    ensures ShowsOwnResult(Run(acts).value.sh.hist.replies[i])
  {
    hide Run;
    hide Outstanding;
    hide PhaseSaid;
    var r := ReplyOfRun(acts, i);
    var log := Run(acts).value.sh.location.log;
    OwnResultByLog(log, Run(acts).value.sh.hist.setAcks, r);
    RefreshesChangeNothing(log, r.since, r.upto);
  }
}
