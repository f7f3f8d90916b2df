/** What requests are answered with and what turns fail with, over every run. */
module GoAnswers {
  import opened Wire
  import opened GoClient
  import opened GoRoles
  import opened GoArrivals
  import opened GoEnvironment
  import opened GoTheorems
  import opened GoReplies
  import opened GoSettle
  import H = GoHistory
  import R = GoRequests

  /** The failure tells the code and message of the error event: nested first, then the envelope's, then a default. */
  predicate Carries(e: Failure, ev: Event) {
    && ev.body.ErrorEvent? && e.ProtocolFailure? && e.requestId == ev.rid
    && var b := ev.body;
    && (b.errorDecodes && b.nested.code != "" ==> e.code == b.nested.code && e.message == b.nested.message)
    && (b.errorDecodes && b.nested.code == "" && b.envelope.Some? && b.envelope.value.code != "" ==>
          e.code == b.envelope.value.code && e.message == b.envelope.value.message)
    && (!b.errorDecodes || (b.nested.code == "" && (b.envelope.None? || b.envelope.value.code == "")) ==>
          e.code == "INTERNAL_ERROR" && e.message == "Unknown protocol error")
  }

  /** The client was shut down with this failure. */
  predicate ClosedWith(closeErr: Option<Failure>, e: Failure) { closeErr == Some(e) && e.Shutdown? }

  /** An event of the request that is not an error. */
  predicate ResultOk(wire: seq<Event>, r: Rid, ev: Event) { ev in OfRequest(wire, r) && !ev.body.ErrorEvent? }

  /** The shutdown failure, or what an error event of the request says. */
  ghost predicate ErrOk(wire: seq<Event>, closeErr: Option<Failure>, r: Rid, e: Failure) {
    ClosedWith(closeErr, e) || exists ev :: ev in OfRequest(wire, r) && Carries(e, ev)
  }

  ghost predicate PendOk(wire: seq<Event>, closeErr: Option<Failure>, r: Rid, p: Pend) {
    (forall ev :: ev in p.result ==> ResultOk(wire, r, ev)) && (forall e :: e in p.err ==> ErrOk(wire, closeErr, r, e))
  }

  /** A failure of the client's own: the turn's timer, the shutdown, or a send that did not work. */
  predicate OwnFailure(closeErr: Option<Failure>, r: Rid, e: Failure) {
    e == TurnTimeout(r) || ClosedWith(closeErr, e) || e.SendFailure?
  }

  predicate OutcomeKnown(closeErr: Option<Failure>, r: Rid, o: Outcome) {
    FromEvent(o) || (o.final.None? && o.err.Some? && OwnFailure(closeErr, r, o.err.value))
  }

  /** What a goroutine carries on its way to an answer or an outcome. */
  predicate PcOk(wire: seq<Event>, closeErr: Option<Failure>, pc: Pc) {
    match pc
    case Reply(r, ev) => ev in OfRequest(wire, r)
    case Finish(r, o, k, _) => OutcomeKnown(closeErr, r, o) && (k.ToAborts? ==> ClosedWith(closeErr, k.reason))
    case FailAll(e, _) => e.Shutdown?
    case FailPending(e, _, _) => ClosedWith(closeErr, e)
    case FailTurns(e, _) => ClosedWith(closeErr, e)
    case SendMessage(_, UndoWait(e)) => e.SendFailure?
    case SendMessage(_, UndoHeld(e)) => e.SendFailure?
    case _ => true
  }

  predicate TurnOk(closeErr: Option<Failure>, r: Rid, t: Turn) { t.done ==> OutcomeKnown(closeErr, r, t.outcome) }

  /** The event being replied is the last one that came in. */
  predicate LastReplied(s: State) {
    && 0 in s.procs
    && (s.procs[0].Reply? ==> s.wire != [] && s.wire[|s.wire| - 1] == s.procs[0].ev && s.procs[0].ev.rid == s.procs[0].r)
  }

  ghost predicate ProcsOk(s: State) { forall g :: g in s.procs ==> PcOk(s.wire, s.closeErr, s.procs[g]) }

  ghost predicate PendsOk(s: State) { forall r :: r in s.P ==> PendOk(s.wire, s.closeErr, r, s.P[r]) }

  ghost predicate TurnsOk(s: State) { forall r :: r in s.T ==> TurnOk(s.closeErr, r, s.T[r]) }

  ghost predicate Answers(s: State) {
    ProcsOk(s) && PendsOk(s) && TurnsOk(s) && LastReplied(s) && (s.closeErr.Some? ==> s.closeErr.value.Shutdown?)
  }

  // ----- these facts last

  lemma LastIsOfRequest(wire: seq<Event>)
    requires wire != []
    ensures var ev := wire[|wire| - 1]; ev in OfRequest(wire, ev.rid)
  {
  }

  /** The first wire and shutdown failure are an earlier version of the second. */
  ghost predicate Grown(wire: seq<Event>, closeErr: Option<Failure>, wire': seq<Event>, closeErr': Option<Failure>) {
    && (wire' == wire || exists ev :: wire' == wire + [ev])
    && (closeErr.Some? ==> closeErr' == closeErr)
  }

  lemma MoreOfRequest(wire: seq<Event>, wire': seq<Event>, r: Rid, e: Event)
    requires wire' == wire || exists ev :: wire' == wire + [ev]
    requires e in OfRequest(wire, r)
    ensures e in OfRequest(wire', r)
  {
    if wire' != wire {
      var ev :| wire' == wire + [ev];
      OfRequestLast(wire, ev, r);
    }
  }

  lemma ErrStays(wire: seq<Event>, closeErr: Option<Failure>, wire': seq<Event>, closeErr': Option<Failure>, r: Rid, e: Failure)
    requires Grown(wire, closeErr, wire', closeErr') && ErrOk(wire, closeErr, r, e)
    ensures ErrOk(wire', closeErr', r, e)
  {
    if !ClosedWith(closeErr, e) {
      var ev :| ev in OfRequest(wire, r) && Carries(e, ev);
      MoreOfRequest(wire, wire', r, ev);
    }
  }

  lemma PendStays(wire: seq<Event>, closeErr: Option<Failure>, wire': seq<Event>, closeErr': Option<Failure>, r: Rid, p: Pend)
    requires Grown(wire, closeErr, wire', closeErr') && PendOk(wire, closeErr, r, p)
    ensures PendOk(wire', closeErr', r, p)
  {
    forall ev | ev in p.result ensures ResultOk(wire', r, ev) { MoreOfRequest(wire, wire', r, ev); }
    forall e | e in p.err ensures ErrOk(wire', closeErr', r, e) { ErrStays(wire, closeErr, wire', closeErr', r, e); }
  }

  lemma PcStays(wire: seq<Event>, closeErr: Option<Failure>, wire': seq<Event>, closeErr': Option<Failure>, pc: Pc)
    requires Grown(wire, closeErr, wire', closeErr') && PcOk(wire, closeErr, pc)
    ensures PcOk(wire', closeErr', pc)
  {
    if pc.Reply? { MoreOfRequest(wire, wire', pc.r, pc.ev); }
  }

  // ----- one step

  function CloseErrDo(s: State, op: Op): Option<Failure> { if op.Shut? then Some(op.e) else s.closeErr }

  ghost predicate AnswerDiscipline(s: State, op: Op, pc': Pc) {
    && PcOk(s.wire, CloseErrDo(s, op), pc')
    && (op.Shut? ==> op.e.Shutdown? && s.closeErr.None?)
    && (op.ReplyResult? ==> ResultOk(s.wire, op.r, op.ev))
    && (op.ReplyErr? ==> ErrOk(s.wire, s.closeErr, op.r, op.e))
    && (op.Record? ==> OutcomeKnown(s.closeErr, op.r, op.o))
  }

  lemma CarriesWhatItSays(ev: Event)
    requires ev.body.ErrorEvent?
    ensures Carries(ProtocolErrorOf(ev), ev)
  {
  }

  lemma ReplyDiscipline(s: State, r: Rid, ev: Event, a: Act)
    requires PcOk(s.wire, s.closeErr, Reply(r, ev)) && ReplyProg(r, ev) == Some(a)
    ensures AnswerDiscipline(s, a.op, a.then_)
  {
    if ev.body.ErrorEvent? { CarriesWhatItSays(ev); }
  }

  lemma RouteDiscipline(s: State, ev: Event, held: bool, a: Act)
    requires RouteProg(s, ev, held) == Some(a) && s.wire != [] && s.wire[|s.wire| - 1] == ev
    ensures AnswerDiscipline(s, a.op, a.then_)
    ensures a.then_.Reply? ==> a.then_.ev == ev && a.then_.r == ev.rid
  {
    LastIsOfRequest(s.wire);
  }

  lemma FinishDiscipline(s: State, pc: Pc, a: Act)
    requires pc.Finish? && FinishProg(s, pc.r, pc.o, pc.k, pc.finAt) == Some(a) && PcOk(s.wire, s.closeErr, pc)
    ensures AnswerDiscipline(s, a.op, a.then_)
  {
  }

  lemma PushDiscipline(s: State, pc: Pc, c: Choice, a: Act)
    requires pc.Push? && PushProg(s, pc.r, pc.ev, pc.pushAt, c) == Some(a)
    ensures AnswerDiscipline(s, a.op, a.then_)
  {
  }

  lemma CallDiscipline(s: State, pc: Pc, c: Choice, a: Act)
    requires Prog(s, pc, c) == Some(a) && PcOk(s.wire, s.closeErr, pc) && Globals(s)
    requires s.closeErr.Some? ==> s.closeErr.value.Shutdown?
    requires pc.FailAll? || pc.FailPending? || pc.FailTurns? || pc.SendMessage? || pc.Request? || pc.Wait?
    ensures AnswerDiscipline(s, a.op, a.then_)
  {
    match pc
    case FailAll(_, _) =>
    case FailPending(_, _, _) =>
    case FailTurns(_, _) =>
    case SendMessage(_, _) =>
    case Request(_, _) =>
    case Wait(_, _) =>
  }

  lemma ProgAnswerDiscipline(s: State, g: Gid, c: Choice, a: Act)
    requires g in s.procs && Prog(s, s.procs[g], c) == Some(a) && Roles(s) && LastArrived(s) && Answers(s)
    ensures AnswerDiscipline(s, a.op, a.then_)
  {
    var pc := s.procs[g];
    assert PcOk(s.wire, s.closeErr, pc) && ProcRole(g, pc, s.failer, s.T, s.P);
    match pc
    case Route(ev, held) => RouteDiscipline(s, ev, held, a);
    case Reply(r, ev) => ReplyDiscipline(s, r, ev, a);
    case Finish(_, _, _, _) => FinishDiscipline(s, pc, a);
    case Push(_, _, _) => PushDiscipline(s, pc, c, a);
    case _ => CallDiscipline(s, pc, c, a);
  }

  lemma PendDoOk(wire: seq<Event>, closeErr: Option<Failure>, r: Rid, p: Pend, op: Op, listed: bool)
    requires PendOk(wire, closeErr, r, p)
    requires op.ReplyResult? ==> ResultOk(wire, r, op.ev)
    requires op.ReplyErr? ==> ErrOk(wire, closeErr, r, op.e)
    ensures PendOk(wire, closeErr, r, PendDo(p, op, listed))
  {
    match op
    case ReplyResult(_, _) =>
    case ReplyErr(_, _) =>
    case TakeResult(_) =>
    case TakeErr(_) =>
    case Enrol(_) =>
    case Withdraw(_) =>
    case Claim(_) =>
    case _ =>
  }

  lemma ActKeepsPends(s: State, g: Gid, op: Op, pc': Pc)
    requires PendsOk(s) && Ready(s, op) && AnswerDiscipline(s, op, pc')
    ensures PendsOk(Do(s, g, op, pc'))
  {
    var s' := Do(s, g, op, pc');
    assert Grown(s.wire, s.closeErr, s.wire, s'.closeErr);
    forall r | r in s'.P ensures PendOk(s'.wire, s'.closeErr, r, s'.P[r]) {
      assert PendOk(s.wire, s.closeErr, r, s.P[r]);
      PendStays(s.wire, s.closeErr, s.wire, s'.closeErr, r, s.P[r]);
      if OnRequest(op) && op.r == r { PendDoOk(s.wire, s.closeErr, r, s.P[r], op, r in s.pending); }
    }
  }

  lemma ActKeepsTurnsOk(s: State, g: Gid, op: Op, pc': Pc)
    requires TurnsOk(s) && Ready(s, op) && AnswerDiscipline(s, op, pc')
    ensures TurnsOk(Do(s, g, op, pc'))
  {
    var s' := Do(s, g, op, pc');
    forall r | r in s'.T ensures TurnOk(s'.closeErr, r, s'.T[r]) {
      assert TurnOk(s.closeErr, r, s.T[r]);
    }
  }

  lemma ActKeepsProcsOk(s: State, g: Gid, op: Op, pc': Pc)
    requires ProcsOk(s) && Ready(s, op) && AnswerDiscipline(s, op, pc')
    ensures ProcsOk(Do(s, g, op, pc'))
  {
    var s' := Do(s, g, op, pc');
    forall h | h in s'.procs ensures PcOk(s'.wire, s'.closeErr, s'.procs[h]) {
      if h != g { PcStays(s.wire, s.closeErr, s'.wire, s'.closeErr, s.procs[h]); }
    }
  }

  lemma OnlyRouteReplies(s: State, pc: Pc, c: Choice, a: Act)
    requires Prog(s, pc, c) == Some(a) && a.then_.Reply?
    ensures pc.Route? && a.then_.ev == pc.ev && a.then_.r == pc.ev.rid
  {
    match pc
    case Finish(_, _, _, _) =>
    case Push(_, _, _) =>
    case _ =>
  }

  lemma StepKeepsLastReplied(s: State, g: Gid, c: Choice)
    requires CanStep(s, g, c) && Roles(s) && LastArrived(s) && LastReplied(s)
    ensures LastReplied(Step(s, g, c))
  {
    var a := Prog(s, s.procs[g], c).value;
    if g == 0 && a.then_.Reply? { OnlyRouteReplies(s, s.procs[0], c, a); }
  }

  lemma StepKeepsAnswers(s: State, g: Gid, c: Choice)
    requires CanStep(s, g, c) && Roles(s) && LastArrived(s) && Answers(s)
    ensures Answers(Step(s, g, c))
  {
    var a := Prog(s, s.procs[g], c).value;
    ProgAnswerDiscipline(s, g, c, a);
    ActKeepsPends(s, g, a.op, a.then_);
    ActKeepsTurnsOk(s, g, a.op, a.then_);
    ActKeepsProcsOk(s, g, a.op, a.then_);
    StepKeepsLastReplied(s, g, c);
  }

  // ----- the environment

  lemma HappenFields(s: State, e: Env)
    requires CanHappen(s, e) && 0 in s.procs
    ensures var s' := Happen(s, e);
      && s'.closeErr == s.closeErr && (s'.wire == s.wire || (e.Frame? && s'.wire == s.wire + [e.ev]))
      && s'.procs == s.procs[Actor(e) := Opens(s, e)]
      && (forall r :: r in s'.P && r in s.P ==> s'.P[r] == s.P[r])
      && (forall r :: r in s'.P && r !in s.P ==> s'.P[r].result == [] && s'.P[r].err == [])
      && (forall r :: r in s'.T ==> if r in s.T then s'.T[r].done == s.T[r].done && s'.T[r].outcome == s.T[r].outcome else !s'.T[r].done)
  {
    if e.Consume? { assert s.procs[0 := s.procs[0]] == s.procs; }
  }

  lemma OpensOk(s: State, e: Env)
    requires CanHappen(s, e) && 0 in s.procs && PcOk(s.wire, s.closeErr, s.procs[0])
    ensures PcOk(s.wire, s.closeErr, Opens(s, e))
  {
  }

  lemma HappenKeepsAnswers(s: State, e: Env)
    requires CanHappen(s, e) && Answers(s)
    ensures Answers(Happen(s, e))
  {
    var s' := Happen(s, e);
    HappenFields(s, e);
    OpensOk(s, e);
    assert Grown(s.wire, s.closeErr, s'.wire, s'.closeErr);
    forall g | g in s'.procs ensures PcOk(s'.wire, s'.closeErr, s'.procs[g]) {
      PcStays(s.wire, s.closeErr, s'.wire, s'.closeErr, if g == Actor(e) then Opens(s, e) else s.procs[g]);
    }
    forall r | r in s'.P ensures PendOk(s'.wire, s'.closeErr, r, s'.P[r]) {
      if r in s.P { PendStays(s.wire, s.closeErr, s'.wire, s'.closeErr, r, s.P[r]); }
    }
    forall r | r in s'.T ensures TurnOk(s'.closeErr, r, s'.T[r]) {
      if r in s.T { assert TurnOk(s.closeErr, r, s.T[r]); }
    }
  }

  // ----- runs

  lemma {:induction false} RunAnswersOk(ss: seq<State>, moves: seq<Move>, i: nat)
    requires Run(ss, moves) && i < |ss|
    ensures Answers(ss[i])
  {
    if i > 0 {
      RunAnswersOk(ss, moves, i - 1);
      RunInv(ss, moves, i - 1);
      assert NextAt(ss, moves, i - 1);
      match moves[i - 1]
      case Proc(g, c) => StepKeepsAnswers(ss[i - 1], g, c);
      case External(e) => HappenKeepsAnswers(ss[i - 1], e);
    }
  }

  // ----- what a request is answered with

  lemma {:induction false} InOfRequest(wire: seq<Event>, r: Rid, ev: Event)
    ensures ev in OfRequest(wire, r) <==> ev in wire && ev.rid == r
  {
    if wire != [] {
      InOfRequest(wire[..|wire| - 1], r, ev);
      assert wire == wire[..|wire| - 1] + [wire[|wire| - 1]];
    }
  }

  /** The event came in under the request's id. */
  predicate CameIn(s: State, r: Rid, ev: Event) { ev in s.wire && ev.rid == r }

  /**
   * In every run, a result on a request's channel is an event that came in for it and is no error; a failure is the
   * one the client was shut down with, or tells what an error event that came in for it says.
   */
  lemma RequestAnswers(ss: seq<State>, moves: seq<Move>, i: nat, r: Rid)
    requires Run(ss, moves) && i < |ss| && r in ss[i].P
    ensures forall ev :: ev in ss[i].P[r].result ==> CameIn(ss[i], r, ev) && !ev.body.ErrorEvent?
    ensures forall e :: e in ss[i].P[r].err ==>
      (e.Shutdown? && ss[i].closeErr == Some(e)) || exists ev :: CameIn(ss[i], r, ev) && Carries(e, ev)
  {
    var s := ss[i];
    RunAnswersOk(ss, moves, i);
    assert PendOk(s.wire, s.closeErr, r, s.P[r]);
    forall ev | ev in s.P[r].result ensures CameIn(s, r, ev) && !ev.body.ErrorEvent? { InOfRequest(s.wire, r, ev); }
    forall e | e in s.P[r].err
      ensures (e.Shutdown? && s.closeErr == Some(e)) || exists ev :: CameIn(s, r, ev) && Carries(e, ev)
    {
      if !ClosedWith(s.closeErr, e) {
        var ev :| ev in OfRequest(s.wire, r) && Carries(e, ev);
        InOfRequest(s.wire, r, ev);
        assert CameIn(s, r, ev);
      }
    }
  }

  /** The event becomes the answer: itself as a result, or what it says as a failure. */
  ghost predicate AnsweredBy(p: Pend, p': Pend, ev: Event) {
    if ev.body.ErrorEvent? then p'.result == p.result && exists e :: p'.err == p.err + [e] && Carries(e, ev)
    else p'.err == p.err && p'.result == p.result + [ev]
  }

  /** The failure becomes the answer. */
  predicate FailedBy(p: Pend, p': Pend, e: Failure) { p'.result == p.result && p'.err == p.err + [e] }

  lemma RouteAnswers(s: State, r: Rid, ev: Event, c: Choice)
    requires CanStep(s, 0, c) && s.procs[0] == Reply(r, ev)
    ensures r in s.P && r in Step(s, 0, c).P && AnsweredBy(s.P[r], Step(s, 0, c).P[r], ev)
  {
    if ev.body.ErrorEvent? {
      CarriesWhatItSays(ev);
      assert Step(s, 0, c).P[r].err == s.P[r].err + [ProtocolErrorOf(ev)];
    }
  }

  lemma FailAllAnswers(s: State, g: Gid, c: Choice, r: Rid)
    requires CanStep(s, g, c) && s.procs[g].FailPending? && Replies(s, Proc(g, c), r)
    ensures r in s.P && r in Step(s, g, c).P && FailedBy(s.P[r], Step(s, g, c).P[r], s.procs[g].e)
  {
  }

  /**
   * The one move that answers a request gives it the last event that came in, which carries its id, or, when it is
   * `failAll`, the failure the client was shut down with.
   */
  lemma AnswerIs(ss: seq<State>, moves: seq<Move>, i: nat, r: Rid)
    requires Run(ss, moves) && RepliesAt(ss, moves, i, r) && r in ss[i].P && r in ss[i + 1].P
    ensures var s, p, p' := ss[i], ss[i].P[r], ss[i + 1].P[r];
      if ByRoute(s, moves[i]) then s.wire != [] && s.wire[|s.wire| - 1].rid == r && AnsweredBy(p, p', s.wire[|s.wire| - 1])
      else s.closeErr.Some? && s.closeErr.value.Shutdown? && FailedBy(p, p', s.closeErr.value)
  {
    var s, g, c := ss[i], moves[i].g, moves[i].c;
    RunInv(ss, moves, i);
    RunAnswersOk(ss, moves, i);
    ReplierIs(ss, moves, i, r);
    assert NextAt(ss, moves, i);
    if ByRoute(s, moves[i]) {
      RouteAnswers(s, s.procs[0].r, s.procs[0].ev, c);
    } else {
      assert PcOk(s.wire, s.closeErr, s.procs[g]);
      FailAllAnswers(s, g, c, r);
    }
  }

  /** What the step takes off the channels of a request is the one thing that was on them. */
  predicate Takes(p: Pend, p': Pend) {
    || (|p.result| == 1 && p.err == [] && p'.result == [] && p'.err == [])
    || (|p.err| == 1 && p.result == [] && p'.err == [] && p'.result == [])
  }

  lemma AwaitingTakes(s: State, g: Gid, c: Choice, r: Rid)
    requires CanStep(s, g, c) && s.procs[g] == Request(r, Awaiting)
    requires r in s.P && |s.P[r].result| + |s.P[r].err| <= 1
    ensures var s' := Step(s, g, c);
      r in s'.P && (s'.procs[g] == Request(r, ForgetWait) || (s'.procs[g] == Halt && Takes(s.P[r], s'.P[r])))
  {
  }

  /** The call that waits for an answer returns by taking it, or is cancelled. */
  lemma CallReturns(ss: seq<State>, moves: seq<Move>, i: nat, g: Gid, c: Choice, r: Rid)
    requires Run(ss, moves) && i < |moves| && moves[i] == Proc(g, c) && g in ss[i].procs && ss[i].procs[g] == Request(r, Awaiting)
    ensures g in ss[i + 1].procs && r in ss[i].P && r in ss[i + 1].P
    ensures ss[i + 1].procs[g] == Request(r, ForgetWait) || (ss[i + 1].procs[g] == Halt && Takes(ss[i].P[r], ss[i + 1].P[r]))
  {
    OneAnswerAt(ss, moves, i, g, r);
    assert NextAt(ss, moves, i);
    AwaitingTakes(ss[i], g, c, r);
  }

  lemma OneAnswerAt(ss: seq<State>, moves: seq<Move>, i: nat, g: Gid, r: Rid)
    requires Run(ss, moves) && i < |ss| && g in ss[i].procs && ss[i].procs[g].Request? && ss[i].procs[g].r == r
    ensures r in ss[i].P && |ss[i].P[r].result| + |ss[i].P[r].err| <= 1
  {
    RunInv(ss, moves, i);
    assert ProcRole(g, ss[i].procs[g], ss[i].failer, ss[i].T, ss[i].P);
    assert R.RequestOk(r, ss[i].P[r], ss[i].procs, ss[i].pending, ss[i].failer);
  }

  // ----- what a turn ends with

  /** The outcome says what the terminal event says. */
  predicate Tells(o: Outcome, ev: Event) {
    match ev.body
    case ErrorEvent(_, _, _) => o.final.None? && o.err.Some? && Carries(o.err.value, ev)
    case Eventual(decodes, _, _, _) =>
      if decodes then o == Outcome(Some(ev), None) else o == Outcome(None, Some(DecodeFailure(ev.rid)))
    case _ => false
  }

  lemma OutcomeTells(ev: Event)
    requires Terminal(ev)
    ensures Tells(OutcomeOf(ev), ev)
  {
    if ev.body.ErrorEvent? { CarriesWhatItSays(ev); }
  }

  /**
   * A finished turn ends with what the last event it delivered says, or with a failure of the client's own: the
   * turn's own timer, the shutdown, or a send that did not work.
   */
  lemma TurnEndsWith(ss: seq<State>, moves: seq<Move>, i: nat, r: Rid)
    requires Run(ss, moves) && i < |ss| && r in ss[i].T && ss[i].T[r].done
    ensures var t := ss[i].T[r]; var sent := t.read + t.buf;
      || (sent != [] && sent[|sent| - 1].rid == r && Tells(t.outcome, sent[|sent| - 1]))
      || (t.outcome.final.None? && t.outcome.err.Some? && OwnFailure(ss[i].closeErr, r, t.outcome.err.value))
  {
    var s := ss[i];
    RunInv(ss, moves, i);
    RunAnswersOk(ss, moves, i);
    var t := s.T[r];
    assert TurnOk(s.closeErr, r, t) && H.HistOk(r, t, H.ViewOf(s.procs[0]));
    if FromEvent(t.outcome) {
      var sent := t.read + t.buf;
      OutcomeTells(sent[|sent| - 1]);
      assert sent[|sent| - 1] == t.routed[|sent| - 1];
    }
  }

  /** `Wait` returns the outcome: its failure if it has one, and otherwise its final response. */
  lemma WaitTells(ss: seq<State>, moves: seq<Move>, i: nat, r: Rid)
    requires Run(ss, moves) && i < |ss| && r in ss[i].T
    ensures var t := ss[i].T[r];
      forall w :: w in t.waits ==>
        && t.done
        && (t.outcome.err.Some? ==> w == WaitFailed(t.outcome.err.value))
        && (t.outcome.err.None? ==> t.outcome.final.Some? && w == WaitFinal(t.outcome.final.value))
  {
    RunInv(ss, moves, i);
    assert TurnSettle(r, ss[i].T[r], ss[i].procs);
  }

  // ----- a listed request hears the next event that carries its id

  lemma RouteTakes(s: State, ev: Event, held: bool, a: Act, r: Rid)
    requires RouteProg(s, ev, held) == Some(a) && Globals(s) && r in s.pending && r != "" && r in PendingDo(s.pending, a.op)
    ensures InFlight(a.then_, r) == InFlight(Route(ev, held), r)
  {
  }

  lemma OnlyRouteRoutes(s: State, pc: Pc, c: Choice, a: Act)
    requires Prog(s, pc, c) == Some(a) && !pc.Route?
    ensures !a.then_.Route?
  {
    match pc
    case Finish(_, _, _, _) => FinishArrivals(s, pc, a);
    case Push(_, _, _) => PushArrivals(s, pc, c, a);
    case _ =>
  }

  /** The dispatcher does not pass over an event of a listed request. */
  lemma StepPasses(s: State, g: Gid, c: Choice, r: Rid)
    requires CanStep(s, g, c) && Globals(s) && r != "" && r in s.pending && r in Step(s, g, c).pending
    ensures InFlight(Step(s, g, c).procs[0], r) == InFlight(s.procs[0], r) && Step(s, g, c).wire == s.wire
  {
    var a := Prog(s, s.procs[g], c).value;
    if g == 0 {
      if s.procs[0].Route? { RouteTakes(s, s.procs[0].ev, s.procs[0].held, a, r); } else { OnlyRouteRoutes(s, s.procs[0], c, a); }
    }
  }

  lemma HappenPasses(s: State, e: Env, r: Rid)
    requires CanHappen(s, e) && 0 in s.procs && !e.Frame?
    ensures InFlight(Happen(s, e).procs[0], r) == InFlight(s.procs[0], r) && Happen(s, e).wire == s.wire
  {
  }

  /** What came in for `r` is `heard`, and then the event that is still being routed if that is one. */
  predicate HeardOnly(s: State, r: Rid, heard: seq<Event>) {
    0 in s.procs && OfRequest(s.wire, r) == heard + InFlight(s.procs[0], r)
  }

  lemma FrameHeard(s: State, ev: Event, r: Rid, heard: seq<Event>)
    requires CanHappen(s, Frame(ev)) && HeardOnly(s, r, heard)
    ensures HeardOnly(Happen(s, Frame(ev)), r, heard)
  {
    FrameFields(s, ev);
    OfRequestLast(s.wire, ev, r);
  }

  lemma StillHeard(s: State, m: Move, s': State, r: Rid, heard: seq<Event>)
    requires Globals(s) && Next(s, m, s') && r != "" && r in s.pending && r in s'.pending && HeardOnly(s, r, heard)
    ensures HeardOnly(s', r, heard)
  {
    match m
    case Proc(g, c) => StepPasses(s, g, c, r);
    case External(e) => if e.Frame? { FrameHeard(s, e.ev, r, heard); } else { HappenPasses(s, e, r); }
  }

  lemma {:induction false} RequestsNamed(ss: seq<State>, moves: seq<Move>, i: nat)
    requires Run(ss, moves) && i < |ss|
    ensures "" !in ss[i].P
  {
    if i > 0 {
      RequestsNamed(ss, moves, i - 1);
      assert NextAt(ss, moves, i - 1);
      match moves[i - 1]
      case Proc(g, c) => DoKeepsRequests(ss[i - 1].P, ss[i - 1].pending, Prog(ss[i - 1], ss[i - 1].procs[g], c).value.op);
      case External(e) => HappenAdds(ss[i - 1], e);
    }
  }

  ghost predicate ListedBetween(ss: seq<State>, j: nat, i: nat, r: Rid) { forall k :: j <= k <= i && k < |ss| ==> r in ss[k].pending }

  /**
   * While a request stays listed, no event that carries its id is dealt with: the first one that `route` gets to
   * takes the request out of the map.
   */
  lemma {:induction false} FirstEventIsTaken(ss: seq<State>, moves: seq<Move>, j: nat, i: nat, r: Rid, heard: seq<Event>)
    requires Run(ss, moves) && j <= i < |ss| && ListedBetween(ss, j, i, r) && HeardOnly(ss[j], r, heard)
    ensures HeardOnly(ss[i], r, heard)
    decreases i
  {
    if j < i {
      FirstEventIsTaken(ss, moves, j, i - 1, r, heard);
      RunRoles(ss, moves, i - 1);
      RequestsNamed(ss, moves, i - 1);
      assert NextAt(ss, moves, i - 1) && r in ss[i - 1].pending && r in ss[i].pending;
      StillHeard(ss[i - 1], moves[i - 1], ss[i], r, heard);
    }
  }

  lemma RunRoles(ss: seq<State>, moves: seq<Move>, i: nat)
    requires Run(ss, moves) && i < |ss|
    ensures Globals(ss[i]) && LastArrived(ss[i])
  {
    RunInv(ss, moves, i);
  }

  /**
   * So from one rest of the dispatcher to a later one, a request that is still listed got no event: had a frame with
   * its id come in, it would have been taken out of the map.
   */
  lemma ListedHearsNothing(ss: seq<State>, moves: seq<Move>, j: nat, i: nat, r: Rid)
    requires Run(ss, moves) && j <= i < |ss| && ListedBetween(ss, j, i, r)
    requires 0 in ss[j].procs && ss[j].procs[0] == Recv && 0 in ss[i].procs && ss[i].procs[0] == Recv
    ensures OfRequest(ss[i].wire, r) == OfRequest(ss[j].wire, r)
  {
    FirstEventIsTaken(ss, moves, j, i, r, OfRequest(ss[j].wire, r));
  }
}
