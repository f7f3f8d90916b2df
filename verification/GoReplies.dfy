/** Linear ownership over whole runs: at most one move ever answers a request, and an answer stays one. */
module GoReplies {
  import opened Wire
  import opened GoClient
  import opened GoRoles
  import opened GoTheorems
  import R = GoRequests

  predicate ReplyTo(op: Op, r: Rid) { (op.ReplyResult? || op.ReplyErr?) && op.r == r }

  /** The move sends on one of the two channels of request `r`. */
  predicate Replies(s: State, m: Move, r: Rid) {
    m.Proc? && CanStep(s, m.g, m.c) && ReplyTo(Prog(s, s.procs[m.g], m.c).value.op, r)
  }

  predicate RepliesAt(ss: seq<State>, moves: seq<Move>, i: int, r: Rid) {
    0 <= i < |moves| && i < |ss| && Replies(ss[i], moves[i], r)
  }

  predicate IsAnswered(s: State, r: Rid) { r in s.P && s.P[r].owner == Answered }

  // ----- one operation

  /** Whoever replies owns the request. */
  lemma ReplierOwns(s: State, g: Gid, v: R.View, op: Op, v': R.View, r: Rid)
    requires R.ProcRequests(g, v, s.failer, s.P) && R.RequestDiscipline(s, g, v, op, v') && ReplyTo(op, r)
    ensures r in s.P && !IsAnswered(s, r)
  {
  }

  /** The only operations left on an answered request take the answer or withdraw the request. */
  lemma AnsweredOps(s: State, g: Gid, v: R.View, op: Op, v': R.View, r: Rid)
    requires R.ProcRequests(g, v, s.failer, s.P) && R.RequestDiscipline(s, g, v, op, v')
    requires OnRequest(op) && op.r == r && IsAnswered(s, r) && r !in s.pending
    ensures op.TakeResult? || op.TakeErr? || op.Withdraw?
  {
    match op
    case Enrol(_) =>
    case Claim(_) =>
    case ReplyResult(_, _) =>
    case ReplyErr(_, _) =>
    case _ =>
  }

  /** An operation that fits its goroutine's view answers only what is not answered yet, and un-answers nothing. */
  lemma OpAnswers(s: State, g: Gid, op: Op, v': R.View, r: Rid)
    requires R.RequestsHold(s) && g in s.procs && Ready(s, op)
    requires R.RequestDiscipline(s, g, R.ViewOf(s.procs[g]), op, v')
    ensures ReplyTo(op, r) ==> r in s.P && !IsAnswered(s, r)
    ensures OnRequest(op) && op.r == r && IsAnswered(s, r) ==> op.TakeResult? || op.TakeErr? || op.Withdraw?
  {
    assert R.ProcRequests(g, R.ViewOf(s.procs[g]), s.failer, s.P);
    if ReplyTo(op, r) { ReplierOwns(s, g, R.ViewOf(s.procs[g]), op, v', r); }
    if OnRequest(op) && op.r == r && IsAnswered(s, r) {
      assert R.RequestOk(r, s.P[r], s.procs, s.pending, s.failer);
      AnsweredOps(s, g, R.ViewOf(s.procs[g]), op, v', r);
    }
  }

  lemma PendAnswers(p: Pend, op: Op, listed: bool)
    ensures p.owner == Answered && !(op.Enrol? || op.Claim? || (op.Withdraw? && listed)) ==> PendDo(p, op, listed).owner == Answered
    ensures p.owner != Answered ==> (PendDo(p, op, listed).owner == Answered <==> op.ReplyResult? || op.ReplyErr?)
  {
    match op
    case ReplyResult(_, _) =>
    case ReplyErr(_, _) =>
    case TakeResult(_) =>
    case TakeErr(_) =>
    case Enrol(_) =>
    case Withdraw(_) =>
    case Claim(_) =>
    case _ =>
  }

  lemma DoAnswers(s: State, g: Gid, op: Op, pc': Pc, r: Rid)
    requires R.RequestsHold(s) && g in s.procs && Ready(s, op) && r in s.P
    requires R.RequestDiscipline(s, g, R.ViewOf(s.procs[g]), op, R.ViewOf(pc'))
    ensures r in Do(s, g, op, pc').P
    ensures IsAnswered(Do(s, g, op, pc'), r) <==> IsAnswered(s, r) || ReplyTo(op, r)
    ensures ReplyTo(op, r) ==> !IsAnswered(s, r)
  {
    OpAnswers(s, g, op, R.ViewOf(pc'), r);
    assert R.RequestOk(r, s.P[r], s.procs, s.pending, s.failer);
    PendAnswers(s.P[r], op, r in s.pending);
  }

  // ----- one move

  lemma StepAnswers(s: State, g: Gid, c: Choice, r: Rid)
    requires R.RequestsHold(s) && Roles(s) && CanStep(s, g, c) && r in s.P
    ensures r in Step(s, g, c).P
    ensures IsAnswered(Step(s, g, c), r) <==> IsAnswered(s, r) || Replies(s, Proc(g, c), r)
    ensures Replies(s, Proc(g, c), r) ==> !IsAnswered(s, r)
  {
    var a := Prog(s, s.procs[g], c).value;
    assert ProcRole(g, s.procs[g], s.failer, s.T, s.P);
    R.ProgRequestDiscipline(s, g, s.procs[g], c, a);
    DoAnswers(s, g, a.op, a.then_, r);
  }

  lemma HappenAnswers(s: State, e: Env, r: Rid)
    requires CanHappen(s, e)
    ensures r in s.P ==> r in Happen(s, e).P
    ensures r in Happen(s, e).P ==> (IsAnswered(Happen(s, e), r) <==> IsAnswered(s, r))
  {
  }

  lemma MoveAnswers(s: State, m: Move, s': State, r: Rid)
    requires R.RequestsHold(s) && Roles(s) && Next(s, m, s')
    ensures r in s.P ==> r in s'.P
    ensures IsAnswered(s', r) <==> IsAnswered(s, r) || Replies(s, m, r)
    ensures Replies(s, m, r) ==> !IsAnswered(s, r)
  {
    match m
    case Proc(g, c) =>
      var a := Prog(s, s.procs[g], c).value;
      assert ProcRole(g, s.procs[g], s.failer, s.T, s.P);
      R.ProgRequestDiscipline(s, g, s.procs[g], c, a);
      OpAnswers(s, g, a.op, R.ViewOf(a.then_), r);
      if r in s.P { StepAnswers(s, g, c, r); } else { DoKeepsRequests(s.P, s.pending, a.op); }
    case External(e) => HappenAnswers(s, e, r);
  }

  // ----- runs

  lemma RunAnswers(ss: seq<State>, moves: seq<Move>, i: nat, r: Rid)
    requires Run(ss, moves) && i < |moves|
    ensures IsAnswered(ss[i + 1], r) <==> IsAnswered(ss[i], r) || RepliesAt(ss, moves, i, r)
    ensures RepliesAt(ss, moves, i, r) ==> !IsAnswered(ss[i], r)
  {
    RunInv(ss, moves, i);
    assert NextAt(ss, moves, i);
    MoveAnswers(ss[i], moves[i], ss[i + 1], r);
  }

  /** An answered request stays answered. */
  lemma {:induction false} AnswerStays(ss: seq<State>, moves: seq<Move>, i: nat, j: nat, r: Rid)
    requires Run(ss, moves) && i <= j < |ss| && IsAnswered(ss[i], r)
    ensures IsAnswered(ss[j], r)
    decreases j
  {
    if i < j {
      AnswerStays(ss, moves, i, j - 1, r);
      RunAnswers(ss, moves, j - 1, r);
    }
  }

  /** A request is answered exactly when some move replied to it. */
  lemma {:induction false} AnsweredIffReplied(ss: seq<State>, moves: seq<Move>, i: nat, r: Rid)
    requires Run(ss, moves) && i < |ss|
    ensures IsAnswered(ss[i], r) <==> exists j :: 0 <= j < i && RepliesAt(ss, moves, j, r)
  {
    if i > 0 {
      AnsweredIffReplied(ss, moves, i - 1, r);
      RunAnswers(ss, moves, i - 1, r);
    }
  }

  /** Over a whole run at most one move replies to a request, whether it is `route` or `failAll` that gets to it. */
  lemma OneReply(ss: seq<State>, moves: seq<Move>, i: nat, j: nat, r: Rid)
    requires Run(ss, moves) && RepliesAt(ss, moves, i, r) && RepliesAt(ss, moves, j, r)
    ensures i == j
  {
    var a, b := if i < j then i else j, if i < j then j else i;
    RunAnswers(ss, moves, a, r);
    RunAnswers(ss, moves, b, r);
    if a < b { AnswerStays(ss, moves, a + 1, b, r); }
  }

  /** The move is the dispatcher's, in `route`, or that of the one goroutine that runs `failAll`. */
  predicate ByRoute(s: State, m: Move) { m.Proc? && m.g == 0 && 0 in s.procs && s.procs[0].Reply? }

  predicate ByFailAll(s: State, m: Move) { m.Proc? && s.failer == Some(m.g) && m.g in s.procs && s.procs[m.g].FailPending? }

  lemma ReplierIs(ss: seq<State>, moves: seq<Move>, i: nat, r: Rid)
    requires Run(ss, moves) && RepliesAt(ss, moves, i, r)
    ensures ByRoute(ss[i], moves[i]) != ByFailAll(ss[i], moves[i])
  {
    RunInv(ss, moves, i);
    var s, g := ss[i], moves[i].g;
    assert ProcRole(g, s.procs[g], s.failer, s.T, s.P);
    OnlySendersReply(s, s.procs[g], moves[i].c, Prog(s, s.procs[g], moves[i].c).value);
  }

  lemma OnlySendersReply(s: State, pc: Pc, c: Choice, a: Act)
    requires Prog(s, pc, c) == Some(a) && (a.op.ReplyResult? || a.op.ReplyErr?)
    ensures pc.Reply? || pc.FailPending?
  {
    match pc
    case Finish(_, _, _, _) => R.FinishUnconcerned(s, pc, a);
    case Push(_, _, _) => R.PushUnconcerned(s, pc, c, a);
    case _ =>
  }
}
