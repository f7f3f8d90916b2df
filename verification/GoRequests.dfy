/** Linear ownership of in-flight requests: exactly one party answers each, so its channels never block. */
module GoRequests {
  import opened Wire
  import opened GoClient

  /** The part of a program counter that concerns pending requests. */
  datatype View =
    | Unconcerned
    | Enrolling(r: Rid)      // `request` has not reached the map yet
    | Outstanding(r: Rid)    // `request` is in the map, or waiting, or about to remove itself
    | Replying(r: Rid)       // the dispatcher took the entry out and is about to send
    | Failing(ps: set<Rid>)  // `failAll` took these entries out and is sending to them

  function ViewOf(pc: Pc): View {
    match pc
    case Reply(r, _) => Replying(r)
    case FailPending(_, ps, _) => if ps == {} then Unconcerned else Failing(ps)
    case Request(r, at) => if at.EnrolWait? || at.EnrolHeld? then Enrolling(r) else Outstanding(r)
    case _ => Unconcerned
  }

  predicate ProcRequests(g: Gid, v: View, failer: Option<Gid>, P: map<Rid, Pend>) {
    match v
    case Unconcerned => true
    case Enrolling(r) => r in P && P[r].owner == Requester && P[r].creator == g
    case Outstanding(r) => r in P && P[r].owner != Requester && P[r].creator == g
    case Replying(r) => r in P && P[r].owner == Dispatcher && g == 0
    case Failing(ps) => failer == Some(g) && forall r :: r in ps ==> r in P && P[r].owner == Failer
  }

  predicate FailingTo(pc: Pc, r: Rid) { ViewOf(pc).Failing? && r in ViewOf(pc).ps }

  predicate RequestOk(r: Rid, p: Pend, procs: map<Gid, Pc>, pending: set<Rid>, failer: Option<Gid>) {
    && ((r in pending) == (p.owner == InMap))
    && (p.owner != Answered ==> p.result == [] && p.err == [])
    && |p.result| + |p.err| <= 1
    && p.creator in procs && 0 in procs
    && (p.owner == InMap ==> ViewOf(procs[p.creator]) == Outstanding(r))
    && (p.owner == Answered && ViewOf(procs[p.creator]) == Outstanding(r) ==> |p.result| + |p.err| == 1)
    && (p.owner == Dispatcher ==> ViewOf(procs[0]) == Replying(r))
    && (p.owner == Failer ==> failer.Some? && failer.value in procs && FailingTo(procs[failer.value], r))
  }

  ghost predicate Requests(procs: map<Gid, Pc>, P: map<Rid, Pend>, pending: set<Rid>, failer: Option<Gid>) {
    && (forall g :: g in procs ==> ProcRequests(g, ViewOf(procs[g]), failer, P))
    && (forall r :: r in P ==> RequestOk(r, P[r], procs, pending, failer))
  }

  ghost predicate RequestsHold(s: State) { Requests(s.procs, s.P, s.pending, s.failer) }

  /** How an operation must fit the goroutine's view. */
  predicate RequestDiscipline(s: State, g: Gid, v: View, op: Op, v': View) {
    match op
    case Enrol(r) => v == Enrolling(r) && v' == Outstanding(r)
    case Withdraw(r) => v == Outstanding(r) && v' == Unconcerned
    case Claim(r) => v == Unconcerned && v' == Replying(r) && r in s.pending && g == 0
    case Shut(_) => v == Unconcerned && v' == (if s.pending == {} then Unconcerned else Failing(s.pending))
    case ReplyResult(r, _) => v == Replying(r) && v' == Unconcerned
    case ReplyErr(r, _) =>
      || (v == Replying(r) && v' == Unconcerned)
      || (v.Failing? && r in v.ps && v' == if v.ps == {r} then Unconcerned else Failing(v.ps - {r}))
    case TakeResult(r) => v == Outstanding(r) && v' == Unconcerned
    case TakeErr(r) => v == Outstanding(r) && v' == Unconcerned
    case _ => v' == v || (v.Enrolling? && v' == Unconcerned)
  }

  /** One entry changes, and one goroutine's view. */
  lemma PutKeepsProcs(s: State, g: Gid, op: Op, pc': Pc, r: Rid)
    requires RequestsHold(s) && g in s.procs
    requires OnRequest(op) && op.r == r && Ready(s, op)
    requires RequestDiscipline(s, g, ViewOf(s.procs[g]), op, ViewOf(pc'))
    ensures var procs', P' := s.procs[g := pc'], s.P[r := PendDo(s.P[r], op, r in s.pending)];
      forall h :: h in procs' ==> ProcRequests(h, ViewOf(procs'[h]), s.failer, P')
  {
    var procs', P' := s.procs[g := pc'], s.P[r := PendDo(s.P[r], op, r in s.pending)];
    assert RequestOk(r, s.P[r], s.procs, s.pending, s.failer);
    assert ProcRequests(g, ViewOf(s.procs[g]), s.failer, s.P);
    forall h | h in procs' ensures ProcRequests(h, ViewOf(procs'[h]), s.failer, P') {
      assert ProcRequests(h, ViewOf(s.procs[h]), s.failer, s.P);
    }
  }

  /** The entry the operation is about. */
  lemma PutKeepsEntry(s: State, g: Gid, op: Op, pc': Pc, r: Rid)
    requires RequestsHold(s) && g in s.procs
    requires OnRequest(op) && op.r == r && Ready(s, op)
    requires RequestDiscipline(s, g, ViewOf(s.procs[g]), op, ViewOf(pc'))
    ensures RequestOk(r, PendDo(s.P[r], op, r in s.pending), s.procs[g := pc'], PendingDo(s.pending, op), s.failer)
  {
    assert RequestOk(r, s.P[r], s.procs, s.pending, s.failer);
    assert ProcRequests(g, ViewOf(s.procs[g]), s.failer, s.P);
  }

  /** Any other entry. */
  lemma PutKeepsOther(s: State, g: Gid, op: Op, pc': Pc, q: Rid)
    requires RequestsHold(s) && g in s.procs
    requires OnRequest(op) && op.r != q && q in s.P && Ready(s, op)
    requires RequestDiscipline(s, g, ViewOf(s.procs[g]), op, ViewOf(pc'))
    ensures RequestOk(q, s.P[q], s.procs[g := pc'], PendingDo(s.pending, op), s.failer)
  {
    assert RequestOk(q, s.P[q], s.procs, s.pending, s.failer);
    assert ProcRequests(g, ViewOf(s.procs[g]), s.failer, s.P);
  }

  lemma PutKeepsEntries(s: State, g: Gid, op: Op, pc': Pc, r: Rid)
    requires RequestsHold(s) && g in s.procs
    requires OnRequest(op) && op.r == r && Ready(s, op)
    requires RequestDiscipline(s, g, ViewOf(s.procs[g]), op, ViewOf(pc'))
    ensures var procs', P' := s.procs[g := pc'], s.P[r := PendDo(s.P[r], op, r in s.pending)];
      forall q :: q in P' ==> RequestOk(q, P'[q], procs', PendingDo(s.pending, op), s.failer)
  {
    var procs', P' := s.procs[g := pc'], s.P[r := PendDo(s.P[r], op, r in s.pending)];
    forall q | q in P' ensures RequestOk(q, P'[q], procs', PendingDo(s.pending, op), s.failer) {
      if q == r { PutKeepsEntry(s, g, op, pc', r); } else { PutKeepsOther(s, g, op, pc', q); }
    }
  }

  lemma PutKeepsRequests(s: State, g: Gid, op: Op, pc': Pc)
    requires RequestsHold(s) && g in s.procs
    requires OnRequest(op) && Ready(s, op)
    requires RequestDiscipline(s, g, ViewOf(s.procs[g]), op, ViewOf(pc'))
    ensures RequestsHold(Do(s, g, op, pc'))
  {
    PutKeepsProcs(s, g, op, pc', op.r);
    PutKeepsEntries(s, g, op, pc', op.r);
  }

  lemma ShutKeepsRequests(s: State, g: Gid, op: Op, pc': Pc)
    requires RequestsHold(s) && g in s.procs
    requires op.Shut? && s.failer.None? && s.pending <= s.P.Keys
    requires RequestDiscipline(s, g, ViewOf(s.procs[g]), op, ViewOf(pc'))
    ensures RequestsHold(Do(s, g, op, pc'))
  {
    var procs', P' := s.procs[g := pc'], RequestsDo(s.P, s.pending, op);
    forall h | h in procs' ensures ProcRequests(h, ViewOf(procs'[h]), Some(g), P') {
      assert ProcRequests(h, ViewOf(s.procs[h]), s.failer, s.P);
    }
    forall q | q in P' ensures RequestOk(q, P'[q], procs', {}, Some(g)) {
      assert RequestOk(q, s.P[q], s.procs, s.pending, s.failer);
    }
  }

  lemma MoveKeepsProcs(s: State, g: Gid, op: Op, pc': Pc)
    requires RequestsHold(s) && g in s.procs && !OnRequest(op) && !op.Shut?
    requires RequestDiscipline(s, g, ViewOf(s.procs[g]), op, ViewOf(pc'))
    ensures Requests(s.procs[g := pc'], s.P, s.pending, s.failer)
  {
    assert ProcRequests(g, ViewOf(s.procs[g]), s.failer, s.P);
    forall q | q in s.P ensures RequestOk(q, s.P[q], s.procs[g := pc'], s.pending, s.failer) {
      assert RequestOk(q, s.P[q], s.procs, s.pending, s.failer);
    }
  }

  lemma DoLeavesRequests(s: State, g: Gid, op: Op, pc': Pc)
    requires Ready(s, op) && !OnRequest(op) && !op.Shut?
    ensures var s' := Do(s, g, op, pc');
      s'.procs == s.procs[g := pc'] && s'.P == s.P && s'.pending == s.pending && s'.failer == s.failer
  {
  }

  lemma MoveKeepsRequests(s: State, g: Gid, op: Op, pc': Pc)
    requires RequestsHold(s) && g in s.procs && Ready(s, op) && !OnRequest(op) && !op.Shut?
    requires RequestDiscipline(s, g, ViewOf(s.procs[g]), op, ViewOf(pc'))
    ensures RequestsHold(Do(s, g, op, pc'))
  {
    MoveKeepsProcs(s, g, op, pc');
    DoLeavesRequests(s, g, op, pc');
  }

  lemma ActKeepsRequests(s: State, g: Gid, op: Op, pc': Pc)
    requires RequestsHold(s) && g in s.procs && Ready(s, op)
    requires s.pending <= s.P.Keys && (op.Shut? ==> s.failer.None?)
    requires RequestDiscipline(s, g, ViewOf(s.procs[g]), op, ViewOf(pc'))
    ensures RequestsHold(Do(s, g, op, pc'))
  {
    if op.Shut? {
      ShutKeepsRequests(s, g, op, pc');
    } else if OnRequest(op) {
      PutKeepsRequests(s, g, op, pc');
    } else {
      MoveKeepsRequests(s, g, op, pc');
    }
  }

  lemma RouteDiscipline(s: State, pc: Pc, a: Act)
    requires pc.Route? && RouteProg(s, pc.ev, pc.held) == Some(a)
    ensures RequestDiscipline(s, 0, ViewOf(pc), a.op, ViewOf(a.then_))
  {
  }

  lemma ReplyDiscipline(s: State, g: Gid, pc: Pc, a: Act)
    requires pc.Reply? && ReplyProg(pc.r, pc.ev) == Some(a)
    ensures RequestDiscipline(s, g, ViewOf(pc), a.op, ViewOf(a.then_))
  {
  }

  lemma FailAllDiscipline(s: State, g: Gid, pc: Pc, a: Act)
    requires pc.FailAll? && FailAllProg(s, pc.e, pc.held) == Some(a)
    ensures RequestDiscipline(s, g, ViewOf(pc), a.op, ViewOf(a.then_))
  {
  }

  lemma FailPendingDiscipline(s: State, g: Gid, pc: Pc, c: Choice, a: Act)
    requires pc.FailPending? && FailPendingProg(pc.e, pc.ps, pc.ts, c) == Some(a)
    ensures RequestDiscipline(s, g, ViewOf(pc), a.op, ViewOf(a.then_))
  {
    if pc.ps != {} { assert (pc.ps - {c.r} == {}) == (pc.ps == {c.r}); }
  }

  lemma FailTurnsUnconcerned(s: State, pc: Pc, c: Choice, a: Act)
    requires pc.FailTurns? && FailTurnsProg(pc.e, pc.ts, c) == Some(a)
    ensures ViewOf(a.then_) == Unconcerned && !OnRequest(a.op) && !a.op.Shut?
  {
  }

  lemma SendUnconcerned(s: State, pc: Pc, c: Choice, a: Act)
    requires pc.SendMessage? && SendProg(s, pc.r, pc.sendAt, c) == Some(a)
    ensures ViewOf(a.then_) == Unconcerned && !OnRequest(a.op) && !a.op.Shut?
  {
  }

  lemma WaitUnconcerned(s: State, pc: Pc, c: Choice, a: Act)
    requires pc.Wait? && WaitProg(s, pc.r, pc.waitAt, c) == Some(a)
    ensures ViewOf(a.then_) == Unconcerned && !OnRequest(a.op) && !a.op.Shut?
  {
  }

  lemma CallDiscipline(s: State, g: Gid, pc: Pc, c: Choice, a: Act)
    requires pc.Request? && RequestProg(s, pc.r, pc.reqAt, c) == Some(a)
    ensures RequestDiscipline(s, g, ViewOf(pc), a.op, ViewOf(a.then_))
  {
  }

  /** An operation that has nothing to do with requests. */
  lemma UnconcernedDiscipline(s: State, g: Gid, op: Op)
    requires !OnRequest(op) && !op.Shut?
    ensures RequestDiscipline(s, g, Unconcerned, op, Unconcerned)
  {
  }

  lemma ProgRequestDiscipline(s: State, g: Gid, pc: Pc, c: Choice, a: Act)
    requires Prog(s, pc, c) == Some(a) && (pc.Route? ==> g == 0)
    ensures RequestDiscipline(s, g, ViewOf(pc), a.op, ViewOf(a.then_))
  {
    match pc
    case Route(_, _) => RouteDiscipline(s, pc, a);
    case Reply(_, _) => ReplyDiscipline(s, g, pc, a);
    case Push(_, _, _) => PushUnconcerned(s, pc, c, a); UnconcernedDiscipline(s, g, a.op);
    case Finish(_, _, _, _) => FinishUnconcerned(s, pc, a); UnconcernedDiscipline(s, g, a.op);
    case FailAll(_, _) => FailAllDiscipline(s, g, pc, a);
    case FailPending(_, _, _) => FailPendingDiscipline(s, g, pc, c, a);
    case FailTurns(_, _) => FailTurnsUnconcerned(s, pc, c, a); UnconcernedDiscipline(s, g, a.op);
    case SendMessage(_, _) => SendUnconcerned(s, pc, c, a); UnconcernedDiscipline(s, g, a.op);
    case Request(_, _) => CallDiscipline(s, g, pc, c, a);
    case Wait(_, _) => WaitUnconcerned(s, pc, c, a); UnconcernedDiscipline(s, g, a.op);
  }

  lemma FinishUnconcerned(s: State, pc: Pc, a: Act)
    requires pc.Finish? && FinishProg(s, pc.r, pc.o, pc.k, pc.finAt) == Some(a)
    ensures ViewOf(a.then_) == Unconcerned && !OnRequest(a.op) && !a.op.Shut?
  {
  }

  lemma PushUnconcerned(s: State, pc: Pc, c: Choice, a: Act)
    requires pc.Push? && PushProg(s, pc.r, pc.ev, pc.pushAt, c) == Some(a)
    ensures ViewOf(a.then_) == Unconcerned && !OnRequest(a.op) && !a.op.Shut?
  {
  }

  /** The channels of a request are empty whenever somebody is about to send on them. */
  lemma SendersNeverBlock(s: State, g: Gid, op: Op, pc': Pc)
    requires RequestsHold(s) && g in s.procs
    requires RequestDiscipline(s, g, ViewOf(s.procs[g]), op, ViewOf(pc')) && (op.ReplyResult? || op.ReplyErr?)
    ensures Ready(s, op)
  {
    assert ProcRequests(g, ViewOf(s.procs[g]), s.failer, s.P);
    assert RequestOk(op.r, s.P[op.r], s.procs, s.pending, s.failer);
  }
}
