/** Who runs what: one dispatcher, at most one goroutine failing everything, and ids that exist. */
module GoRoles {
  import opened Wire
  import opened GoClient

  predicate DispatcherOnly(pc: Pc) {
    pc.Recv? || pc.Route? || pc.Reply? || pc.Push? || (pc.Finish? && pc.k.ToRecv?)
  }

  predicate FailerOnly(pc: Pc) {
    pc.FailPending? || pc.FailTurns? || (pc.Finish? && pc.k.ToAborts?)
  }

  predicate IdsExist(g: Gid, pc: Pc, T: map<Rid, Turn>, P: map<Rid, Pend>) {
    && (pc.Push? || pc.Finish? || pc.Wait? ==> pc.r in T)
    && (pc.SendMessage? ==> pc.r in T && T[pc.r].creator == g)
    && (pc.Reply? ==> pc.r in P)
    && (pc.Request? ==> pc.r in P && P[pc.r].creator == g)
    && (pc.FailPending? ==> pc.ps <= P.Keys)
    && (pc.FailPending? || pc.FailTurns? ==> pc.ts <= T.Keys)
    && (pc.Finish? && pc.k.ToAborts? ==> pc.k.rest <= T.Keys)
  }

  predicate ProcRole(g: Gid, pc: Pc, failer: Option<Gid>, T: map<Rid, Turn>, P: map<Rid, Pend>) {
    (DispatcherOnly(pc) ==> g == 0) && (FailerOnly(pc) ==> failer == Some(g)) && IdsExist(g, pc, T, P)
  }

  predicate Globals(s: State) {
    && 0 in s.procs
    && s.closed == s.failer.Some? == s.doneClosed == s.closeErr.Some?
    && (s.failer.Some? ==> s.failer.value in s.procs)
    && (s.closed ==> s.pending == {} && s.turns == {})
    && s.turns <= s.T.Keys && s.pending <= s.P.Keys && s.T.Keys !! s.P.Keys && "" !in s.T
  }

  ghost predicate Roles(s: State) {
    && Globals(s)
    && (forall g :: g in s.procs ==> ProcRole(g, s.procs[g], s.failer, s.T, s.P))
    && (forall r :: r in s.T ==> s.T[r].creator in s.procs)
    && (forall r :: r in s.P ==> s.P[r].creator in s.procs)
  }

  predicate RoleDiscipline(s: State, g: Gid, op: Op, pc': Pc) {
    && ProcRole(g, pc', if op.Shut? then Some(g) else s.failer, s.T, s.P)
    && (op.Register? ==> op.r in s.T && !s.closed)
    && (op.Enrol? ==> !s.closed)
    && (op.Shut? ==> !s.closed)
  }

  predicate SameTurns(T: map<Rid, Turn>, T': map<Rid, Turn>) {
    T'.Keys == T.Keys && forall r :: r in T ==> T'[r].creator == T[r].creator
  }

  predicate SameRequests(P: map<Rid, Pend>, P': map<Rid, Pend>) {
    P'.Keys == P.Keys && forall r :: r in P ==> P'[r].creator == P[r].creator
  }

  lemma TurnDoCreator(t: Turn, g: Gid, op: Op)
    ensures TurnDo(t, g, op).creator == t.creator
  {
  }

  lemma PutKeepsTurns(T: map<Rid, Turn>, r: Rid, t: Turn)
    requires r in T && t.creator == T[r].creator
    ensures SameTurns(T, T[r := t])
  {
  }

  lemma DoKeepsTurns(s: State, g: Gid, op: Op, pc': Pc)
    requires Ready(s, op)
    ensures SameTurns(s.T, Do(s, g, op, pc').T)
  {
    if OnTurn(op) {
      TurnDoCreator(s.T[op.r], g, op);
      PutKeepsTurns(s.T, op.r, TurnDo(s.T[op.r], g, op));
    }
  }

  lemma DoKeepsRequests(P: map<Rid, Pend>, pending: set<Rid>, op: Op)
    ensures SameRequests(P, RequestsDo(P, pending, op))
  {
  }

  lemma ActKeepsGlobals(s: State, g: Gid, op: Op, pc': Pc)
    requires Globals(s) && g in s.procs && Ready(s, op) && RoleDiscipline(s, g, op, pc')
    ensures Globals(Do(s, g, op, pc'))
  {
    DoKeepsTurns(s, g, op, pc');
    DoKeepsRequests(s.P, s.pending, op);
  }

  lemma ProcRoleFrame(g: Gid, pc: Pc, failer: Option<Gid>, T: map<Rid, Turn>, P: map<Rid, Pend>,
                      failer': Option<Gid>, T': map<Rid, Turn>, P': map<Rid, Pend>)
    requires ProcRole(g, pc, failer, T, P) && SameTurns(T, T') && SameRequests(P, P')
    requires failer.Some? ==> failer' == failer
    ensures ProcRole(g, pc, failer', T', P')
  {
  }

  lemma ActKeepsProcRoles(s: State, g: Gid, op: Op, pc': Pc, s': State)
    requires Roles(s) && g in s.procs && RoleDiscipline(s, g, op, pc')
    requires s'.procs == s.procs[g := pc'] && s'.failer == (if op.Shut? then Some(g) else s.failer)
    requires SameTurns(s.T, s'.T) && SameRequests(s.P, s'.P) && Globals(s')
    ensures Roles(s')
  {
    forall h | h in s'.procs ensures ProcRole(h, s'.procs[h], s'.failer, s'.T, s'.P) {
      if h == g {
        ProcRoleFrame(h, pc', s'.failer, s.T, s.P, s'.failer, s'.T, s'.P);
      } else {
        assert ProcRole(h, s.procs[h], s.failer, s.T, s.P);
        ProcRoleFrame(h, s.procs[h], s.failer, s.T, s.P, s'.failer, s'.T, s'.P);
      }
    }
  }

  lemma ActKeepsRoles(s: State, g: Gid, op: Op, pc': Pc)
    requires Roles(s) && g in s.procs && Ready(s, op) && RoleDiscipline(s, g, op, pc')
    ensures Roles(Do(s, g, op, pc'))
  {
    ActKeepsGlobals(s, g, op, pc');
    DoKeepsTurns(s, g, op, pc');
    DoKeepsRequests(s.P, s.pending, op);
    ActKeepsProcRoles(s, g, op, pc', Do(s, g, op, pc'));
  }

  lemma FinishRoleDiscipline(s: State, g: Gid, pc: Pc, a: Act)
    requires pc.Finish? && FinishProg(s, pc.r, pc.o, pc.k, pc.finAt) == Some(a)
    requires Globals(s) && ProcRole(g, pc, s.failer, s.T, s.P)
    ensures RoleDiscipline(s, g, a.op, a.then_)
  {
  }

  lemma LoopRoleDiscipline(s: State, g: Gid, pc: Pc, c: Choice, a: Act)
    requires pc.Route? || pc.Reply? || pc.Push?
    requires Prog(s, pc, c) == Some(a) && Globals(s) && ProcRole(g, pc, s.failer, s.T, s.P)
    ensures RoleDiscipline(s, g, a.op, a.then_)
  {
    match pc
    case Push(r, ev, at) => assert PushProg(s, r, ev, at, c) == Some(a);
    case _ =>
  }

  lemma FailRoleDiscipline(s: State, g: Gid, pc: Pc, c: Choice, a: Act)
    requires pc.FailAll? || pc.FailPending? || pc.FailTurns?
    requires Prog(s, pc, c) == Some(a) && Globals(s) && ProcRole(g, pc, s.failer, s.T, s.P)
    ensures RoleDiscipline(s, g, a.op, a.then_)
  {
  }

  lemma CallRoleDiscipline(s: State, g: Gid, pc: Pc, c: Choice, a: Act)
    requires pc.SendMessage? || pc.Request? || pc.Wait?
    requires Prog(s, pc, c) == Some(a) && Globals(s) && ProcRole(g, pc, s.failer, s.T, s.P)
    ensures RoleDiscipline(s, g, a.op, a.then_)
  {
    match pc
    case SendMessage(r, at) => assert SendProg(s, r, at, c) == Some(a);
    case Request(r, at) => assert RequestProg(s, r, at, c) == Some(a);
    case Wait(r, at) => assert WaitProg(s, r, at, c) == Some(a);
  }

  lemma ProgRoleDiscipline(s: State, g: Gid, pc: Pc, c: Choice, a: Act)
    requires Prog(s, pc, c) == Some(a) && Globals(s) && ProcRole(g, pc, s.failer, s.T, s.P)
    ensures RoleDiscipline(s, g, a.op, a.then_)
  {
    if pc.Finish? {
      FinishRoleDiscipline(s, g, pc, a);
    } else if pc.Route? || pc.Reply? || pc.Push? {
      LoopRoleDiscipline(s, g, pc, c, a);
    } else if pc.FailAll? || pc.FailPending? || pc.FailTurns? {
      FailRoleDiscipline(s, g, pc, c, a);
    } else {
      CallRoleDiscipline(s, g, pc, c, a);
    }
  }
}
