/** The inductive invariant of the client: every goroutine step keeps it. */
module GoInvariant {
  import opened Wire
  import opened GoClient
  import opened GoLocks
  import opened GoSettle
  import opened GoRoles
  import opened GoDuties
  import opened GoArrivals
  import R = GoRequests
  import H = GoHistory

  /** A `push` that is choosing between sending and giving up faces an open channel. */
  predicate SendsToOpen(pc: Pc, T: map<Rid, Turn>) {
    pc.Push? && pc.pushAt.Selecting? ==> pc.r in T && !T[pc.r].closed
  }

  ghost predicate SafeSends(procs: map<Gid, Pc>, T: map<Rid, Turn>) {
    forall g :: g in procs ==> SendsToOpen(procs[g], T)
  }

  ghost predicate Inv(s: State) {
    && Locks(s) && Settle(s.procs, s.T) && Roles(s) && SafeSends(s.procs, s.T)
    && R.RequestsHold(s) && Duties(s) && Arrivals(s)
    && H.OwnOutcomes(s) && H.Histories(s.T, H.ViewOf(s.procs[0]))
    && !s.panicked
  }

  // ----- one lemma for each part of the invariant

  lemma StepKeepsLocks(s: State, g: Gid, c: Choice)
    requires CanStep(s, g, c) && Locks(s)
    ensures Locks(Step(s, g, c))
  {
    var a := Prog(s, s.procs[g], c).value;
    ProgDiscipline(s, s.procs[g], c, a);
    ActKeepsClientLock(s, g, a.op, a.then_);
    ActKeepsMuLocks(s, g, a.op, a.then_);
    ActKeepsSendLocks(s, g, a.op, a.then_);
  }

  lemma StepKeepsSettle(s: State, g: Gid, c: Choice)
    requires CanStep(s, g, c) && Settle(s.procs, s.T) && Roles(s)
    ensures Settle(Step(s, g, c).procs, Step(s, g, c).T)
  {
    var a := Prog(s, s.procs[g], c).value;
    assert ProcSettle(g, s.procs[g], s.T) && ProcRole(g, s.procs[g], s.failer, s.T, s.P);
    ProgSettleDiscipline(s, g, s.procs[g], c, a);
    ActKeepsSettle(s, g, a.op, a.then_);
  }

  lemma StepKeepsRoles(s: State, g: Gid, c: Choice)
    requires CanStep(s, g, c) && Roles(s)
    ensures Roles(Step(s, g, c))
  {
    var a := Prog(s, s.procs[g], c).value;
    ProgRoleDiscipline(s, g, s.procs[g], c, a);
    ActKeepsRoles(s, g, a.op, a.then_);
  }

  lemma StepKeepsRequests(s: State, g: Gid, c: Choice)
    requires CanStep(s, g, c) && R.RequestsHold(s) && Roles(s)
    ensures R.RequestsHold(Step(s, g, c))
  {
    var a := Prog(s, s.procs[g], c).value;
    assert ProcRole(g, s.procs[g], s.failer, s.T, s.P);
    ProgRoleDiscipline(s, g, s.procs[g], c, a);
    R.ProgRequestDiscipline(s, g, s.procs[g], c, a);
    R.ActKeepsRequests(s, g, a.op, a.then_);
  }

  lemma StepKeepsDuties(s: State, g: Gid, c: Choice)
    requires CanStep(s, g, c) && Duties(s) && Settle(s.procs, s.T) && Roles(s)
    ensures Duties(Step(s, g, c))
  {
    var a := Prog(s, s.procs[g], c).value;
    assert ProcSettle(g, s.procs[g], s.T) && ProcRole(g, s.procs[g], s.failer, s.T, s.P);
    ProgDutyDiscipline(s, g, c, a);
    ActKeepsDuties(s, g, a.op, a.then_);
  }

  lemma StepKeepsArrivals(s: State, g: Gid, c: Choice)
    requires CanStep(s, g, c) && Arrivals(s) && Roles(s)
    ensures Arrivals(Step(s, g, c))
  {
    var a := Prog(s, s.procs[g], c).value;
    assert ProcRole(g, s.procs[g], s.failer, s.T, s.P);
    ProgArrivalDiscipline(s, g, c, a);
    ActKeepsArrivals(s, g, a.op, a.then_);
  }

  lemma StepKeepsOwnOutcomes(s: State, g: Gid, c: Choice)
    requires CanStep(s, g, c) && H.OwnOutcomes(s)
    ensures H.OwnOutcomes(Step(s, g, c))
  {
    var a := Prog(s, s.procs[g], c).value;
    H.ProgOwnOutcome(s, s.procs[g], c, a);
    H.ActKeepsOwnOutcomes(s, g, a.op, a.then_);
  }

  // ----- nothing is sent on a closed channel

  lemma PutKeepsSafeSends(s: State, g: Gid, op: Op, pc': Pc, t: Turn)
    requires SafeSends(s.procs, s.T) && SendLocks(s.procs, s.T) && g in s.procs && OnTurn(op) && op.r in s.T
    requires op.CloseEvents? ==> SendMuOf(s.procs[g]) == Some(op.r) && !pc'.Push?
    requires SendsToOpen(pc', s.T) && (!op.CloseEvents? ==> t.closed == s.T[op.r].closed)
    ensures SafeSends(s.procs[g := pc'], s.T[op.r := t])
  {
    forall h | h in s.procs && h != g ensures SendsToOpen(s.procs[h], s.T[op.r := t]) {
      assert SendsToOpen(s.procs[h], s.T);
    }
  }

  /** Only the holder of a turn's `sendMu` closes its channel, and a selecting `push` is that holder. */
  lemma ActKeepsSafeSends(s: State, g: Gid, op: Op, pc': Pc)
    requires SafeSends(s.procs, s.T) && SendLocks(s.procs, s.T) && g in s.procs && Ready(s, op)
    requires op.CloseEvents? ==> SendMuOf(s.procs[g]) == Some(op.r) && !pc'.Push?
    requires SendsToOpen(pc', s.T)
    ensures SafeSends(Do(s, g, op, pc').procs, Do(s, g, op, pc').T)
  {
    if OnTurn(op) {
      TurnDoSettle(s.T[op.r], g, op);
      PutKeepsSafeSends(s, g, op, pc', TurnDo(s.T[op.r], g, op));
    }
  }

  lemma ProgSafeSends(s: State, pc: Pc, c: Choice, a: Act)
    requires Prog(s, pc, c) == Some(a)
    ensures a.op.CloseEvents? ==> SendMuOf(pc) == Some(a.op.r) && !a.then_.Push?
    ensures SendsToOpen(a.then_, s.T)
  {
    match pc
    case Finish(r, o, k, at) =>
    case Push(r, ev, at) =>
    case _ =>
  }

  lemma StepKeepsSafeSends(s: State, g: Gid, c: Choice)
    requires CanStep(s, g, c) && SafeSends(s.procs, s.T) && SendLocks(s.procs, s.T)
    ensures SafeSends(Step(s, g, c).procs, Step(s, g, c).T)
  {
    var a := Prog(s, s.procs[g], c).value;
    ProgSafeSends(s, s.procs[g], c, a);
    ActKeepsSafeSends(s, g, a.op, a.then_);
  }

  // ----- no step panics

  lemma UnlocksAreSafe(s: State, g: Gid, op: Op, pc': Pc)
    requires Locks(s) && g in s.procs && LockDiscipline(s.procs[g], op, pc')
    ensures UnlocksMu(op) ==> op.r in s.T && s.T[op.r].mu == Some(g)
    ensures op.UnlockSend? ==> op.r in s.T && s.T[op.r].sendMu == Some(g)
    ensures ReleasesClient(op) ==> s.cmu == Some(g)
  {
  }

  lemma ClosesAreSafe(s: State, g: Gid, op: Op, pc': Pc)
    requires Settle(s.procs, s.T) && g in s.procs && SettleDiscipline(s, s.procs[g], op, pc')
    ensures op.CloseEvents? ==> !s.T[op.r].eventsClosed
    ensures op.CloseSettled? ==> !s.T[op.r].settled
  {
    assert ProcSettle(g, s.procs[g], s.T);
    assert Settles(op) ==> TurnSettle(op.r, s.T[op.r], s.procs);
  }

  lemma SendsAreSafe(s: State, g: Gid, c: Choice, a: Act)
    requires g in s.procs && Prog(s, s.procs[g], c) == Some(a) && a.op.SendEvent?
    requires SafeSends(s.procs, s.T) && Settle(s.procs, s.T)
    ensures a.op.r in s.T && !s.T[a.op.r].eventsClosed
  {
    assert s.procs[g].Push?;
    assert SendsToOpen(s.procs[g], s.T);
    assert TurnSettle(a.op.r, s.T[a.op.r], s.procs);
  }

  lemma StepNeverPanics(s: State, g: Gid, c: Choice)
    requires CanStep(s, g, c) && Locks(s) && Settle(s.procs, s.T) && Roles(s) && SafeSends(s.procs, s.T)
    ensures !Panics(s, Prog(s, s.procs[g], c).value.op)
  {
    var a := Prog(s, s.procs[g], c).value;
    assert ProcSettle(g, s.procs[g], s.T) && ProcRole(g, s.procs[g], s.failer, s.T, s.P);
    ProgDiscipline(s, s.procs[g], c, a);
    UnlocksAreSafe(s, g, a.op, a.then_);
    ProgSettleDiscipline(s, g, s.procs[g], c, a);
    ClosesAreSafe(s, g, a.op, a.then_);
    ProgRoleDiscipline(s, g, s.procs[g], c, a);
    if a.op.SendEvent? { SendsAreSafe(s, g, c, a); }
  }

  // ----- histories

  lemma PushHistDiscipline(s: State, c: Choice, a: Act)
    requires 0 in s.procs && s.procs[0].Push? && Prog(s, s.procs[0], c) == Some(a) && Ready(s, a.op)
    requires Settle(s.procs, s.T) && SafeSends(s.procs, s.T) && s.procs[0].r in s.T
    ensures H.HistDiscipline(s, H.ViewOf(s.procs[0]), a.op, H.ViewOf(a.then_))
  {
    var pc := s.procs[0];
    assert TurnSettle(pc.r, s.T[pc.r], s.procs) && SendsToOpen(pc, s.T);
    assert PushProg(s, pc.r, pc.ev, pc.pushAt, c) == Some(a);
  }

  lemma FinishHistDiscipline(s: State, a: Act)
    requires 0 in s.procs && s.procs[0].Finish? && s.procs[0].r in s.T && H.OwnOutcome(s.procs[0])
    requires var pc := s.procs[0]; FinishProg(s, pc.r, pc.o, pc.k, pc.finAt) == Some(a)
    ensures H.HistDiscipline(s, H.ViewOf(s.procs[0]), a.op, H.ViewOf(a.then_))
  {
  }

  lemma CallHistDiscipline(s: State, c: Choice, a: Act)
    requires 0 in s.procs && !s.procs[0].Push? && !s.procs[0].Finish? && Prog(s, s.procs[0], c) == Some(a)
    ensures H.HistDiscipline(s, H.ViewOf(s.procs[0]), a.op, H.ViewOf(a.then_))
  {
  }

  lemma IdleHistDiscipline(s: State, c: Choice, a: Act)
    requires 0 in s.procs && !s.procs[0].Push? && Prog(s, s.procs[0], c) == Some(a)
    requires s.procs[0].Finish? ==> s.procs[0].r in s.T
    requires H.OwnOutcomes(s)
    ensures H.HistDiscipline(s, H.ViewOf(s.procs[0]), a.op, H.ViewOf(a.then_))
  {
    assert H.OwnOutcome(s.procs[0]);
    if s.procs[0].Finish? { FinishHistDiscipline(s, a); } else { CallHistDiscipline(s, c, a); }
  }

  lemma OnlyDispatcherSends(s: State, g: Gid, c: Choice, a: Act)
    requires g in s.procs && Prog(s, s.procs[g], c) == Some(a)
    ensures a.op.SendEvent? ==> s.procs[g].Push?
    ensures a.op.Deliver? ==> s.procs[g].Route?
    ensures a.op.Record? ==> s.procs[g].Finish? && a.op.r in s.T && !s.T[a.op.r].done
  {
    match s.procs[g]
    case Finish(r, o, k, at) =>
    case _ =>
  }

  lemma StepKeepsHistories(s: State, g: Gid, c: Choice)
    requires CanStep(s, g, c) && Settle(s.procs, s.T) && Roles(s) && SafeSends(s.procs, s.T)
    requires H.OwnOutcomes(s) && H.Histories(s.T, H.ViewOf(s.procs[0]))
    ensures H.Histories(Step(s, g, c).T, H.ViewOf(Step(s, g, c).procs[0]))
  {
    var a := Prog(s, s.procs[g], c).value;
    assert ProcRole(g, s.procs[g], s.failer, s.T, s.P) && H.OwnOutcome(s.procs[g]);
    OnlyDispatcherSends(s, g, c, a);
    if g == 0 {
      if s.procs[0].Push? { PushHistDiscipline(s, c, a); } else { IdleHistDiscipline(s, c, a); }
      H.DispatcherKeepsHistories(s, a.op, a.then_);
    } else {
      H.ProgOwnOutcome(s, s.procs[g], c, a);
      H.OtherKeepsHistories(s, g, a.op, a.then_, H.ViewOf(s.procs[0]));
    }
  }

  // ----- together

  lemma StepKeepsInv(s: State, g: Gid, c: Choice)
    requires CanStep(s, g, c) && Inv(s)
    ensures Inv(Step(s, g, c))
  {
    StepKeepsLocks(s, g, c);
    StepKeepsSettle(s, g, c);
    StepKeepsRoles(s, g, c);
    StepKeepsSafeSends(s, g, c);
    StepKeepsRequests(s, g, c);
    StepKeepsDuties(s, g, c);
    StepKeepsArrivals(s, g, c);
    StepKeepsOwnOutcomes(s, g, c);
    StepKeepsHistories(s, g, c);
    StepNeverPanics(s, g, c);
  }
}
