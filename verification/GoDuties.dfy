/** No turn is lost: an unfinished turn is in the map, or somebody is bound to register or finish it. */
module GoDuties {
  import opened Wire
  import opened GoClient
  import opened GoSettle
  import opened GoRoles

  function RestOf(k: Return): set<Rid> { if k.ToAborts? then k.rest else {} }

  /** The turns a goroutine at `pc` will still register or finish. */
  function DutyOf(pc: Pc): set<Rid> {
    match pc
    case SendMessage(r, at) => if Registering(pc) then {r} else {}
    case Finish(r, _, k, at) => if at.RecordWait? || at.RecordHeld? then {r} + RestOf(k) else RestOf(k)
    case FailPending(_, _, ts) => ts
    case FailTurns(_, ts) => ts
    case _ => {}
  }

  predicate Cared(r: Rid, t: Turn, s: State) {
    || t.done
    || r in s.turns
    || (t.creator in s.procs && r in DutyOf(s.procs[t.creator]))
    || (s.failer.Some? && s.failer.value in s.procs && r in DutyOf(s.procs[s.failer.value]))
  }

  ghost predicate Duties(s: State) { forall r :: r in s.T ==> Cared(r, s.T[r], s) }

  predicate Discharged(s: State, op: Op, q: Rid) {
    q in s.T ==> s.T[q].done || (op.Record? && op.r == q) || (op.Register? && op.r == q)
  }

  predicate DutyDiscipline(s: State, g: Gid, op: Op, pc': Pc)
    requires g in s.procs
  {
    && (forall q :: q in DutyOf(s.procs[g]) ==> q in DutyOf(pc') || Discharged(s, op, q))
    && (op.Deregister? && op.r in s.T ==> s.T[op.r].done || (s.T[op.r].creator == g && op.r in DutyOf(pc')))
    && (op.Shut? ==> s.turns <= DutyOf(pc') && s.failer.None?)
  }

  lemma TurnDoDone(t: Turn, g: Gid, op: Op)
    ensures TurnDo(t, g, op).done == (t.done || op.Record?)
  {
  }

  /** What one turn needs to stay cared for. */
  lemma StillCared(s: State, g: Gid, op: Op, pc': Pc, s': State, r: Rid)
    requires g in s.procs && DutyDiscipline(s, g, op, pc') && r in s.T && r in s'.T && Cared(r, s.T[r], s)
    requires s'.procs == s.procs[g := pc'] && s'.turns == TurnsDo(s.turns, op) && s'.failer == (if op.Shut? then Some(g) else s.failer)
    requires s'.T[r].creator == s.T[r].creator && s'.T[r].done == (s.T[r].done || (op.Record? && op.r == r))
    ensures Cared(r, s'.T[r], s')
  {
  }

  lemma ActKeepsDuties(s: State, g: Gid, op: Op, pc': Pc)
    requires Duties(s) && g in s.procs && Ready(s, op) && DutyDiscipline(s, g, op, pc')
    ensures Duties(Do(s, g, op, pc'))
  {
    var s' := Do(s, g, op, pc');
    DoKeepsTurns(s, g, op, pc');
    forall r | r in s'.T ensures Cared(r, s'.T[r], s') {
      TurnDoDone(s.T[r], g, op);
      StillCared(s, g, op, pc', s', r);
    }
  }

  lemma FinishDutyDiscipline(s: State, g: Gid, pc: Pc, a: Act)
    requires g in s.procs && s.procs[g] == pc && pc.Finish?
    requires FinishProg(s, pc.r, pc.o, pc.k, pc.finAt) == Some(a)
    requires ProcSettle(g, pc, s.T) && pc.r in s.T && TurnSettle(pc.r, s.T[pc.r], s.procs)
    ensures DutyDiscipline(s, g, a.op, a.then_)
  {
  }

  lemma SendDutyDiscipline(s: State, g: Gid, pc: Pc, c: Choice, a: Act)
    requires g in s.procs && s.procs[g] == pc && pc.SendMessage? && SendProg(s, pc.r, pc.sendAt, c) == Some(a)
    requires ProcRole(g, pc, s.failer, s.T, s.P)
    ensures DutyDiscipline(s, g, a.op, a.then_)
  {
  }

  lemma FailDutyDiscipline(s: State, g: Gid, c: Choice, a: Act)
    requires g in s.procs && (s.procs[g].FailAll? || s.procs[g].FailPending? || s.procs[g].FailTurns?)
    requires Prog(s, s.procs[g], c) == Some(a) && Globals(s)
    ensures DutyDiscipline(s, g, a.op, a.then_)
  {
  }

  /** The other programs have no duties and take on none. */
  lemma FreeDutyDiscipline(s: State, g: Gid, c: Choice, a: Act)
    requires g in s.procs && Prog(s, s.procs[g], c) == Some(a)
    requires var pc := s.procs[g]; pc.Route? || pc.Reply? || pc.Push? || pc.Request? || pc.Wait?
    ensures DutyDiscipline(s, g, a.op, a.then_)
  {
    assert DutyOf(s.procs[g]) == {};
    match s.procs[g]
    case Push(r, ev, at) => assert PushProg(s, r, ev, at, c) == Some(a);
    case _ =>
  }

  lemma ProgDutyDiscipline(s: State, g: Gid, c: Choice, a: Act)
    requires g in s.procs && Prog(s, s.procs[g], c) == Some(a)
    requires ProcSettle(g, s.procs[g], s.T) && ProcRole(g, s.procs[g], s.failer, s.T, s.P) && Globals(s)
    requires s.procs[g].Finish? ==> TurnSettle(s.procs[g].r, s.T[s.procs[g].r], s.procs)
    ensures DutyDiscipline(s, g, a.op, a.then_)
  {
    var pc := s.procs[g];
    if pc.Finish? {
      FinishDutyDiscipline(s, g, pc, a);
    } else if pc.SendMessage? {
      SendDutyDiscipline(s, g, pc, c, a);
    } else if pc.FailAll? || pc.FailPending? || pc.FailTurns? {
      FailDutyDiscipline(s, g, c, a);
    } else {
      FreeDutyDiscipline(s, g, c, a);
    }
  }
}
