/** A turn that has settled has no timer left that could fire. */
module GoTimers {
  import opened Wire
  import opened GoClient
  import opened GoRoles
  import opened GoTheorems

  /** The goroutine has stopped the timer of the turn it is finishing. */
  predicate Stopped(pc: Pc) {
    pc.Finish? && !pc.finAt.RecordWait? && !pc.finAt.RecordHeld? && !pc.finAt.Stopping?
  }

  ghost predicate TimersOff(s: State) {
    && (forall r :: r in s.T && s.T[r].settled ==> !s.T[r].armed)
    && (forall g :: g in s.procs && Stopped(s.procs[g]) ==> s.procs[g].r in s.T && !s.T[s.procs[g].r].armed)
  }

  lemma ProgStops(s: State, pc: Pc, c: Choice, a: Act)
    requires Prog(s, pc, c) == Some(a)
    ensures Stopped(a.then_) ==> pc.Finish? && a.then_.r == pc.r && (Stopped(pc) || a.op == StopTimer(pc.r))
    ensures a.op.CloseSettled? ==> Stopped(pc) && pc.r == a.op.r
  {
    match pc
    case Finish(_, _, _, _) =>
    case Push(_, _, _) =>
    case _ =>
  }

  lemma StepKeepsTimersOff(s: State, g: Gid, c: Choice)
    requires CanStep(s, g, c) && TimersOff(s) && Roles(s)
    ensures TimersOff(Step(s, g, c))
  {
    var a := Prog(s, s.procs[g], c).value;
    ProgStops(s, s.procs[g], c, a);
    assert ProcRole(g, s.procs[g], s.failer, s.T, s.P);
  }

  lemma TimerFields(s: State, e: Env)
    requires CanHappen(s, e)
    ensures var T' := Happen(s, e).T;
      && (forall r :: r in s.T ==> r in T' && T'[r].settled == s.T[r].settled && (T'[r].armed ==> s.T[r].armed))
      && (forall r :: r in T' && r !in s.T ==> !T'[r].settled)
  {
  }

  lemma NoneStops(s: State, e: Env, g: Gid)
    requires CanHappen(s, e) && g in Happen(s, e).procs && Stopped(Happen(s, e).procs[g])
    ensures g in s.procs && s.procs[g] == Happen(s, e).procs[g]
  {
  }

  lemma HappenKeepsTimersOff(s: State, e: Env)
    requires CanHappen(s, e) && TimersOff(s)
    ensures TimersOff(Happen(s, e))
  {
    var s' := Happen(s, e);
    TimerFields(s, e);
    forall r | r in s'.T && s'.T[r].settled ensures !s'.T[r].armed { assert r in s.T; }
    forall g | g in s'.procs && Stopped(s'.procs[g]) ensures s'.procs[g].r in s'.T && !s'.T[s'.procs[g].r].armed {
      NoneStops(s, e, g);
    }
  }

  lemma {:induction false} SettledIsUnarmed(ss: seq<State>, moves: seq<Move>, i: nat)
    requires Run(ss, moves) && i < |ss|
    ensures TimersOff(ss[i])
  {
    if i > 0 {
      SettledIsUnarmed(ss, moves, i - 1);
      RunInv(ss, moves, i - 1);
      assert NextAt(ss, moves, i - 1);
      match moves[i - 1]
      case Proc(g, c) => StepKeepsTimersOff(ss[i - 1], g, c);
      case External(e) => HappenKeepsTimersOff(ss[i - 1], e);
    }
  }

  /** No timer fires for a turn that has settled. */
  lemma NoLateFire(ss: seq<State>, moves: seq<Move>, i: nat, g: Gid, r: Rid)
    requires Run(ss, moves) && i < |moves| && moves[i] == External(Fire(g, r))
    ensures r in ss[i].T && !ss[i].T[r].settled
  {
    SettledIsUnarmed(ss, moves, i);
    assert NextAt(ss, moves, i);
  }
}
