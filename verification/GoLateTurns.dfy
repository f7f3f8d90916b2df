/**
 * A turn's timer is armed before the turn is registered. A turn that times out in between can be put in the map
 * after it is done: without that, no finished turn is left in the map.
 */
module GoLateTurns {
  import opened Wire
  import opened GoClient
  import opened GoSettle
  import opened GoRoles
  import opened GoDuties
  import opened GoArrivals
  import opened GoInvariant
  import opened GoEnvironment
  import opened GoTheorems
  import opened GoOutcomes
  import opened GoBackpressure

  function TimedOut(r: Rid): Outcome { Outcome(None, Some(TurnTimeout(r))) }

  // ----- before a turn is registered, only its timer can finish it

  /** The goroutine does not work on turn `r`, unless it is its timer. */
  predicate Clear(pc: Pc, r: Rid) {
    match pc
    case Push(q, _, _) => q != r
    case Finish(q, o, k, _) => (q == r ==> o == TimedOut(r)) && r !in RestOf(k)
    case FailPending(_, _, ts) => r !in ts
    case FailTurns(_, ts) => r !in ts
    case _ => true
  }

  predicate Unregistered(s: State, r: Rid) {
    r in s.T && s.T[r].creator in s.procs && RegisteringTurn(s.procs[s.T[r].creator], r)
  }

  ghost predicate OnlyItsTimer(s: State, r: Rid) {
    Unregistered(s, r) ==>
      && (s.T[r].done ==> s.T[r].outcome == TimedOut(r))
      && forall g :: g in s.procs ==> Clear(s.procs[g], r)
  }

  lemma ProgClear(s: State, pc: Pc, c: Choice, a: Act, r: Rid)
    requires Prog(s, pc, c) == Some(a) && Clear(pc, r) && r !in s.turns
    requires !RegisteringTurn(pc, r) || RegisteringTurn(a.then_, r)
    requires pc.SendMessage? && pc.r == r ==> Registering(pc)
    ensures Clear(a.then_, r)
  {
    match pc
    case Finish(_, _, _, _) =>
    case Push(_, _, _) =>
    case _ =>
  }

  lemma ProgRecords(s: State, pc: Pc, c: Choice, a: Act, r: Rid)
    requires Prog(s, pc, c) == Some(a) && Clear(pc, r)
    ensures a.op.Record? && a.op.r == r ==> a.op.o == TimedOut(r)
  {
    match pc
    case Finish(_, _, _, _) =>
    case Push(_, _, _) =>
    case _ =>
  }

  lemma UnknownIsClear(s: State, g: Gid, r: Rid)
    requires g in s.procs && ProcRole(g, s.procs[g], s.failer, s.T, s.P) && r !in s.T
    ensures Clear(s.procs[g], r)
  {
  }

  lemma WasUnregistered(s: State, g: Gid, c: Choice, r: Rid)
    requires CanStep(s, g, c) && Roles(s) && Unregistered(Step(s, g, c), r)
    ensures Unregistered(s, r)
  {
    var a := Prog(s, s.procs[g], c).value;
    assert ProcRole(g, s.procs[g], s.failer, s.T, s.P);
    ProgArrivalDiscipline(s, g, c, a);
    DoKeepsTurns(s, g, a.op, a.then_);
  }

  lemma StepOnlyItsTimer(s: State, g: Gid, c: Choice, r: Rid)
    requires CanStep(s, g, c) && Roles(s) && Arrivals(s) && OnlyItsTimer(s, r)
    ensures OnlyItsTimer(Step(s, g, c), r)
  {
    var a, s' := Prog(s, s.procs[g], c).value, Step(s, g, c);
    if Unregistered(s', r) {
      WasUnregistered(s, g, c, r);
      DoKeepsTurns(s, g, a.op, a.then_);
      assert ArrivalOk(r, s) && ProcRole(g, s.procs[g], s.failer, s.T, s.P);
      ProgRecords(s, s.procs[g], c, a, r);
      ProgClear(s, s.procs[g], c, a, r);
    }
  }

  lemma OpensClear(s: State, e: Env, r: Rid)
    requires CanHappen(s, e) && 0 in s.procs
    ensures !e.Consume? ==> Clear(Opens(s, e), r)
    ensures RegisteringTurn(Opens(s, e), r) && r in s.T ==> e.Consume?
  {
  }

  /** A turn that is there and unregistered after an environment event was so before it. */
  lemma ExtendedUnregistered(s: State, s': State, g: Gid, pc': Pc, r: Rid)
    requires Extends(s, s', g, pc') && r in s.T && s.T[r].creator in s.procs && Unregistered(s', r)
    requires RegisteringTurn(pc', r) ==> g in s.procs && s.procs[g] == pc'
    ensures Unregistered(s, r) && s'.T[r].done == s.T[r].done && s'.T[r].outcome == s.T[r].outcome
  {
  }

  lemma NewTurnIsFree(s: State, s': State, g: Gid, pc': Pc, r: Rid)
    requires Roles(s) && Extends(s, s', g, pc') && r !in s.T && r in s'.T && Clear(pc', r)
    ensures !s'.T[r].done && forall h :: h in s'.procs ==> Clear(s'.procs[h], r)
  {
    forall h | h in s.procs ensures Clear(s.procs[h], r) {
      assert ProcRole(h, s.procs[h], s.failer, s.T, s.P);
      UnknownIsClear(s, h, r);
    }
  }

  lemma KnownOnlyItsTimer(s: State, s': State, g: Gid, pc': Pc, r: Rid)
    requires Extends(s, s', g, pc') && r in s.T && s.T[r].creator in s.procs && Unregistered(s', r) && OnlyItsTimer(s, r)
    requires RegisteringTurn(pc', r) ==> g in s.procs && s.procs[g] == pc'
    requires (g in s.procs && s.procs[g] == pc') || Clear(pc', r)
    ensures OnlyItsTimer(s', r)
  {
    ExtendedUnregistered(s, s', g, pc', r);
  }

  lemma HappenOnlyItsTimer(s: State, e: Env, r: Rid)
    requires CanHappen(s, e) && Roles(s) && OnlyItsTimer(s, r)
    ensures OnlyItsTimer(Happen(s, e), r)
  {
    var s', g, pc' := Happen(s, e), Actor(e), Opens(s, e);
    HappenExtends(s, e);
    OpensClear(s, e, r);
    HappenAdds(s, e);
    if Unregistered(s', r) && r in s.T {
      KnownOnlyItsTimer(s, s', g, pc', r);
    } else if Unregistered(s', r) {
      NewTurnIsFree(s, s', g, pc', r);
    }
  }

  lemma {:induction false} RunOnlyItsTimer(ss: seq<State>, moves: seq<Move>, i: nat, r: Rid)
    requires Run(ss, moves) && i < |ss|
    ensures OnlyItsTimer(ss[i], r)
  {
    if i > 0 {
      RunOnlyItsTimer(ss, moves, i - 1, r);
      assert NextAt(ss, moves, i - 1);
      RunInv(ss, moves, i - 1);
      match moves[i - 1]
      case Proc(g, c) => StepOnlyItsTimer(ss[i - 1], g, c, r);
      case External(e) => HappenOnlyItsTimer(ss[i - 1], e, r);
    }
  }

  // ----- the moment of registration

  predicate Enters(s: State, s': State, r: Rid) { r !in s.turns && r in s'.turns }

  predicate EntersAt(ss: seq<State>, moves: seq<Move>, j: int, r: Rid) {
    0 <= j < |moves| && j + 1 < |ss| && Enters(ss[j], ss[j + 1], r)
  }

  lemma StepEnters(s: State, g: Gid, c: Choice, r: Rid)
    requires CanStep(s, g, c) && Roles(s) && Enters(s, Step(s, g, c), r)
    ensures Unregistered(s, r) && Step(s, g, c).T == s.T
  {
    var a := Prog(s, s.procs[g], c).value;
    assert a.op == Register(r);
    assert ProcRole(g, s.procs[g], s.failer, s.T, s.P);
    ProgArrivalDiscipline(s, g, c, a);
  }

  lemma HappenKeepsMap(s: State, e: Env)
    requires CanHappen(s, e)
    ensures Happen(s, e).turns == s.turns
  {
  }

  lemma RunEnters(ss: seq<State>, moves: seq<Move>, j: nat, r: Rid)
    requires Run(ss, moves) && EntersAt(ss, moves, j, r)
    ensures Unregistered(ss[j], r) && ss[j + 1].T == ss[j].T
  {
    assert NextAt(ss, moves, j);
    RunInv(ss, moves, j);
    match moves[j]
    case Proc(g, c) => StepEnters(ss[j], g, c, r);
    case External(e) => HappenKeepsMap(ss[j], e);
  }

  /** A turn in the map was put there by some move, and has been there since. */
  lemma {:induction false} LastEntry(ss: seq<State>, moves: seq<Move>, i: nat, r: Rid) returns (j: nat)
    requires Run(ss, moves) && i < |ss| && r in ss[i].turns
    ensures j < i && EntersAt(ss, moves, j, r) && forall k :: j < k <= i ==> r in ss[k].turns
  {
    assert i > 0 by { assert ss[0].turns == {}; }
    if r in ss[i - 1].turns {
      j := LastEntry(ss, moves, i - 1, r);
    } else {
      j := i - 1;
    }
  }

  // ----- a turn that finishes while in the map leaves it

  predicate LeavingPc(pc: Pc, r: Rid) { pc.Finish? && pc.r == r && (pc.finAt.Stopping? || pc.finAt.RemoveWait? || pc.finAt.RemoveHeld?) }

  /** Whoever recorded the outcome is about to take the turn out of the map. */
  predicate Leaving(s: State, r: Rid) {
    r in s.T && s.T[r].winner.Some? && s.T[r].winner.value in s.procs && LeavingPc(s.procs[s.T[r].winner.value], r)
  }

  predicate DoneLeaves(s: State, r: Rid) { r in s.T && (s.T[r].done ==> Leaving(s, r)) }

  lemma ProgLeaving(s: State, pc: Pc, c: Choice, a: Act, r: Rid)
    requires Prog(s, pc, c) == Some(a)
    ensures LeavingPc(pc, r) ==> LeavingPc(a.then_, r) || a.op == Deregister(r)
    ensures a.op.Record? ==> LeavingPc(a.then_, a.op.r)
  {
    match pc
    case Finish(_, _, _, _) =>
    case Push(_, _, _) =>
    case _ =>
  }

  lemma DoLeaves(s: State, g: Gid, op: Op, pc': Pc, r: Rid)
    requires g in s.procs && Ready(s, op) && DoneLeaves(s, r) && r in TurnsDo(s.turns, op)
    requires LeavingPc(s.procs[g], r) ==> LeavingPc(pc', r) || op == Deregister(r)
    requires op.Record? ==> LeavingPc(pc', op.r) && op.r in s.T && !s.T[op.r].done
    ensures DoneLeaves(Do(s, g, op, pc'), r)
  {
  }

  lemma StepLeaves(s: State, g: Gid, c: Choice, r: Rid)
    requires CanStep(s, g, c) && DoneLeaves(s, r) && r in Step(s, g, c).turns
    ensures DoneLeaves(Step(s, g, c), r)
  {
    var a := Prog(s, s.procs[g], c).value;
    ProgLeaving(s, s.procs[g], c, a, r);
    OnlyDispatcherSends(s, g, c, a);
    DoLeaves(s, g, a.op, a.then_, r);
  }

  lemma HappenLeaves(s: State, e: Env, r: Rid)
    requires CanHappen(s, e) && DoneLeaves(s, r)
    ensures DoneLeaves(Happen(s, e), r)
  {
  }

  lemma {:induction false} RunLeaves(ss: seq<State>, moves: seq<Move>, i: nat, j: nat, r: Rid)
    requires Run(ss, moves) && i <= j < |ss| && DoneLeaves(ss[i], r) && forall k :: i <= k <= j ==> r in ss[k].turns
    ensures DoneLeaves(ss[j], r)
    decreases j
  {
    if i < j {
      RunLeaves(ss, moves, i, j - 1, r);
      assert NextAt(ss, moves, j - 1);
      match moves[j - 1]
      case Proc(g, c) => StepLeaves(ss[j - 1], g, c, r);
      case External(e) => HappenLeaves(ss[j - 1], e, r);
    }
  }

  lemma RestIsNotLeaving(ss: seq<State>, moves: seq<Move>, i: nat, r: Rid)
    requires Run(ss, moves) && i < |ss| && Resting(ss[i])
    ensures !Leaving(ss[i], r)
  {
    NoDeadlock(ss, moves, i);
    var s := ss[i];
    assert Leaving(s, r) ==> EnvWaits(s, s.T[r].winner.value);
  }

  /** `r` timed out before it was put in the map, by move `j`. */
  predicate Late(ss: seq<State>, moves: seq<Move>, j: int, r: Rid) {
    EntersAt(ss, moves, j, r) && r in ss[j].T && ss[j].T[r].done && ss[j].T[r].outcome == TimedOut(r)
  }

  /** At rest, a finished turn is in the map only if its timer fired before it was registered. */
  lemma OnlyLateTurnsStay(ss: seq<State>, moves: seq<Move>, i: nat, r: Rid)
    requires Run(ss, moves) && i < |ss| && Resting(ss[i])
    requires r in ss[i].turns && r in ss[i].T && ss[i].T[r].done
    ensures ss[i].T[r].outcome == TimedOut(r)
    ensures exists j :: 0 <= j < i && Late(ss, moves, j, r)
  {
    var j := LastEntry(ss, moves, i, r);
    RunEnters(ss, moves, j, r);
    if !ss[j].T[r].done {
      RunLeaves(ss, moves, j + 1, i, r);
      RestIsNotLeaving(ss, moves, i, r);
    } else {
      RunOnlyItsTimer(ss, moves, j, r);
      FirstOutcomeWins(ss, moves, j, i, r);
      assert Late(ss, moves, j, r);
    }
  }

  // ----- and it does stay

  /** The turn is settled, and the call that made it has returned. */
  predicate Finished(s: State, r: Rid) {
    r in s.T && s.T[r].settled && s.T[r].creator in s.procs && s.procs[s.T[r].creator] == Halt
  }

  lemma ProgDeregisters(s: State, pc: Pc, c: Choice, a: Act, r: Rid)
    requires Prog(s, pc, c) == Some(a) && a.op == Deregister(r)
    ensures StageOf(pc) == Recorded(r) || (pc.SendMessage? && pc.r == r)
  {
    match pc
    case Finish(_, _, _, _) =>
    case Push(_, _, _) =>
    case _ =>
  }

  lemma DoKeepsFinished(s: State, g: Gid, op: Op, pc': Pc, r: Rid)
    requires g in s.procs && Ready(s, op) && Finished(s, r) && s.T[r].creator != g
    ensures Finished(Do(s, g, op, pc'), r)
  {
  }

  lemma FinishedStaysListed(s: State, g: Gid, c: Choice, a: Act, r: Rid)
    requires g in s.procs && Prog(s, s.procs[g], c) == Some(a) && Finished(s, r)
    requires ProcSettle(g, s.procs[g], s.T) && ProcRole(g, s.procs[g], s.failer, s.T, s.P)
    ensures a.op != Deregister(r) && s.T[r].creator != g
  {
    if a.op == Deregister(r) { ProgDeregisters(s, s.procs[g], c, a, r); }
  }

  lemma StepKeepsFinished(s: State, g: Gid, c: Choice, r: Rid)
    requires CanStep(s, g, c) && Settle(s.procs, s.T) && Roles(s) && Finished(s, r)
    ensures Finished(Step(s, g, c), r)
    ensures r in s.turns ==> r in Step(s, g, c).turns || Step(s, g, c).closed
  {
    var a := Prog(s, s.procs[g], c).value;
    assert ProcSettle(g, s.procs[g], s.T) && ProcRole(g, s.procs[g], s.failer, s.T, s.P);
    FinishedStaysListed(s, g, c, a, r);
    DoKeepsFinished(s, g, a.op, a.then_, r);
  }

  lemma HappenKeepsFinished(s: State, e: Env, r: Rid)
    requires CanHappen(s, e) && Finished(s, r)
    ensures Finished(Happen(s, e), r) && Happen(s, e).turns == s.turns && Happen(s, e).closed == s.closed
  {
    HappenKeepsMap(s, e);
  }

  lemma NextKeepsFinished(s: State, m: Move, s': State, r: Rid)
    requires Next(s, m, s') && Settle(s.procs, s.T) && Roles(s) && Finished(s, r)
    ensures Finished(s', r) && (r in s.turns ==> r in s'.turns || s'.closed)
  {
    match m
    case Proc(g, c) => StepKeepsFinished(s, g, c, r);
    case External(e) => HappenKeepsFinished(s, e, r);
  }

  lemma RunKeepsFinished(ss: seq<State>, moves: seq<Move>, i: nat, r: Rid)
    requires Run(ss, moves) && i < |moves| && Finished(ss[i], r)
    ensures Finished(ss[i + 1], r) && (r in ss[i].turns ==> r in ss[i + 1].turns || ss[i + 1].closed)
  {
    assert NextAt(ss, moves, i);
    RunInv(ss, moves, i);
    NextKeepsFinished(ss[i], moves[i], ss[i + 1], r);
  }

  /** A settled turn still in the map when its call has returned is in it until the client shuts down. */
  lemma {:induction false} StaysInMap(ss: seq<State>, moves: seq<Move>, i: nat, j: nat, r: Rid)
    requires Run(ss, moves) && i <= j < |ss| && Finished(ss[i], r) && r in ss[i].turns
    ensures Finished(ss[j], r) && (r in ss[j].turns || ss[j].closed)
    decreases j
  {
    if i < j {
      StaysInMap(ss, moves, i, j - 1, r);
      RunKeepsFinished(ss, moves, j - 1, r);
      if ss[j - 1].closed { ClosedForever(ss, moves, j - 1, j); }
    }
  }
}
