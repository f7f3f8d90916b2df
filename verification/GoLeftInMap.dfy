/** Exactly which finished turns are left in the map of active turns. */
module GoLeftInMap {
  import opened Wire
  import opened GoClient
  import opened GoSettle
  import opened GoRoles
  import opened GoInvariant
  import opened GoEnvironment
  import opened GoTheorems
  import opened GoOutcomes
  import opened GoBackpressure
  import opened GoLateTurns

  /** Move `j` registers `r` after its timer has recorded the outcome and been through `removeTurn`. */
  predicate TooLate(ss: seq<State>, moves: seq<Move>, j: int, r: Rid) {
    Late(ss, moves, j, r) && !Leaving(ss[j], r)
  }

  /** The transport refuses the frame of `r`. */
  predicate SendFails(s: State, m: Move, r: Rid) {
    m.Proc? && m.g in s.procs && s.procs[m.g] == SendMessage(r, Transmit) && m.c.Other?
  }

  predicate SendFailsAt(ss: seq<State>, moves: seq<Move>, k: int, r: Rid) {
    0 <= k < |moves| && k < |ss| && SendFails(ss[k], moves[k], r)
  }

  predicate Went(ss: seq<State>, moves: seq<Move>, j: int, i: int, r: Rid) {
    forall k :: j < k < i ==> !SendFailsAt(ss, moves, k, r)
  }

  // ----- a failed send takes the turn out

  predicate Undoing(s: State, r: Rid) {
    && r in s.T && s.T[r].creator in s.procs
    && var pc := s.procs[s.T[r].creator]; pc.SendMessage? && pc.r == r && (pc.sendAt.UndoWait? || pc.sendAt.UndoHeld?)
  }

  lemma DoKeepsCreator(s: State, g: Gid, op: Op, pc': Pc, r: Rid)
    requires Ready(s, op) && r in s.T
    ensures var s' := Do(s, g, op, pc'); r in s'.T && s'.T[r].creator == s.T[r].creator && s'.procs == s.procs[g := pc']
  {
    DoKeepsTurns(s, g, op, pc');
  }

  lemma UndoProg(s: State, pc: Pc, c: Choice, a: Act)
    requires pc.SendMessage? && (pc.sendAt.UndoWait? || pc.sendAt.UndoHeld?) && SendProg(s, pc.r, pc.sendAt, c) == Some(a)
    ensures a.op == Deregister(pc.r) || (a.then_.SendMessage? && a.then_.r == pc.r && a.then_.sendAt.UndoHeld?)
  {
  }

  lemma StepUndoing(s: State, g: Gid, c: Choice, r: Rid)
    requires CanStep(s, g, c) && Undoing(s, r) && r in Step(s, g, c).turns
    ensures Undoing(Step(s, g, c), r)
  {
    var a := Prog(s, s.procs[g], c).value;
    DoKeepsCreator(s, g, a.op, a.then_, r);
    if g == s.T[r].creator { UndoProg(s, s.procs[g], c, a); }
  }

  lemma HappenUndoing(s: State, e: Env, r: Rid)
    requires CanHappen(s, e) && Undoing(s, r)
    ensures Undoing(Happen(s, e), r)
  {
  }

  lemma {:induction false} RunUndoing(ss: seq<State>, moves: seq<Move>, i: nat, j: nat, r: Rid)
    requires Run(ss, moves) && i <= j < |ss| && Undoing(ss[i], r) && forall k :: i <= k <= j ==> r in ss[k].turns
    ensures Undoing(ss[j], r)
    decreases j
  {
    if i < j {
      RunUndoing(ss, moves, i, j - 1, r);
      assert NextAt(ss, moves, j - 1);
      match moves[j - 1]
      case Proc(g, c) => StepUndoing(ss[j - 1], g, c, r);
      case External(e) => HappenUndoing(ss[j - 1], e, r);
    }
  }

  lemma RestIsNotUndoing(ss: seq<State>, moves: seq<Move>, i: nat, r: Rid)
    requires Run(ss, moves) && i < |ss| && Resting(ss[i])
    ensures !Undoing(ss[i], r)
  {
    NoDeadlock(ss, moves, i);
    var s := ss[i];
    assert Undoing(s, r) ==> EnvWaits(s, s.T[r].creator);
  }

  lemma FailureUndoes(s: State, g: Gid, c: Choice, r: Rid)
    requires CanStep(s, g, c) && Roles(s) && SendFails(s, Proc(g, c), r)
    ensures Undoing(Step(s, g, c), r)
  {
    var a := Prog(s, s.procs[g], c).value;
    assert ProcRole(g, s.procs[g], s.failer, s.T, s.P);
    DoKeepsCreator(s, g, a.op, a.then_, r);
  }

  lemma FailureStaysUndoing(ss: seq<State>, moves: seq<Move>, k: nat, i: nat, r: Rid)
    requires Run(ss, moves) && k < i < |ss| && SendFailsAt(ss, moves, k, r) && forall m :: k < m <= i ==> r in ss[m].turns
    ensures Undoing(ss[i], r)
  {
    assert NextAt(ss, moves, k);
    RunInv(ss, moves, k);
    FailureUndoes(ss[k], moves[k].g, moves[k].c, r);
    RunUndoing(ss, moves, k + 1, i, r);
  }

  /** A turn that is in the map from `j + 1` to a state at rest was sent. */
  lemma ListedWasSent(ss: seq<State>, moves: seq<Move>, j: nat, i: nat, r: Rid)
    requires Run(ss, moves) && j < i < |ss| && Resting(ss[i]) && forall k :: j < k <= i ==> r in ss[k].turns
    ensures Went(ss, moves, j, i, r)
  {
    forall k | j < k < i ensures !SendFailsAt(ss, moves, k, r) {
      if SendFailsAt(ss, moves, k, r) {
        RestIsNotUndoing(ss, moves, i, r);
        FailureStaysUndoing(ss, moves, k, i, r);
      }
    }
  }

  // ----- what is left was registered too late

  lemma EntryLeaves(ss: seq<State>, moves: seq<Move>, j: nat, r: Rid)
    requires Run(ss, moves) && EntersAt(ss, moves, j, r) && DoneLeaves(ss[j], r)
    ensures DoneLeaves(ss[j + 1], r)
  {
    assert NextAt(ss, moves, j);
    match moves[j]
    case Proc(g, c) => StepLeaves(ss[j], g, c, r);
    case External(e) => HappenKeepsMap(ss[j], e);
  }

  lemma LeftWasLate(ss: seq<State>, moves: seq<Move>, i: nat, r: Rid) returns (j: nat)
    requires Run(ss, moves) && i < |ss| && Resting(ss[i]) && r in ss[i].turns && r in ss[i].T && ss[i].T[r].done
    ensures j < i && TooLate(ss, moves, j, r) && Went(ss, moves, j, i, r)
  {
    j := LastEntry(ss, moves, i, r);
    RunEnters(ss, moves, j, r);
    if DoneLeaves(ss[j], r) {
      EntryLeaves(ss, moves, j, r);
      RunLeaves(ss, moves, j + 1, i, r);
      RestIsNotLeaving(ss, moves, i, r);
    } else {
      RunOnlyItsTimer(ss, moves, j, r);
    }
    ListedWasSent(ss, moves, j, i, r);
  }

  // ----- what was registered too late is left

  /** Finished and in the map, with nobody about to take it out. */
  predicate Kept(s: State, r: Rid) {
    && r in s.turns && r in s.T && s.T[r].done && !Leaving(s, r) && s.T[r].creator in s.procs
    && (s.procs[s.T[r].creator] == SendMessage(r, Transmit) || s.procs[s.T[r].creator] == Halt)
  }

  lemma ProgEntersLeaving(s: State, pc: Pc, c: Choice, a: Act, r: Rid)
    requires Prog(s, pc, c) == Some(a) && LeavingPc(a.then_, r)
    ensures LeavingPc(pc, r) || (a.op.Record? && a.op.r == r)
  {
    match pc
    case Finish(_, _, _, _) =>
    case Push(_, _, _) =>
    case _ =>
  }

  lemma ProgTakesOut(s: State, pc: Pc, c: Choice, a: Act, r: Rid)
    requires Prog(s, pc, c) == Some(a) && a.op == Deregister(r)
    ensures LeavingPc(pc, r) || (pc.SendMessage? && pc.r == r && pc.sendAt.UndoHeld?)
  {
    match pc
    case Finish(_, _, _, _) =>
    case Push(_, _, _) =>
    case _ =>
  }

  /** Nobody takes a kept turn out of the map. */
  lemma KeptStaysListed(s: State, g: Gid, c: Choice, a: Act, r: Rid)
    requires g in s.procs && Prog(s, s.procs[g], c) == Some(a) && Kept(s, r)
    requires ProcSettle(g, s.procs[g], s.T) && ProcRole(g, s.procs[g], s.failer, s.T, s.P)
    ensures a.op != Deregister(r)
  {
    if a.op == Deregister(r) { ProgTakesOut(s, s.procs[g], c, a, r); }
  }

  lemma CreatorKeeps(s: State, g: Gid, c: Choice, a: Act, r: Rid)
    requires g in s.procs && Prog(s, s.procs[g], c) == Some(a) && Kept(s, r) && g == s.T[r].creator
    requires !SendFails(s, Proc(g, c), r)
    ensures a.then_ == Halt
  {
  }

  lemma DoKeeps(s: State, g: Gid, op: Op, pc': Pc, r: Rid)
    requires g in s.procs && Ready(s, op) && Kept(s, r) && op != Deregister(r) && !op.Shut?
    requires op.Record? ==> op.r in s.T && !s.T[op.r].done
    requires LeavingPc(pc', r) ==> LeavingPc(s.procs[g], r) || (op.Record? && op.r == r)
    requires g == s.T[r].creator ==> pc' == Halt
    ensures Kept(Do(s, g, op, pc'), r)
  {
  }

  lemma StepKeeps(s: State, g: Gid, c: Choice, r: Rid)
    requires CanStep(s, g, c) && Settle(s.procs, s.T) && Roles(s) && Kept(s, r) && !SendFails(s, Proc(g, c), r)
    ensures Kept(Step(s, g, c), r) || Step(s, g, c).closed
  {
    var a := Prog(s, s.procs[g], c).value;
    assert ProcSettle(g, s.procs[g], s.T) && ProcRole(g, s.procs[g], s.failer, s.T, s.P);
    KeptStaysListed(s, g, c, a, r);
    OnlyDispatcherSends(s, g, c, a);
    if LeavingPc(a.then_, r) { ProgEntersLeaving(s, s.procs[g], c, a, r); }
    if g == s.T[r].creator { CreatorKeeps(s, g, c, a, r); }
    if !a.op.Shut? { DoKeeps(s, g, a.op, a.then_, r); }
  }

  lemma OpensNotLeaving(s: State, e: Env, r: Rid)
    requires CanHappen(s, e) && 0 in s.procs && !e.Consume?
    ensures !LeavingPc(Opens(s, e), r)
  {
  }

  /** The environment starts goroutines and wakes the dispatcher; it moves nobody who is on the way. */
  lemma ExtendKeeps(s: State, s': State, g: Gid, pc': Pc, r: Rid)
    requires Extends(s, s', g, pc') && Kept(s, r)
    requires LeavingPc(pc', r) ==> g in s.procs && s.procs[g] == pc'
    ensures Kept(s', r)
  {
  }

  lemma HappenKeeps(s: State, e: Env, r: Rid)
    requires CanHappen(s, e) && 0 in s.procs && Kept(s, r)
    ensures Kept(Happen(s, e), r)
  {
    HappenExtends(s, e);
    if !e.Consume? { OpensNotLeaving(s, e, r); }
    ExtendKeeps(s, Happen(s, e), Actor(e), Opens(s, e), r);
  }

  lemma NextKeeps(s: State, m: Move, s': State, r: Rid)
    requires Inv(s) && Next(s, m, s') && Kept(s, r) && !SendFails(s, m, r)
    ensures Kept(s', r) || s'.closed
  {
    match m
    case Proc(g, c) => StepKeeps(s, g, c, r);
    case External(e) => HappenKeeps(s, e, r);
  }

  lemma RunKeepsOne(ss: seq<State>, moves: seq<Move>, i: nat, r: Rid)
    requires Run(ss, moves) && i < |moves| && Kept(ss[i], r) && !SendFailsAt(ss, moves, i, r)
    ensures Kept(ss[i + 1], r) || ss[i + 1].closed
  {
    assert NextAt(ss, moves, i);
    RunInv(ss, moves, i);
    NextKeeps(ss[i], moves[i], ss[i + 1], r);
  }

  lemma {:induction false} RunKeeps(ss: seq<State>, moves: seq<Move>, i: nat, j: nat, r: Rid)
    requires Run(ss, moves) && i <= j < |ss| && Kept(ss[i], r) && forall k :: i <= k < j ==> !SendFailsAt(ss, moves, k, r)
    ensures Kept(ss[j], r) || ss[j].closed
    decreases j
  {
    if i < j {
      RunKeeps(ss, moves, i, j - 1, r);
      if ss[j - 1].closed { ClosedForever(ss, moves, j - 1, j); } else { RunKeepsOne(ss, moves, j - 1, r); }
    }
  }

  /** The registering call is at `Transmit` right after it has registered. */
  lemma StepRegisters(s: State, g: Gid, c: Choice, r: Rid)
    requires CanStep(s, g, c) && Roles(s) && Enters(s, Step(s, g, c), r)
    ensures r in s.T && s.T[r].creator == g && Step(s, g, c).procs == s.procs[g := SendMessage(r, Transmit)] && Step(s, g, c).T == s.T
  {
    var a := Prog(s, s.procs[g], c).value;
    assert a.op == Register(r);
    RegistersOwn(s, s.procs[g], c, a, r);
    assert ProcRole(g, s.procs[g], s.failer, s.T, s.P);
  }

  lemma RegistersOwn(s: State, pc: Pc, c: Choice, a: Act, r: Rid)
    requires Prog(s, pc, c) == Some(a) && a.op == Register(r)
    ensures pc == SendMessage(r, RegisterHeld) && a.then_ == SendMessage(r, Transmit)
  {
    match pc
    case Finish(_, _, _, _) =>
    case Push(_, _, _) =>
    case _ =>
  }

  lemma LateIsKept(ss: seq<State>, moves: seq<Move>, j: nat, r: Rid)
    requires Run(ss, moves) && TooLate(ss, moves, j, r)
    ensures Kept(ss[j + 1], r)
  {
    assert NextAt(ss, moves, j);
    RunInv(ss, moves, j);
    match moves[j]
    case Proc(g, c) => StepRegisters(ss[j], g, c, r);
    case External(e) => HappenKeepsMap(ss[j], e);
  }

  lemma LateIsLeft(ss: seq<State>, moves: seq<Move>, j: nat, i: nat, r: Rid)
    requires Run(ss, moves) && j < i < |ss| && TooLate(ss, moves, j, r) && Went(ss, moves, j, i, r) && !ss[i].closed
    ensures r in ss[i].turns && r in ss[i].T && ss[i].T[r].done
  {
    LateIsKept(ss, moves, j, r);
    forall k | j + 1 <= k < i ensures !SendFailsAt(ss, moves, k, r) {}
    RunKeeps(ss, moves, j + 1, i, r);
  }

  lemma ListedIsOpen(ss: seq<State>, moves: seq<Move>, i: nat, r: Rid)
    requires Run(ss, moves) && i < |ss| && r in ss[i].turns
    ensures !ss[i].closed
  {
    if ss[i].closed { ClosedForever(ss, moves, i, i); }
  }

  ghost predicate WasTooLate(ss: seq<State>, moves: seq<Move>, i: nat, r: Rid) {
    exists j: nat :: j < i && TooLate(ss, moves, j, r) && Went(ss, moves, j, i, r)
  }

  /**
   * Exactly which finished turns are in the map of active turns at rest: on a client that is not closed, those that
   * were registered after their timer had recorded the outcome and been through `removeTurn`, and whose frame the
   * transport took.
   */
  lemma LeftInMapIff(ss: seq<State>, moves: seq<Move>, i: nat, r: Rid)
    requires Run(ss, moves) && i < |ss| && Resting(ss[i]) && r in ss[i].T
    ensures r in ss[i].turns && ss[i].T[r].done <==> !ss[i].closed && WasTooLate(ss, moves, i, r)
  {
    if r in ss[i].turns && ss[i].T[r].done {
      ListedIsOpen(ss, moves, i, r);
      var j := LeftWasLate(ss, moves, i, r);
    } else if !ss[i].closed && WasTooLate(ss, moves, i, r) {
      var j: nat :| j < i && TooLate(ss, moves, j, r) && Went(ss, moves, j, i, r);
      LateIsLeft(ss, moves, j, i, r);
    }
  }

  // ----- a turn without a timer is never left

  /** `SendMessage` never made `r` with a timer. */
  predicate NeverTimed(moves: seq<Move>, r: Rid) {
    forall k :: 0 <= k < |moves| ==> !Times(moves[k], r)
  }

  predicate Times(m: Move, r: Rid) { m.External? && m.e.CallSend? && m.e.r == r && m.e.timed }

  /** The goroutine carries no timeout of `r`. */
  predicate NoTimeoutPc(pc: Pc, r: Rid) {
    match pc
    case Finish(_, o, k, _) => o != TimedOut(r) && (k.ToAborts? ==> k.reason != TurnTimeout(r))
    case FailAll(e, _) => e != TurnTimeout(r)
    case FailPending(e, _, _) => e != TurnTimeout(r)
    case FailTurns(e, _) => e != TurnTimeout(r)
    case SendMessage(_, at) => at.UndoWait? || at.UndoHeld? ==> at.cause != TurnTimeout(r)
    case _ => true
  }

  predicate NoTimeoutTurn(t: Turn, r: Rid) { !t.armed && t.outcome != TimedOut(r) }

  ghost predicate NoTimeout(s: State, r: Rid) {
    && (forall g :: g in s.procs ==> NoTimeoutPc(s.procs[g], r))
    && s.closeErr != Some(TurnTimeout(r)) && (r in s.T ==> NoTimeoutTurn(s.T[r], r))
  }

  lemma ProgNoTimeout(s: State, pc: Pc, c: Choice, a: Act, r: Rid)
    requires Prog(s, pc, c) == Some(a) && NoTimeoutPc(pc, r) && s.closeErr != Some(TurnTimeout(r))
    ensures NoTimeoutPc(a.then_, r)
    ensures a.op.Record? ==> a.op.o != TimedOut(r)
    ensures a.op.Shut? ==> a.op.e != TurnTimeout(r)
  {
    match pc
    case Finish(_, _, _, _) =>
    case Push(_, _, _) =>
    case _ =>
  }

  lemma TurnNoTimeout(t: Turn, g: Gid, op: Op, r: Rid)
    requires NoTimeoutTurn(t, r) && (op.Record? ==> op.o != TimedOut(r))
    ensures NoTimeoutTurn(TurnDo(t, g, op), r)
  {
  }

  lemma StepNoTimeout(s: State, g: Gid, c: Choice, r: Rid)
    requires CanStep(s, g, c) && NoTimeout(s, r)
    ensures NoTimeout(Step(s, g, c), r)
  {
    var a := Prog(s, s.procs[g], c).value;
    ProgNoTimeout(s, s.procs[g], c, a, r);
    if r in s.T { TurnNoTimeout(s.T[r], g, a.op, r); }
  }

  lemma HappenNoTimeout(s: State, e: Env, r: Rid)
    requires CanHappen(s, e) && NoTimeout(s, r) && !Times(External(e), r)
    ensures NoTimeout(Happen(s, e), r)
  {
  }

  lemma {:induction false} RunNoTimeout(ss: seq<State>, moves: seq<Move>, i: nat, r: Rid)
    requires Run(ss, moves) && i < |ss| && NeverTimed(moves, r)
    ensures NoTimeout(ss[i], r)
  {
    if i > 0 {
      RunNoTimeout(ss, moves, i - 1, r);
      assert NextAt(ss, moves, i - 1) && !Times(moves[i - 1], r);
      match moves[i - 1]
      case Proc(g, c) => StepNoTimeout(ss[i - 1], g, c, r);
      case External(e) => HappenNoTimeout(ss[i - 1], e, r);
    }
  }

  /** What a caller can choose: a turn without a timeout is never left in the map. */
  lemma UntimedNeverLeft(ss: seq<State>, moves: seq<Move>, i: nat, r: Rid)
    requires Run(ss, moves) && i < |ss| && Resting(ss[i]) && NeverTimed(moves, r) && r in ss[i].T && ss[i].T[r].done
    ensures r !in ss[i].turns
  {
    RunNoTimeout(ss, moves, i, r);
    if r in ss[i].turns { OnlyLateTurnsStay(ss, moves, i, r); }
  }
}
