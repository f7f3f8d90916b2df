/**
 * One dispatch loop feeds every turn, inline. A turn whose buffer is full and whose consumer does not read
 * stops the loop, and with it every other turn, until somebody reads from it or settles it.
 */
module GoBackpressure {
  import opened Wire
  import opened GoClient
  import opened GoSettle
  import opened GoRoles
  import opened GoInvariant
  import opened GoTheorems
  import opened GoOutcomes
  import H = GoHistory

  // ----- the dispatch loop never runs an API call

  predicate LoopPc(pc: Pc) { !pc.SendMessage? && !pc.Request? && !pc.Wait? }

  lemma ProgStaysInLoop(s: State, pc: Pc, c: Choice, a: Act)
    requires Prog(s, pc, c) == Some(a) && LoopPc(pc)
    ensures LoopPc(a.then_)
  {
    match pc
    case Finish(_, _, _, _) =>
    case Push(_, _, _) =>
    case _ =>
  }

  lemma StepStaysInLoop(s: State, g: Gid, c: Choice)
    requires CanStep(s, g, c) && 0 in s.procs && LoopPc(s.procs[0])
    ensures 0 in Step(s, g, c).procs && LoopPc(Step(s, g, c).procs[0])
  {
    var a := Prog(s, s.procs[g], c).value;
    assert Step(s, g, c).procs == s.procs[g := a.then_];
    if g == 0 { ProgStaysInLoop(s, s.procs[0], c, a); }
  }

  lemma HappenStaysInLoop(s: State, e: Env)
    requires CanHappen(s, e) && 0 in s.procs && LoopPc(s.procs[0])
    ensures 0 in Happen(s, e).procs && LoopPc(Happen(s, e).procs[0])
  {
  }

  lemma {:induction false} RunStaysInLoop(ss: seq<State>, moves: seq<Move>, i: nat)
    requires Run(ss, moves) && i < |ss|
    ensures 0 in ss[i].procs && LoopPc(ss[i].procs[0])
  {
    if i > 0 {
      RunStaysInLoop(ss, moves, i - 1);
      assert NextAt(ss, moves, i - 1);
      match moves[i - 1]
      case Proc(g, c) => StepStaysInLoop(ss[i - 1], g, c);
      case External(e) => HappenStaysInLoop(ss[i - 1], e);
    }
  }

  // ----- when the loop is stopped

  /** The turn is not settled, its buffer is full, and one more event was routed to it than it has taken. */
  predicate Backed(t: Turn) { !t.settled && |t.buf| == CAPACITY && |t.routed| == |t.read| + |t.buf| + 1 }

  /** The loop has not ended and takes no frame, for anybody. */
  ghost predicate Stopped(s: State)
    requires 0 in s.procs
  {
    s.procs[0] != Halt && forall ev :: !CanHappen(s, Frame(ev))
  }

  lemma StoppedIs(s: State)
    requires 0 in s.procs
    ensures Stopped(s) <==> s.procs[0] != Halt && s.procs[0] != Recv
  {
    assert CanHappen(s, Frame(Event("", Pong))) <==> s.procs[0] == Recv;
  }

  ghost predicate Resting(s: State) { forall g :: g in s.procs ==> !CanRun(s, g) }

  /** A push that waits for room has a full buffer and one event in hand. */
  lemma ParkedIsBacked(s: State, r: Rid, ev: Event)
    requires 0 in s.procs && s.procs[0] == Push(r, ev, Selecting) && EnvWaits(s, 0) && H.HistOk(r, s.T[r], H.ViewOf(s.procs[0]))
    ensures Backed(s.T[r])
  {
  }

  /** Such a turn keeps the dispatcher from being anywhere else. */
  lemma BackedIsParked(s: State, r: Rid)
    requires 0 in s.procs && r in s.T && Backed(s.T[r]) && !s.T[r].done && H.HistOk(r, s.T[r], H.ViewOf(s.procs[0]))
    ensures s.procs[0] != Halt && s.procs[0] != Recv
  {
    var t := s.T[r];
    assert |H.SentOn(t)| < |t.routed|;
  }

  lemma DoneIsSettled(s: State, r: Rid)
    requires Settle(s.procs, s.T) && r in s.T && s.T[r].done && (forall g :: g in s.procs ==> EnvWaits(s, g))
    ensures s.T[r].settled
  {
    RestReleases(s, r);
  }

  /**
   * Whenever the goroutines are at rest, the loop is stopped for every turn exactly when some turn that is not
   * settled has a full buffer and an event too many.
   */
  lemma StoppedIff(ss: seq<State>, moves: seq<Move>, i: nat)
    requires Run(ss, moves) && i < |ss| && Resting(ss[i])
    ensures 0 in ss[i].procs
    ensures Stopped(ss[i]) <==> exists r :: r in ss[i].T && Backed(ss[i].T[r])
  {
    var s := ss[i];
    RunInv(ss, moves, i);
    NoDeadlock(ss, moves, i);
    RunStaysInLoop(ss, moves, i);
    StoppedIs(s);
    assert EnvWaits(s, 0);
    if s.procs[0] != Halt && s.procs[0] != Recv {
      ParkedIsBacked(s, s.procs[0].r, s.procs[0].ev);
    }
    forall r | r in s.T && Backed(s.T[r]) ensures s.procs[0] != Halt && s.procs[0] != Recv {
      if s.T[r].done { DoneIsSettled(s, r); }
      BackedIsParked(s, r);
    }
  }

  /** What a caller can see to: while every turn is settled or has fewer than 64 unread events, frames are taken. */
  lemma ReadersKeepItGoing(ss: seq<State>, moves: seq<Move>, i: nat, ev: Event)
    requires Run(ss, moves) && i < |ss| && Resting(ss[i])
    requires forall r :: r in ss[i].T ==> ss[i].T[r].settled || |ss[i].T[r].buf| < CAPACITY
    ensures 0 in ss[i].procs && (ss[i].procs[0] == Halt || CanHappen(ss[i], Frame(ev)))
  {
    StoppedIff(ss, moves, i);
    StoppedIs(ss[i]);
  }

  // ----- for how long

  predicate Parked(s: State, r: Rid) {
    && 0 in s.procs && s.procs[0].Push? && s.procs[0].r == r && s.procs[0].pushAt.Selecting?
    && r in s.T && |s.T[r].buf| == CAPACITY && !s.T[r].settled && !s.T[r].eventsClosed
  }

  /** A parked push takes no step of its own. */
  lemma ParkedCannotStep(s: State, c: Choice, r: Rid)
    requires Parked(s, r)
    ensures !CanStep(s, 0, c)
  {
    assert Prog(s, s.procs[0], c) == PushProg(s, r, s.procs[0].ev, Selecting, c);
  }

  lemma ParkedDo(s: State, g: Gid, op: Op, pc': Pc, r: Rid)
    requires Parked(s, r) && g != 0 && Ready(s, op) && !op.SendEvent?
    ensures var s' := Do(s, g, op, pc'); r in s'.T && (s'.T[r].settled || s'.T[r].eventsClosed || Parked(s', r))
  {
  }

  lemma ClosedAfterSettled(s: State, g: Gid, c: Choice, r: Rid)
    requires Inv(s) && CanStep(s, g, c) && r in s.T
    ensures r in Step(s, g, c).T && (Step(s, g, c).T[r].eventsClosed ==> Step(s, g, c).T[r].settled)
  {
    var a := Prog(s, s.procs[g], c).value;
    StepKeepsInv(s, g, c);
    DoKeepsTurns(s, g, a.op, a.then_);
    assert TurnSettle(r, Step(s, g, c).T[r], Step(s, g, c).procs);
  }

  lemma ParkedStep(s: State, g: Gid, c: Choice, r: Rid)
    requires Inv(s) && Parked(s, r) && CanStep(s, g, c)
    ensures r in Step(s, g, c).T && (Step(s, g, c).T[r].settled || Parked(Step(s, g, c), r))
  {
    var a := Prog(s, s.procs[g], c).value;
    assert ProcRole(g, s.procs[g], s.failer, s.T, s.P);
    OnlyDispatcherSends(s, g, c, a);
    ParkedCannotStep(s, c, r);
    ParkedDo(s, g, a.op, a.then_, r);
    ClosedAfterSettled(s, g, c, r);
  }

  lemma ParkedHappen(s: State, e: Env, r: Rid)
    requires Parked(s, r) && CanHappen(s, e) && e != Consume(r)
    ensures Parked(Happen(s, e), r)
  {
  }

  lemma ParkedNext(s: State, m: Move, s': State, r: Rid)
    requires Inv(s) && Parked(s, r) && Next(s, m, s') && m != External(Consume(r))
    ensures r in s'.T && (s'.T[r].settled || Parked(s', r)) && !(m.External? && m.e.Frame?)
  {
    match m
    case Proc(g, c) => ParkedStep(s, g, c, r);
    case External(e) => ParkedHappen(s, e, r);
  }

  predicate Untouched(ss: seq<State>, moves: seq<Move>, k: int, r: Rid) {
    0 <= k < |moves| && k + 1 < |ss| && moves[k] != External(Consume(r)) && (r in ss[k + 1].T ==> !ss[k + 1].T[r].settled)
  }

  predicate TakesFrame(m: Move) { m.External? && m.e.Frame? }

  lemma RunParked(ss: seq<State>, moves: seq<Move>, k: nat, r: Rid)
    requires Run(ss, moves) && k < |moves| && Parked(ss[k], r) && Untouched(ss, moves, k, r)
    ensures Parked(ss[k + 1], r) && !TakesFrame(moves[k])
  {
    assert NextAt(ss, moves, k);
    RunInv(ss, moves, k);
    ParkedNext(ss[k], moves[k], ss[k + 1], r);
  }

  lemma {:induction false} StaysParked(ss: seq<State>, moves: seq<Move>, i: nat, j: nat, r: Rid)
    requires Run(ss, moves) && i <= j < |ss| && Parked(ss[i], r)
    requires forall k :: i <= k < j ==> Untouched(ss, moves, k, r)
    ensures Parked(ss[j], r)
    decreases j
  {
    if i < j {
      StaysParked(ss, moves, i, j - 1, r);
      RunParked(ss, moves, j - 1, r);
    }
  }

  /** As long as nobody reads from the turn or settles it, nothing else is dispatched, however long the run. */
  lemma StaysStopped(ss: seq<State>, moves: seq<Move>, i: nat, j: nat, r: Rid)
    requires Run(ss, moves) && i <= j < |ss| && Parked(ss[i], r)
    requires forall k :: i <= k < j ==> Untouched(ss, moves, k, r)
    ensures Parked(ss[j], r) && Stopped(ss[j])
    ensures forall k :: i <= k < j ==> !TakesFrame(moves[k])
  {
    StaysParked(ss, moves, i, j, r);
    StoppedIs(ss[j]);
    forall k | i <= k < j ensures !TakesFrame(moves[k]) {
      StaysParked(ss, moves, i, k, r);
      assert Untouched(ss, moves, k, r);
      RunParked(ss, moves, k, r);
    }
  }
}
