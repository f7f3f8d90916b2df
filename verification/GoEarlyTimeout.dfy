/** A run in which a turn times out before it is registered. */
module GoEarlyTimeout {
  import opened Wire
  import opened GoClient
  import opened GoReach
  import opened GoLateTurns

  /** `SendMessage` (goroutine 1) is about to register `r`, whose timer (goroutine 2) is at `pc`. */
  predicate Racing(s: State, pc: Pc, cmu: Option<Gid>, r: Rid, t: Turn) {
    && 1 in s.procs && s.procs[1] == SendMessage(r, RegisterWait) && 2 in s.procs && s.procs[2] == pc
    && s.cmu == cmu && !s.closed && r in s.T && s.T[r] == t && t.creator == 1
  }

  /** One operation of the timer on its turn. */
  lemma TimerStep(s: State, pc: Pc, op: Op, pc': Pc, r: Rid, t: Turn) returns (s': State)
    requires Reachable(s) && Racing(s, pc, None, r, t) && OnTurn(op) && op.r == r && !op.Deliver?
    requires Prog(s, pc, Take) == Some(Act(op, pc')) && Ready(s, op)
    ensures Reachable(s') && Racing(s', pc', None, r, TurnDo(t, 2, op))
  {
    s' := Do(s, 2, op, pc');
    StepReachable(s, 2, Take, op, pc');
  }

  /** The timer takes the turn out of a map it is not in. */
  lemma TimerRemoves(s: State, o: Outcome, r: Rid, t: Turn) returns (s': State)
    requires Reachable(s) && Racing(s, Finish(r, o, ToHalt, RemoveWait), None, r, t)
    ensures Reachable(s') && Racing(s', Finish(r, o, ToHalt, OnceDo), None, r, t)
  {
    var s1 := Do(s, 2, LockClient, Finish(r, o, ToHalt, RemoveHeld));
    StepReachable(s, 2, Take, LockClient, Finish(r, o, ToHalt, RemoveHeld));
    s' := Do(s1, 2, Deregister(r), Finish(r, o, ToHalt, OnceDo));
    StepReachable(s1, 2, Take, Deregister(r), Finish(r, o, ToHalt, OnceDo));
  }

  lemma TimerFires(r: Rid) returns (s: State, t: Turn)
    requires r != ""
    ensures Reachable(s) && Racing(s, Finish(r, TimedOut(r), ToHalt, RecordWait), None, r, t)
    ensures t == NewTurn(1, false)
  {
    InitReachable();
    s := TurnCalled(Init(), 1, r, true);
    HappenReachable(s, Fire(2, r));
    s := Happen(s, Fire(2, r));
    t := s.T[r];
  }

  function TimerAt(r: Rid, at: FinAt): Pc { Finish(r, TimedOut(r), ToHalt, at) }

  /** Nothing has been closed yet. */
  predicate StillOpen(t: Turn) { t.sendMu.None? && !t.once && !t.settled && !t.closed && !t.eventsClosed }

  lemma TimerLocks(s: State, r: Rid, t: Turn) returns (s': State, t': Turn)
    requires Reachable(s) && Racing(s, TimerAt(r, RecordWait), None, r, t) && t.mu.None? && !t.done && StillOpen(t)
    ensures Reachable(s') && Racing(s', TimerAt(r, RecordHeld), None, r, t') && t'.mu == Some(2) && !t'.done && StillOpen(t')
  {
    t' := TurnDo(t, 2, LockMu(r));
    s' := TimerStep(s, TimerAt(r, RecordWait), LockMu(r), TimerAt(r, RecordHeld), r, t);
  }

  lemma TimerSets(s: State, r: Rid, t: Turn) returns (s': State, t': Turn)
    requires Reachable(s) && Racing(s, TimerAt(r, RecordHeld), None, r, t) && !t.done && StillOpen(t)
    ensures Reachable(s') && Racing(s', TimerAt(r, Stopping), None, r, t') && t'.done && t'.outcome == TimedOut(r) && StillOpen(t')
  {
    t' := TurnDo(t, 2, Record(r, TimedOut(r)));
    s' := TimerStep(s, TimerAt(r, RecordHeld), Record(r, TimedOut(r)), TimerAt(r, Stopping), r, t);
  }

  lemma TimerStops(s: State, r: Rid, t: Turn) returns (s': State, t': Turn)
    requires Reachable(s) && Racing(s, TimerAt(r, Stopping), None, r, t) && t.done && t.outcome == TimedOut(r) && StillOpen(t)
    ensures Reachable(s') && Racing(s', TimerAt(r, RemoveWait), None, r, t') && t'.done && t'.outcome == TimedOut(r) && StillOpen(t')
  {
    t' := TurnDo(t, 2, StopTimer(r));
    s' := TimerStep(s, TimerAt(r, Stopping), StopTimer(r), TimerAt(r, RemoveWait), r, t);
  }

  /** The timer records its outcome while the turn is still unregistered. */
  lemma TimerRecords(s: State, r: Rid, t: Turn) returns (s': State, t': Turn)
    requires Reachable(s) && Racing(s, TimerAt(r, RecordWait), None, r, t) && t.mu.None? && !t.done && StillOpen(t)
    ensures Reachable(s') && Racing(s', TimerAt(r, OnceDo), None, r, t') && t'.done && t'.outcome == TimedOut(r) && StillOpen(t')
  {
    s', t' := TimerLocks(s, r, t);
    s', t' := TimerSets(s', r, t');
    s', t' := TimerStops(s', r, t');
    s' := TimerRemoves(s', TimedOut(r), r, t');
  }

  lemma TimerSettles(s: State, r: Rid, t: Turn) returns (s': State, t': Turn)
    requires Reachable(s) && Racing(s, TimerAt(r, OnceDo), None, r, t) && t.done && StillOpen(t)
    ensures Reachable(s') && Racing(s', TimerAt(r, CloseWait), None, r, t')
    ensures t'.done && t'.outcome == t.outcome && t'.settled && t'.sendMu.None?
  {
    t' := TurnDo(t, 2, CloseSettled(r));
    s' := TimerStep(s, TimerAt(r, OnceDo), CloseSettled(r), TimerAt(r, CloseWait), r, t);
  }

  lemma TimerLocksSend(s: State, r: Rid, t: Turn) returns (s': State, t': Turn)
    requires Reachable(s) && Racing(s, TimerAt(r, CloseWait), None, r, t) && t.done && t.settled && t.sendMu.None?
    ensures Reachable(s') && Racing(s', TimerAt(r, CloseHeld), None, r, t') && t'.done && t'.outcome == t.outcome && t'.settled
  {
    t' := TurnDo(t, 2, LockSend(r));
    s' := TimerStep(s, TimerAt(r, CloseWait), LockSend(r), TimerAt(r, CloseHeld), r, t);
  }

  lemma TimerClosesEvents(s: State, r: Rid, t: Turn) returns (s': State, t': Turn)
    requires Reachable(s) && Racing(s, TimerAt(r, CloseHeld), None, r, t) && t.done && t.settled
    ensures Reachable(s') && Racing(s', TimerAt(r, Unlocking), None, r, t')
    ensures t'.done && t'.outcome == t.outcome && t'.settled && t'.eventsClosed
  {
    t' := TurnDo(t, 2, CloseEvents(r));
    s' := TimerStep(s, TimerAt(r, CloseHeld), CloseEvents(r), TimerAt(r, Unlocking), r, t);
  }

  lemma TimerReturns(s: State, r: Rid, t: Turn) returns (s': State, t': Turn)
    requires Reachable(s) && Racing(s, TimerAt(r, Unlocking), None, r, t) && t.done && t.settled && t.eventsClosed
    ensures Reachable(s') && Racing(s', Halt, None, r, t')
    ensures t'.done && t'.outcome == t.outcome && t'.settled && t'.eventsClosed
  {
    t' := TurnDo(t, 2, UnlockSend(r));
    s' := TimerStep(s, TimerAt(r, Unlocking), UnlockSend(r), Halt, r, t);
  }

  lemma TimerCloses(s: State, r: Rid, t: Turn) returns (s': State, t': Turn)
    requires Reachable(s) && Racing(s, TimerAt(r, OnceDo), None, r, t) && t.done && StillOpen(t)
    ensures Reachable(s') && Racing(s', Halt, None, r, t')
    ensures t'.done && t'.outcome == t.outcome && t'.settled && t'.eventsClosed
  {
    s', t' := TimerSettles(s, r, t);
    s', t' := TimerLocksSend(s', r, t');
    s', t' := TimerClosesEvents(s', r, t');
    s', t' := TimerReturns(s', r, t');
  }

  /** For any id there is a run that leaves a timed-out, closed turn in the map after its call has returned. */
  lemma DoneTurnInMap(r: Rid)
    requires r != ""
    ensures exists s :: Reachable(s) && r in s.turns && Finished(s, r) && s.T[r].done && s.T[r].outcome == TimedOut(r) && s.T[r].eventsClosed && !s.closed
  {
    var s, t := TimerFires(r);
    s, t := TimerRecords(s, r, t);
    s, t := TimerCloses(s, r, t);
    s := RegisterReturns(s, 1, r);
  }
}
