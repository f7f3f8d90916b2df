/** A run in which one slow consumer stops the dispatch loop for every other turn. */
module GoSlowConsumer {
  import opened Wire
  import opened GoClient
  import opened GoReach
  import opened GoBackpressure

  /** The turns `a` and `b` are registered, `a` is open with `n` unread events, and the dispatcher is at `pc`. */
  predicate Shape(s: State, pc: Pc, cmu: Option<Gid>, mu: Option<Gid>, sendMu: Option<Gid>, a: Rid, b: Rid, n: nat) {
    && 0 in s.procs && s.procs[0] == pc && s.cmu == cmu && a in s.turns && b in s.turns && a in s.T && b in s.T
    && s.T[a].mu == mu && s.T[a].sendMu == sendMu && |s.T[a].buf| == n
    && !s.T[a].done && !s.T[a].settled && !s.T[a].closed && !s.T[a].eventsClosed && !s.T[b].done
  }

  /** A frame for `a` goes through the loop up to the point where the event is sent. */
  lemma FrameArrives(s: State, a: Rid, b: Rid, n: nat, ev: Event) returns (s': State)
    requires Reachable(s) && Shape(s, Recv, None, None, None, a, b, n) && ev.rid == a
    ensures Reachable(s') && Shape(s', Route(ev, false), None, None, None, a, b, n)
  {
    s' := Happen(s, Frame(ev));
    HappenReachable(s, Frame(ev));
  }

  lemma FrameRouted(s: State, a: Rid, b: Rid, n: nat, ev: Event) returns (s': State)
    requires Reachable(s) && Shape(s, Route(ev, false), None, None, None, a, b, n) && ev.rid == a != "" && a != b
    ensures Reachable(s') && Shape(s', Push(a, ev, CheckWait), None, None, None, a, b, n)
  {
    var s1 := Do(s, 0, LockClient, Route(ev, true));
    StepReachable(s, 0, Take, LockClient, Route(ev, true));
    s' := Do(s1, 0, Deliver(a, ev), Push(a, ev, CheckWait));
    StepReachable(s1, 0, Take, Deliver(a, ev), Push(a, ev, CheckWait));
  }

  predicate Quiet(op: Op, a: Rid) {
    op == LockMu(a) || op == UnlockMu(a) || op == LockSend(a) || op == UnlockSend(a) || (op.SendEvent? && op.r == a) || op == Nop
  }

  /** One operation of the dispatcher on `a`. */
  lemma PushStep(s: State, pc: Pc, op: Op, pc': Pc, mu: Option<Gid>, sendMu: Option<Gid>, a: Rid, b: Rid, n: nat) returns (s': State)
    requires Reachable(s) && Shape(s, pc, None, mu, sendMu, a, b, n) && a != b && Quiet(op, a)
    requires Prog(s, pc, Take) == Some(Act(op, pc')) && Ready(s, op)
    ensures Reachable(s')
    ensures Shape(s', pc', None, if op.LockMu? then Some(0) else if op.UnlockMu? then None else mu,
                  if op.LockSend? then Some(0) else if op.UnlockSend? then None else sendMu, a, b, if op.SendEvent? then n + 1 else n)
  {
    s' := Do(s, 0, op, pc');
    StepReachable(s, 0, Take, op, pc');
  }

  lemma PushChecked(s: State, a: Rid, b: Rid, n: nat, ev: Event) returns (s': State)
    requires Reachable(s) && Shape(s, Push(a, ev, CheckWait), None, None, None, a, b, n) && a != b
    ensures Reachable(s') && Shape(s', Push(a, ev, SendWait), None, None, None, a, b, n)
  {
    s' := PushStep(s, Push(a, ev, CheckWait), LockMu(a), Push(a, ev, CheckHeld), None, None, a, b, n);
    s' := PushStep(s', Push(a, ev, CheckHeld), UnlockMu(a), Push(a, ev, SendWait), Some(0), None, a, b, n);
  }

  lemma PushSelects(s: State, a: Rid, b: Rid, n: nat, ev: Event) returns (s': State)
    requires Reachable(s) && Shape(s, Push(a, ev, SendWait), None, None, None, a, b, n) && a != b
    ensures Reachable(s') && Shape(s', Push(a, ev, Selecting), None, None, Some(0), a, b, n)
  {
    s' := PushStep(s, Push(a, ev, SendWait), LockSend(a), Push(a, ev, SendHeld), None, None, a, b, n);
    s' := PushStep(s', Push(a, ev, SendHeld), Nop, Push(a, ev, Selecting), None, Some(0), a, b, n);
  }

  lemma PushSends(s: State, a: Rid, b: Rid, n: nat, ev: Event) returns (s': State)
    requires Reachable(s) && Shape(s, Push(a, ev, Selecting), None, None, Some(0), a, b, n) && n < CAPACITY && a != b && !Terminal(ev)
    ensures Reachable(s') && Shape(s', Recv, None, None, None, a, b, n + 1)
  {
    s' := PushStep(s, Push(a, ev, Selecting), SendEvent(a, ev), Push(a, ev, Sent), None, Some(0), a, b, n);
    s' := PushStep(s', Push(a, ev, Sent), UnlockSend(a), Recv, None, Some(0), a, b, n + 1);
  }

  lemma FrameSelects(s: State, a: Rid, b: Rid, n: nat, ev: Event) returns (s': State)
    requires Reachable(s) && Shape(s, Recv, None, None, None, a, b, n) && ev.rid == a != "" && a != b
    ensures Reachable(s') && Shape(s', Push(a, ev, Selecting), None, None, Some(0), a, b, n)
  {
    s' := FrameArrives(s, a, b, n, ev);
    s' := FrameRouted(s', a, b, n, ev);
    s' := PushChecked(s', a, b, n, ev);
    s' := PushSelects(s', a, b, n, ev);
  }

  lemma {:induction false} FramesPileUp(s: State, a: Rid, b: Rid, n: nat, ev: Event) returns (s': State)
    requires Reachable(s) && Shape(s, Recv, None, None, None, a, b, 0)
    requires ev.rid == a != "" && a != b && !Terminal(ev) && n <= CAPACITY
    ensures Reachable(s') && Shape(s', Recv, None, None, None, a, b, n)
    decreases n
  {
    s' := s;
    if n > 0 {
      s' := FramesPileUp(s, a, b, n - 1, ev);
      s' := FrameSelects(s', a, b, n - 1, ev);
      s' := PushSends(s', a, b, n - 1, ev);
    }
  }

  // ----- from the start

  /** `SendMessage` runs from call to return on an open client whose mutex is free. */
  lemma TurnRegistered(s: State, g: Gid, r: Rid) returns (s': State)
    requires Reachable(s) && s.cmu.None? && !s.closed && g !in s.procs && FreshRid(s, r)
    ensures Reachable(s') && s'.cmu.None? && !s'.closed && s'.procs == s.procs[g := Halt] && s'.turns == s.turns + {r} && s'.P == s.P
    ensures s'.T == s.T[r := NewTurn(g, false).(early := OfRequest(s.wire, r) != [])]
  {
    s' := TurnCalled(s, g, r, false);
    s' := RegisterReturns(s', g, r);
  }

  lemma BothRegistered(a: Rid, b: Rid) returns (s: State)
    requires a != "" && b != "" && a != b
    ensures Reachable(s) && Shape(s, Recv, None, None, None, a, b, 0)
  {
    InitReachable();
    s := TurnRegistered(Init(), 1, a);
    s := TurnRegistered(s, 2, b);
  }

  /**
   * For any two turns there is a run that leaves one with 64 unread events and the dispatcher holding a 65th:
   * no frame can be taken, so nothing reaches the other turn, which is registered and not done.
   */
  lemma SlowTurnStopsOthers(a: Rid, b: Rid)
    requires a != "" && b != "" && a != b
    ensures exists s :: Reachable(s) && Parked(s, a) && |s.T[a].buf| == CAPACITY && Stopped(s) && b in s.turns && b in s.T && !s.T[b].done
  {
    var ev := Event(a, StreamToken("x"));
    var s := BothRegistered(a, b);
    s := FramesPileUp(s, a, b, CAPACITY, ev);
    s := FrameSelects(s, a, b, CAPACITY, ev);
    StoppedIs(s);
  }
}
