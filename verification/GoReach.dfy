/** Reachable states, built one move at a time. */
module GoReach {
  import opened Wire
  import opened GoClient

  predicate RunsTo(ss: seq<State>, moves: seq<Move>, s: State) { Run(ss, moves) && ss[|ss| - 1] == s }

  ghost predicate Reachable(s: State) { exists ss: seq<State>, moves: seq<Move> :: RunsTo(ss, moves, s) }

  lemma InitReachable()
    ensures Reachable(Init())
  {
    assert RunsTo([Init()], [], Init());
  }

  lemma NextReachable(s: State, m: Move, s': State)
    requires Reachable(s) && Next(s, m, s')
    ensures Reachable(s')
  {
    var ss, moves :| RunsTo(ss, moves, s);
    var ss', moves' := ss + [s'], moves + [m];
    forall i | 0 <= i < |moves'| ensures NextAt(ss', moves', i) {
      assert i < |moves| ==> NextAt(ss, moves, i);
    }
    assert RunsTo(ss', moves', s');
  }

  /** Goroutine `g` performs its next operation. */
  lemma StepReachable(s: State, g: Gid, c: Choice, op: Op, pc': Pc)
    requires Reachable(s) && g in s.procs && Prog(s, s.procs[g], c) == Some(Act(op, pc')) && Ready(s, op)
    ensures Reachable(Do(s, g, op, pc'))
  {
    NextReachable(s, Proc(g, c), Do(s, g, op, pc'));
  }

  lemma HappenReachable(s: State, e: Env)
    requires Reachable(s) && CanHappen(s, e)
    ensures Reachable(Happen(s, e))
  {
    NextReachable(s, External(e), Happen(s, e));
  }

  // ----- `SendMessage`, when nobody is in its way

  predicate SameBut(s: State, s': State, g: Gid, pc: Pc) {
    s'.procs == s.procs[g := pc] && s'.T == s.T && s'.P == s.P && s'.closed == s.closed && s'.wire == s.wire
  }

  lemma RegisterLocks(s: State, g: Gid, r: Rid) returns (s': State)
    requires Reachable(s) && g in s.procs && s.procs[g] == SendMessage(r, RegisterWait) && s.cmu.None?
    ensures Reachable(s') && SameBut(s, s', g, SendMessage(r, RegisterHeld)) && s'.turns == s.turns
  {
    s' := Do(s, g, LockClient, SendMessage(r, RegisterHeld));
    StepReachable(s, g, Take, LockClient, SendMessage(r, RegisterHeld));
  }

  lemma RegisterEnters(s: State, g: Gid, r: Rid) returns (s': State)
    requires Reachable(s) && g in s.procs && s.procs[g] == SendMessage(r, RegisterHeld) && !s.closed
    ensures Reachable(s') && SameBut(s, s', g, SendMessage(r, Transmit)) && s'.turns == s.turns + {r} && s'.cmu.None?
  {
    s' := Do(s, g, Register(r), SendMessage(r, Transmit));
    StepReachable(s, g, Take, Register(r), SendMessage(r, Transmit));
  }

  lemma TransmitReturns(s: State, g: Gid, r: Rid) returns (s': State)
    requires Reachable(s) && g in s.procs && s.procs[g] == SendMessage(r, Transmit)
    ensures Reachable(s') && SameBut(s, s', g, Halt) && s'.turns == s.turns && s'.cmu == s.cmu
  {
    s' := Do(s, g, Nop, Halt);
    StepReachable(s, g, Take, Nop, Halt);
  }

  lemma RegisterReturns(s: State, g: Gid, r: Rid) returns (s': State)
    requires Reachable(s) && g in s.procs && s.procs[g] == SendMessage(r, RegisterWait) && s.cmu.None? && !s.closed
    ensures Reachable(s') && SameBut(s, s', g, Halt) && s'.turns == s.turns + {r} && s'.cmu.None?
  {
    s' := RegisterLocks(s, g, r);
    s' := RegisterEnters(s', g, r);
    s' := TransmitReturns(s', g, r);
  }

  lemma TurnCalled(s: State, g: Gid, r: Rid, timed: bool) returns (s': State)
    requires Reachable(s) && g !in s.procs && FreshRid(s, r)
    ensures Reachable(s') && s'.procs == s.procs[g := SendMessage(r, RegisterWait)] && s'.P == s.P && s'.wire == s.wire
    ensures s'.T == s.T[r := NewTurn(g, timed).(early := OfRequest(s.wire, r) != [])]
    ensures s'.turns == s.turns && s'.cmu == s.cmu && s'.closed == s.closed
  {
    s' := Happen(s, CallSend(g, r, timed));
    HappenReachable(s, CallSend(g, r, timed));
  }
}
