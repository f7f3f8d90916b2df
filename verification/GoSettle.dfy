/** Settlement: at most one goroutine records the outcome of a turn, and it alone closes the channels. */
module GoSettle {
  import opened Wire
  import opened GoClient
  import opened GoLocks

  /** How far a goroutine that has recorded an outcome is. */
  datatype Stage = NoStage | Recorded(r: Rid) | Closing(r: Rid) | Closed(r: Rid)

  function StageOf(pc: Pc): Stage {
    match pc
    case Finish(r, _, _, at) =>
      (match at
       case RecordWait => NoStage
       case RecordHeld => NoStage
       case CloseWait => Closing(r)
       case CloseHeld => Closing(r)
       case Unlocking => Closed(r)
       case _ => Recorded(r))
    case _ => NoStage
  }

  predicate OutcomeOk(o: Outcome) { o.final.Some? != o.err.Some? }

  predicate Reading(pc: Pc) { pc.Wait? && !pc.waitAt.OnSettled? }

  /** What the program counter of `g` says about settlement. */
  predicate ProcSettle(g: Gid, pc: Pc, T: map<Rid, Turn>) {
    && (match StageOf(pc)
        case NoStage => true
        case Recorded(r) => r in T && T[r].winner == Some(g) && !T[r].settled
        case Closing(r) => r in T && T[r].winner == Some(g) && T[r].settled && !T[r].closed
        case Closed(r) => r in T && T[r].winner == Some(g) && T[r].closed)
    && (Reading(pc) ==> pc.r in T && T[pc.r].settled)
    && (pc.Finish? ==> OutcomeOk(pc.o))
  }

  predicate TurnSettle(r: Rid, t: Turn, procs: Procs) {
    && t.done == t.winner.Some? && t.once == t.settled && t.closed == t.eventsClosed
    && (t.closed ==> t.settled) && (t.settled ==> t.done) && (t.done ==> OutcomeOk(t.outcome))
    && (t.done && !t.closed ==>
          t.winner.value in procs
          && StageOf(procs[t.winner.value]) == if t.settled then Closing(r) else Recorded(r))
    && (t.waits != [] ==> t.settled)
    && (forall w :: w in t.waits ==> w == WaitOf(t.outcome))
  }

  ghost predicate Settle(procs: Procs, T: map<Rid, Turn>) {
    && (forall g :: g in procs ==> ProcSettle(g, procs[g], T))
    && (forall r :: r in T ==> TurnSettle(r, T[r], procs))
  }

  predicate Settles(op: Op) { op.Record? || op.CloseSettled? || op.CloseEvents? || op.ReadOutcome? }

  /** How an operation must fit the stage of the goroutine that performs it. */
  predicate SettleDiscipline(s: State, pc: Pc, op: Op, pc': Pc) {
    && (Settles(op) ==> op.r in s.T)
    && (pc'.Finish? ==> OutcomeOk(pc'.o))
    && (Reading(pc') ==> pc'.r in s.T && s.T[pc'.r].settled)
    && (if op.Record? then
          StageOf(pc) == NoStage && StageOf(pc') == Recorded(op.r) && !s.T[op.r].done && OutcomeOk(op.o)
        else if op.CloseSettled? then StageOf(pc) == Recorded(op.r) && StageOf(pc') == Closing(op.r)
        else if op.CloseEvents? then StageOf(pc) == Closing(op.r) && StageOf(pc') == Closed(op.r)
        else StageOf(pc') == StageOf(pc) || (StageOf(pc).Closed? && StageOf(pc') == NoStage))
    && (op.ReadOutcome? ==> s.T[op.r].settled)
  }

  /** The fields settlement speaks about are the same. */
  predicate SameSettle(t: Turn, t': Turn) {
    && t'.done == t.done && t'.winner == t.winner && t'.once == t.once && t'.settled == t.settled
    && t'.closed == t.closed && t'.eventsClosed == t.eventsClosed && t'.outcome == t.outcome && t'.waits == t.waits
  }

  predicate SettleEffect(t: Turn, t': Turn, g: Gid, op: Op) {
    if op.Record? then SameSettle(t.(done := true, winner := Some(g), outcome := op.o), t')
    else if op.CloseSettled? then SameSettle(t.(once := true, settled := true), t')
    else if op.CloseEvents? then SameSettle(t.(closed := true, eventsClosed := true), t')
    else if op.ReadOutcome? then SameSettle(t.(waits := t.waits + [WaitOf(t.outcome)]), t')
    else SameSettle(t, t')
  }

  lemma TurnDoSettle(t: Turn, g: Gid, op: Op)
    ensures SettleEffect(t, TurnDo(t, g, op), g, op)
  {
  }

  lemma ProcSettleStep(s: State, g: Gid, op: Op, pc': Pc, r: Rid, t: Turn)
    requires Settle(s.procs, s.T) && g in s.procs && SettleDiscipline(s, s.procs[g], op, pc')
    requires r in s.T && (Settles(op) ==> op.r == r) && SettleEffect(s.T[r], t, g, op)
    ensures var procs', T' := s.procs[g := pc'], s.T[r := t]; forall h :: h in procs' ==> ProcSettle(h, procs'[h], T')
  {
    var procs', T' := s.procs[g := pc'], s.T[r := t];
    assert TurnSettle(r, s.T[r], s.procs) && ProcSettle(g, s.procs[g], s.T);
    forall h | h in procs' ensures ProcSettle(h, procs'[h], T') {
      assert ProcSettle(h, s.procs[h], s.T);
    }
  }

  lemma TurnSettleStep(s: State, g: Gid, op: Op, pc': Pc, r: Rid, t: Turn)
    requires Settle(s.procs, s.T) && g in s.procs && SettleDiscipline(s, s.procs[g], op, pc')
    requires r in s.T && (Settles(op) ==> op.r == r) && SettleEffect(s.T[r], t, g, op)
    ensures var procs', T' := s.procs[g := pc'], s.T[r := t]; forall q :: q in T' ==> TurnSettle(q, T'[q], procs')
  {
    var procs', T' := s.procs[g := pc'], s.T[r := t];
    assert TurnSettle(r, s.T[r], s.procs) && ProcSettle(g, s.procs[g], s.T);
    forall q | q in T' ensures TurnSettle(q, T'[q], procs') {
      assert TurnSettle(q, s.T[q], s.procs);
    }
  }

  lemma SettleStep(s: State, g: Gid, op: Op, pc': Pc, r: Rid, t: Turn)
    requires Settle(s.procs, s.T) && g in s.procs && SettleDiscipline(s, s.procs[g], op, pc')
    requires r in s.T && (Settles(op) ==> op.r == r) && SettleEffect(s.T[r], t, g, op)
    ensures Settle(s.procs[g := pc'], s.T[r := t])
  {
    ProcSettleStep(s, g, op, pc', r, t);
    TurnSettleStep(s, g, op, pc', r, t);
  }

  lemma SettleStay(s: State, g: Gid, op: Op, pc': Pc)
    requires Settle(s.procs, s.T) && g in s.procs && SettleDiscipline(s, s.procs[g], op, pc') && !Settles(op)
    ensures Settle(s.procs[g := pc'], s.T)
  {
    assert ProcSettle(g, s.procs[g], s.T);
    forall q | q in s.T ensures TurnSettle(q, s.T[q], s.procs[g := pc']) {
      assert TurnSettle(q, s.T[q], s.procs);
    }
  }

  lemma ActKeepsSettle(s: State, g: Gid, op: Op, pc': Pc)
    requires Settle(s.procs, s.T) && g in s.procs && Ready(s, op) && SettleDiscipline(s, s.procs[g], op, pc')
    ensures var s' := Do(s, g, op, pc'); Settle(s'.procs, s'.T)
  {
    if OnTurn(op) {
      TurnDoSettle(s.T[op.r], g, op);
      SettleStep(s, g, op, pc', op.r, TurnDo(s.T[op.r], g, op));
    } else {
      SettleStay(s, g, op, pc');
    }
  }

  lemma FinishSettleDiscipline(s: State, g: Gid, pc: Pc, a: Act)
    requires pc.Finish? && FinishProg(s, pc.r, pc.o, pc.k, pc.finAt) == Some(a)
    requires ProcSettle(g, pc, s.T) && pc.r in s.T && TurnSettle(pc.r, s.T[pc.r], s.procs)
    ensures SettleDiscipline(s, pc, a.op, a.then_)
  {
  }

  lemma ProgSettleDiscipline(s: State, g: Gid, pc: Pc, c: Choice, a: Act)
    requires Prog(s, pc, c) == Some(a) && ProcSettle(g, pc, s.T) && (s.closed ==> s.closeErr.Some?)
    requires pc.Finish? ==> pc.r in s.T && TurnSettle(pc.r, s.T[pc.r], s.procs)
    ensures SettleDiscipline(s, pc, a.op, a.then_)
  {
    match pc
    case Finish(r, o, k, at) => FinishSettleDiscipline(s, g, pc, a);
    case _ =>
  }
}
