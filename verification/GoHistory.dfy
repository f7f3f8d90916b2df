/** What a turn delivers: an in-order prefix of what was routed to it, ending at its terminal event. */
module GoHistory {
  import opened Wire
  import opened GoClient

  /** Everything sent on the events channel so far: what was read, then what is buffered. */
  function SentOn(t: Turn): seq<Event> { t.read + t.buf }

  predicate NoTerminal(es: seq<Event>) { forall i :: 0 <= i < |es| ==> !Terminal(es[i]) }

  predicate EndsWith(es: seq<Event>, ev: Event) { es != [] && es[|es| - 1] == ev }

  /** The part of the dispatcher's program counter that concerns a turn's events. */
  datatype View =
    | Idle
    | Pushing(r: Rid, ev: Event, at: PushAt)
    | Ending(r: Rid, o: Outcome)

  function ViewOf(pc: Pc): View {
    match pc
    case Push(r, ev, at) => Pushing(r, ev, at)
    case Finish(r, o, k, at) =>
      if k.ToRecv? && (at.RecordWait? || at.RecordHeld?) then Ending(r, o) else Idle
    case _ => Idle
  }

  /** What the dispatcher's position says about the turn it is working on. */
  predicate Underway(t: Turn, v: View) {
    var sent := SentOn(t);
    match v
    case Idle => t.done || sent == t.routed
    case Pushing(_, ev, at) =>
      (match at
       case CheckWait => EndsWith(t.routed, ev) && (t.done || sent + [ev] == t.routed)
       case CheckHeld => EndsWith(t.routed, ev) && (t.done || sent + [ev] == t.routed)
       case Sent => sent == t.routed && EndsWith(sent, ev)
       case Dropped => t.done
       case _ => sent + [ev] == t.routed && NoTerminal(sent))
    case Ending(_, o) => sent == t.routed && sent != [] && Terminal(sent[|sent| - 1]) && o == OutcomeOf(sent[|sent| - 1])
  }

  predicate Concerns(v: View, r: Rid) { !v.Idle? && v.r == r }

  predicate HistOk(r: Rid, t: Turn, v: View) {
    var sent := SentOn(t);
    && |t.buf| <= CAPACITY
    && sent <= t.routed
    && TerminalOnlyLast(sent)
    && (forall i :: 0 <= i < |t.routed| ==> t.routed[i].rid == r)
    && Underway(t, if Concerns(v, r) then v else Idle)
    && (sent != [] && Terminal(sent[|sent| - 1]) ==>
          t.done || (Concerns(v, r) && (v.Ending? || v.at.Sent?)))
    && (FromEvent(t.outcome) ==>
          t.done && sent != [] && Terminal(sent[|sent| - 1]) && t.outcome == OutcomeOf(sent[|sent| - 1]))
  }

  ghost predicate Histories(T: map<Rid, Turn>, v: View) { forall r :: r in T ==> HistOk(r, T[r], v) }

  // ----- outcomes that do not come from an event

  predicate Ours(e: Failure) { e.TurnTimeout? || e.Shutdown? || e.SendFailure? }

  /** Only the dispatcher, ending a push, carries an outcome read from an event. */
  predicate OwnOutcome(pc: Pc) {
    && (pc.Finish? && !pc.k.ToRecv? ==> !FromEvent(pc.o))
    && (pc.Finish? && pc.k.ToAborts? ==> Ours(pc.k.reason))
    && (pc.FailAll? || pc.FailPending? || pc.FailTurns? ==> Ours(pc.e))
    && (pc.SendMessage? && (pc.sendAt.UndoWait? || pc.sendAt.UndoHeld?) ==> Ours(pc.sendAt.cause))
  }

  ghost predicate OwnOutcomes(s: State) {
    && (forall g :: g in s.procs ==> OwnOutcome(s.procs[g]))
    && (s.closeErr.Some? ==> Ours(s.closeErr.value))
  }

  lemma ProgOwnOutcome(s: State, pc: Pc, c: Choice, a: Act)
    requires Prog(s, pc, c) == Some(a) && OwnOutcome(pc) && (s.closeErr.Some? ==> Ours(s.closeErr.value))
    ensures OwnOutcome(a.then_) && (a.op.Shut? ==> Ours(a.op.e))
    ensures a.op.Record? && !(pc.Finish? && pc.k.ToRecv?) ==> !FromEvent(a.op.o)
  {
    match pc
    case Finish(r, o, k, at) =>
    case Push(r, ev, at) =>
    case _ =>
  }

  lemma ActKeepsOwnOutcomes(s: State, g: Gid, op: Op, pc': Pc)
    requires OwnOutcomes(s) && Ready(s, op) && OwnOutcome(pc') && (op.Shut? ==> Ours(op.e))
    ensures OwnOutcomes(Do(s, g, op, pc'))
  {
  }

  // ----- one step

  predicate TouchesHistory(op: Op) { op.SendEvent? || op.Deliver? || op.Record? }

  /** How an operation of the dispatcher fits its position. */
  predicate HistDiscipline(s: State, v: View, op: Op, v': View) {
    match v
    case Idle =>
      if op.Deliver? then v' == Pushing(op.r, op.ev, CheckWait) && op.ev.rid == op.r
      else v' == Idle && !op.SendEvent? && (op.Record? ==> !FromEvent(op.o))
    case Pushing(r, ev, at) =>
      r in s.T &&
      (match at
       case CheckWait => v' == Pushing(r, ev, CheckHeld) && !TouchesHistory(op)
       case CheckHeld =>
         v' == (if s.T[r].done then Idle else Pushing(r, ev, SendWait)) && !TouchesHistory(op)
       case SendWait => v' == Pushing(r, ev, SendHeld) && !TouchesHistory(op)
       case SendHeld =>
         (v' == Pushing(r, ev, Selecting) || (v' == Idle && s.T[r].done)) && !TouchesHistory(op)
       case Selecting =>
         if op.SendEvent? then op.r == r && op.ev == ev && v' == Pushing(r, ev, Sent) && |s.T[r].buf| < CAPACITY
         else s.T[r].done && v' == Pushing(r, ev, Dropped) && !TouchesHistory(op)
       case Sent =>
         v' == (if Terminal(ev) then Ending(r, OutcomeOf(ev)) else Idle) && !TouchesHistory(op)
       case Dropped => v' == Idle && !TouchesHistory(op))
    case Ending(r, o) =>
      r in s.T &&
      if op.Record? then op.r == r && op.o == o && v' == Idle
      else (v' == v || (v' == Idle && s.T[r].done)) && !TouchesHistory(op)
  }

  predicate SameHistory(t: Turn, t': Turn) {
    && t'.read == t.read && t'.buf == t.buf && t'.routed == t.routed
    && t'.done == t.done && t'.outcome == t.outcome
  }

  predicate HistEffect(t: Turn, t': Turn, op: Op) {
    if op.SendEvent? then SameHistory(t.(buf := t.buf + [op.ev]), t')
    else if op.Deliver? then SameHistory(t.(routed := t.routed + [op.ev]), t')
    else if op.Record? then SameHistory(t.(done := true, outcome := op.o), t')
    else SameHistory(t, t')
  }

  lemma TurnDoHistory(t: Turn, g: Gid, op: Op)
    ensures HistEffect(t, TurnDo(t, g, op), op)
  {
  }

  lemma HistSend(r: Rid, t: Turn, ev: Event, t': Turn)
    requires HistOk(r, t, Pushing(r, ev, Selecting)) && |t.buf| < CAPACITY
    requires SameHistory(t.(buf := t.buf + [ev]), t')
    ensures HistOk(r, t', Pushing(r, ev, Sent))
  {
    assert SentOn(t') == SentOn(t) + [ev];
  }

  lemma HistDeliver(r: Rid, t: Turn, ev: Event, t': Turn)
    requires HistOk(r, t, Idle) && ev.rid == r
    requires SameHistory(t.(routed := t.routed + [ev]), t')
    ensures HistOk(r, t', Pushing(r, ev, CheckWait))
  {
  }

  lemma HistRecord(r: Rid, t: Turn, o: Outcome, t': Turn)
    requires HistOk(r, t, Ending(r, o)) && SameHistory(t.(done := true, outcome := o), t')
    ensures HistOk(r, t', Idle)
  {
  }

  /** The dispatcher moves on without touching what was sent, routed or recorded for `r`. */
  lemma HistQuiet(s: State, v: View, op: Op, v': View, r: Rid, t: Turn, t': Turn)
    requires r in s.T && s.T[r] == t && HistOk(r, t, v) && HistDiscipline(s, v, op, v')
    requires (TouchesHistory(op) ==> op.r != r) && SameHistory(t, t')
    ensures HistOk(r, t', v')
  {
    assert SentOn(t') == SentOn(t);
    match v
    case Idle =>
    case Pushing(q, ev, at) =>
    case Ending(q, o) =>
  }

  /** The dispatcher moves while turn `r` goes from `t` to `t'`. */
  lemma HistStep(s: State, v: View, op: Op, v': View, r: Rid, t: Turn, t': Turn)
    requires r in s.T && s.T[r] == t && HistOk(r, t, v) && HistDiscipline(s, v, op, v')
    requires op.Record? ==> !t.done || op.r != r
    requires if OnTurn(op) && op.r == r then HistEffect(t, t', op) else SameHistory(t, t')
    ensures HistOk(r, t', v')
  {
    if !TouchesHistory(op) || op.r != r {
      HistQuiet(s, v, op, v', r, t, t');
    } else if op.SendEvent? {
      HistSend(r, t, op.ev, t');
    } else if op.Deliver? {
      HistDeliver(r, t, op.ev, t');
    } else if v.Ending? {
      HistRecord(r, t, op.o, t');
    } else {
      HistOther(r, t, v, op, t');
    }
  }

  /** Another goroutine moves: the dispatcher's position is the same. */
  lemma HistOther(r: Rid, t: Turn, v: View, op: Op, t': Turn)
    requires HistOk(r, t, v) && !op.SendEvent? && !op.Deliver? && HistEffect(t, t', op)
    requires op.Record? ==> !t.done && !FromEvent(op.o)
    ensures HistOk(r, t', v)
  {
  }

  lemma DoHistory(s: State, g: Gid, op: Op, pc': Pc, r: Rid)
    requires Ready(s, op) && r in s.T
    ensures var T' := Do(s, g, op, pc').T;
      r in T' && if OnTurn(op) && op.r == r then HistEffect(s.T[r], T'[r], op) else SameHistory(s.T[r], T'[r])
  {
    TurnDoHistory(s.T[r], g, op);
  }

  /** A step of the dispatcher keeps every turn's history. */
  lemma DispatcherKeepsHistories(s: State, op: Op, pc': Pc)
    requires 0 in s.procs && Histories(s.T, ViewOf(s.procs[0])) && Ready(s, op)
    requires HistDiscipline(s, ViewOf(s.procs[0]), op, ViewOf(pc'))
    requires op.Record? ==> !s.T[op.r].done
    ensures Histories(Do(s, 0, op, pc').T, ViewOf(pc'))
  {
    var T' := Do(s, 0, op, pc').T;
    forall r | r in T' ensures HistOk(r, T'[r], ViewOf(pc')) {
      assert HistOk(r, s.T[r], ViewOf(s.procs[0]));
      DoHistory(s, 0, op, pc', r);
      HistStep(s, ViewOf(s.procs[0]), op, ViewOf(pc'), r, s.T[r], T'[r]);
    }
  }

  /** So does a step of any other goroutine. */
  lemma OtherKeepsHistories(s: State, g: Gid, op: Op, pc': Pc, v: View)
    requires Histories(s.T, v) && Ready(s, op) && !op.SendEvent? && !op.Deliver?
    requires op.Record? ==> !s.T[op.r].done && !FromEvent(op.o)
    ensures Histories(Do(s, g, op, pc').T, v)
  {
    var T' := Do(s, g, op, pc').T;
    forall r | r in T' ensures HistOk(r, T'[r], v) {
      assert HistOk(r, s.T[r], v);
      if OnTurn(op) && op.r == r {
        TurnDoHistory(s.T[r], g, op);
        HistOther(r, s.T[r], v, op, T'[r]);
      }
    }
  }
}
