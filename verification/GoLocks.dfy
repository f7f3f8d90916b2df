/** Mutual exclusion: which goroutine holds which mutex, at every program point. */
module GoLocks {
  import opened Wire
  import opened GoClient

  predicate HoldsClient(pc: Pc) {
    match pc
    case Route(_, held) => held
    case FailAll(_, held) => held
    case Finish(_, _, _, at) => at.RemoveHeld?
    case SendMessage(_, at) => at.RegisterHeld? || at.UndoHeld?
    case Request(_, at) => at.EnrolHeld? || at.ForgetHeld?
    case _ => false
  }

  /** The turn whose `mu` is held at this point. */
  function MuOf(pc: Pc): Option<Rid> {
    match pc
    case Push(r, _, at) => if at.CheckHeld? then Some(r) else None
    case Finish(r, _, _, at) => if at.RecordHeld? then Some(r) else None
    case Wait(r, at) => if at.ReadHeld? then Some(r) else None
    case _ => None
  }

  /** The turn whose `sendMu` is held at this point. */
  function SendMuOf(pc: Pc): Option<Rid> {
    match pc
    case Push(r, _, at) => if at.SendHeld? || at.Selecting? || at.Sent? || at.Dropped? then Some(r) else None
    case Finish(r, _, _, at) => if at.CloseHeld? || at.Unlocking? then Some(r) else None
    case _ => None
  }

  type Procs = map<Gid, Pc>

  ghost predicate ClientLock(procs: Procs, cmu: Option<Gid>) {
    && (cmu.Some? ==> cmu.value in procs && HoldsClient(procs[cmu.value]))
    && (forall g :: g in procs && HoldsClient(procs[g]) ==> cmu == Some(g))
  }

  ghost predicate MuLocks(procs: Procs, T: map<Rid, Turn>) {
    && (forall g :: g in procs && MuOf(procs[g]).Some? ==>
          MuOf(procs[g]).value in T && T[MuOf(procs[g]).value].mu == Some(g))
    && (forall r :: r in T && T[r].mu.Some? ==>
          T[r].mu.value in procs && MuOf(procs[T[r].mu.value]) == Some(r))
  }

  ghost predicate SendLocks(procs: Procs, T: map<Rid, Turn>) {
    && (forall g :: g in procs && SendMuOf(procs[g]).Some? ==>
          SendMuOf(procs[g]).value in T && T[SendMuOf(procs[g]).value].sendMu == Some(g))
    && (forall r :: r in T && T[r].sendMu.Some? ==>
          T[r].sendMu.value in procs && SendMuOf(procs[T[r].sendMu.value]) == Some(r))
  }

  /** A mutex is held exactly by the goroutine whose program counter says so. */
  ghost predicate Locks(s: State) {
    ClientLock(s.procs, s.cmu) && MuLocks(s.procs, s.T) && SendLocks(s.procs, s.T)
  }

  // ----- what one operation does to the locks a goroutine holds

  predicate UnlocksMu(op: Op) { op.UnlockMu? || op.Record? || op.ReadOutcome? }

  predicate ClientDiscipline(pc: Pc, op: Op, pc': Pc) {
    if op.LockClient? then !HoldsClient(pc) && HoldsClient(pc')
    else if ReleasesClient(op) then HoldsClient(pc) && !HoldsClient(pc')
    else HoldsClient(pc') == HoldsClient(pc)
  }

  predicate MuDiscipline(pc: Pc, op: Op, pc': Pc) {
    if op.LockMu? then MuOf(pc) == None && MuOf(pc') == Some(op.r)
    else if UnlocksMu(op) then MuOf(pc) == Some(op.r) && MuOf(pc') == None
    else MuOf(pc') == MuOf(pc)
  }

  predicate SendDiscipline(pc: Pc, op: Op, pc': Pc) {
    if op.LockSend? then SendMuOf(pc) == None && SendMuOf(pc') == Some(op.r)
    else if op.UnlockSend? then SendMuOf(pc) == Some(op.r) && SendMuOf(pc') == None
    else SendMuOf(pc') == SendMuOf(pc)
  }

  /** The program counter says the same about the locks as the operation does. */
  predicate LockDiscipline(pc: Pc, op: Op, pc': Pc) {
    ClientDiscipline(pc, op, pc') && MuDiscipline(pc, op, pc') && SendDiscipline(pc, op, pc')
  }

  lemma TurnDoLocks(t: Turn, g: Gid, op: Op)
    ensures TurnDo(t, g, op).mu == (if op.LockMu? then Some(g) else if UnlocksMu(op) then None else t.mu)
    ensures TurnDo(t, g, op).sendMu ==
            (if op.LockSend? then Some(g) else if op.UnlockSend? then None else t.sendMu)
  {
  }

  lemma ClientLockStep(procs: Procs, cmu: Option<Gid>, g: Gid, op: Op, pc': Pc)
    requires ClientLock(procs, cmu) && g in procs && (op.LockClient? ==> cmu.None?) && ClientDiscipline(procs[g], op, pc')
    ensures ClientLock(procs[g := pc'], if op.LockClient? then Some(g) else if ReleasesClient(op) then None else cmu)
  {
  }

  lemma ActKeepsClientLock(s: State, g: Gid, op: Op, pc': Pc)
    requires ClientLock(s.procs, s.cmu) && g in s.procs && Ready(s, op) && ClientDiscipline(s.procs[g], op, pc')
    ensures var s' := Do(s, g, op, pc'); ClientLock(s'.procs, s'.cmu)
  {
    ClientLockStep(s.procs, s.cmu, g, op, pc');
  }

  lemma MuStep(procs: Procs, T: map<Rid, Turn>, g: Gid, op: Op, pc': Pc, r: Rid, t: Turn)
    requires MuLocks(procs, T) && g in procs && MuDiscipline(procs[g], op, pc')
    requires r in T && (op.LockMu? || UnlocksMu(op) ==> op.r == r) && (op.LockMu? ==> T[r].mu.None?)
    requires t.mu == (if op.LockMu? then Some(g) else if UnlocksMu(op) then None else T[r].mu)
    ensures MuLocks(procs[g := pc'], T[r := t])
  {
  }

  lemma ActKeepsMuLocks(s: State, g: Gid, op: Op, pc': Pc)
    requires MuLocks(s.procs, s.T) && g in s.procs && Ready(s, op) && MuDiscipline(s.procs[g], op, pc')
    ensures var s' := Do(s, g, op, pc'); MuLocks(s'.procs, s'.T)
  {
    if OnTurn(op) {
      TurnDoLocks(s.T[op.r], g, op);
      MuStep(s.procs, s.T, g, op, pc', op.r, TurnDo(s.T[op.r], g, op));
    }
  }

  lemma SendStep(procs: Procs, T: map<Rid, Turn>, g: Gid, op: Op, pc': Pc, r: Rid, t: Turn)
    requires SendLocks(procs, T) && g in procs && SendDiscipline(procs[g], op, pc')
    requires r in T && (op.LockSend? || op.UnlockSend? ==> op.r == r) && (op.LockSend? ==> T[r].sendMu.None?)
    requires t.sendMu == (if op.LockSend? then Some(g) else if op.UnlockSend? then None else T[r].sendMu)
    ensures SendLocks(procs[g := pc'], T[r := t])
  {
  }

  lemma ActKeepsSendLocks(s: State, g: Gid, op: Op, pc': Pc)
    requires SendLocks(s.procs, s.T) && g in s.procs && Ready(s, op) && SendDiscipline(s.procs[g], op, pc')
    ensures var s' := Do(s, g, op, pc'); SendLocks(s'.procs, s'.T)
  {
    if OnTurn(op) {
      TurnDoLocks(s.T[op.r], g, op);
      SendStep(s.procs, s.T, g, op, pc', op.r, TurnDo(s.T[op.r], g, op));
    }
  }

  // ----- every program keeps the discipline

  lemma ProgDiscipline(s: State, pc: Pc, c: Choice, a: Act)
    requires Prog(s, pc, c) == Some(a)
    ensures LockDiscipline(pc, a.op, a.then_)
  {
    match pc
    case Finish(r, o, k, at) => FinishDiscipline(s, pc, a);
    case Push(r, ev, at) => PushDiscipline(s, pc, c, a);
    case SendMessage(r, at) => SendCallLocks(s, pc, c, a);
    case Request(r, at) => RequestLocks(s, pc, c, a);
    case Wait(r, at) => WaitLocks(s, pc, c, a);
    case _ => LoopLocks(s, pc, c, a);
  }

  lemma SendCallLocks(s: State, pc: Pc, c: Choice, a: Act)
    requires pc.SendMessage? && SendProg(s, pc.r, pc.sendAt, c) == Some(a)
    ensures LockDiscipline(pc, a.op, a.then_)
  {
  }

  lemma RequestLocks(s: State, pc: Pc, c: Choice, a: Act)
    requires pc.Request? && RequestProg(s, pc.r, pc.reqAt, c) == Some(a)
    ensures LockDiscipline(pc, a.op, a.then_)
  {
  }

  lemma WaitLocks(s: State, pc: Pc, c: Choice, a: Act)
    requires pc.Wait? && WaitProg(s, pc.r, pc.waitAt, c) == Some(a)
    ensures LockDiscipline(pc, a.op, a.then_)
  {
  }

  lemma LoopLocks(s: State, pc: Pc, c: Choice, a: Act)
    requires pc.Route? || pc.Reply? || pc.FailAll? || pc.FailPending? || pc.FailTurns?
    requires Prog(s, pc, c) == Some(a)
    ensures LockDiscipline(pc, a.op, a.then_)
  {
  }

  lemma FinishDiscipline(s: State, pc: Pc, a: Act)
    requires pc.Finish? && FinishProg(s, pc.r, pc.o, pc.k, pc.finAt) == Some(a)
    ensures LockDiscipline(pc, a.op, a.then_)
  {
  }

  lemma PushDiscipline(s: State, pc: Pc, c: Choice, a: Act)
    requires pc.Push? && PushProg(s, pc.r, pc.ev, pc.pushAt, c) == Some(a)
    ensures LockDiscipline(pc, a.op, a.then_)
  {
  }
}
