/** What holds in every run of the client, under every interleaving. */
module GoTheorems {
  import opened Wire
  import opened GoClient
  import opened GoLocks
  import opened GoSettle
  import opened GoRoles
  import opened GoDuties
  import opened GoInvariant
  import opened GoEnvironment
  import R = GoRequests
  import H = GoHistory

  // ----- the invariant holds in every reachable state

  lemma NextKeepsInv(s: State, m: Move, s': State)
    requires Inv(s) && Next(s, m, s')
    ensures Inv(s')
  {
    match m
    case Proc(g, c) => StepKeepsInv(s, g, c);
    case External(e) => HappenKeepsInv(s, e);
  }

  lemma InitInv()
    ensures Inv(Init())
  {
  }

  lemma {:induction false} RunInv(ss: seq<State>, moves: seq<Move>, i: nat)
    requires Run(ss, moves) && i < |ss|
    ensures Inv(ss[i])
  {
    if i == 0 {
      InitInv();
    } else {
      RunInv(ss, moves, i - 1);
      assert NextAt(ss, moves, i - 1);
      NextKeepsInv(ss[i - 1], moves[i - 1], ss[i]);
    }
  }

  /**
   * No run ever sends on a closed channel, closes a channel twice, or unlocks a free mutex;
   * the events channel is closed only after `settled` is.
   */
  lemma NeverPanics(ss: seq<State>, moves: seq<Move>)
    requires Run(ss, moves)
    ensures forall i :: 0 <= i < |ss| ==> !ss[i].panicked
    ensures forall i, r :: 0 <= i < |ss| && r in ss[i].T && ss[i].T[r].eventsClosed ==>
              ss[i].T[r].settled && ss[i].T[r].done
  {
    forall i | 0 <= i < |ss| ensures !ss[i].panicked { RunInv(ss, moves, i); }
    forall i, r | 0 <= i < |ss| && r in ss[i].T && ss[i].T[r].eventsClosed
      ensures ss[i].T[r].settled && ss[i].T[r].done
    {
      RunInv(ss, moves, i);
      assert TurnSettle(r, ss[i].T[r], ss[i].procs);
    }
  }

  // ----- the first recorded outcome is the only one

  /** `t'` is a later version of `t`: what was decided, sent and returned stays. */
  predicate Later(t: Turn, t': Turn) {
    && (t.done ==> t'.done && t'.outcome == t.outcome && t'.winner == t.winner)
    && (t.settled ==> t'.settled) && (t.eventsClosed ==> t'.eventsClosed)
    && t.routed <= t'.routed && H.SentOn(t) <= H.SentOn(t') && t.read <= t'.read && t.waits <= t'.waits
  }

  lemma TurnDoLater(t: Turn, g: Gid, op: Op)
    requires op.Record? ==> !t.done
    ensures Later(t, TurnDo(t, g, op))
  {
    if op.SendEvent? { assert t.read + (t.buf + [op.ev]) == t.read + t.buf + [op.ev]; }
  }

  lemma StepLater(s: State, g: Gid, c: Choice, r: Rid)
    requires CanStep(s, g, c) && r in s.T
    ensures var T' := Step(s, g, c).T; r in T' && Later(s.T[r], T'[r])
  {
    var a := Prog(s, s.procs[g], c).value;
    OnlyDispatcherSends(s, g, c, a);
    TurnDoLater(s.T[r], g, if OnTurn(a.op) && a.op.r == r then a.op else Nop);
  }

  lemma HappenLater(s: State, e: Env, r: Rid)
    requires CanHappen(s, e) && r in s.T && 0 in s.procs
    ensures var T' := Happen(s, e).T; r in T' && Later(s.T[r], T'[r])
  {
    HappenExtends(s, e);
    HappenReads(s, e, r);
  }

  lemma HappenReads(s: State, e: Env, r: Rid)
    requires CanHappen(s, e) && r in s.T
    ensures r in Happen(s, e).T && s.T[r].read <= Happen(s, e).T[r].read
  {
  }

  lemma NextLater(s: State, m: Move, s': State, r: Rid)
    requires Next(s, m, s') && r in s.T && 0 in s.procs
    ensures r in s'.T && Later(s.T[r], s'.T[r])
  {
    match m
    case Proc(g, c) => StepLater(s, g, c, r);
    case External(e) => HappenLater(s, e, r);
  }

  lemma LaterTwice(t0: Turn, t1: Turn, t2: Turn)
    requires Later(t0, t1) && Later(t1, t2)
    ensures Later(t0, t2)
  {
  }

  lemma {:induction false} TurnLater(ss: seq<State>, moves: seq<Move>, i: nat, j: nat, r: Rid)
    requires Run(ss, moves) && i <= j < |ss| && r in ss[i].T
    ensures r in ss[j].T && Later(ss[i].T[r], ss[j].T[r])
    decreases j
  {
    if i < j {
      TurnLater(ss, moves, i, j - 1, r);
      RunInv(ss, moves, j - 1);
      assert NextAt(ss, moves, j - 1);
      var s, m, s' := ss[j - 1], moves[j - 1], ss[j];
      NextLater(s, m, s', r);
      LaterTwice(ss[i].T[r], s.T[r], s'.T[r]);
    }
  }

  /** Whatever `Wait` returns, now or later, is the first outcome recorded, and it is never empty-handed. */
  lemma FirstOutcomeWins(ss: seq<State>, moves: seq<Move>, i: nat, j: nat, r: Rid)
    requires Run(ss, moves) && i <= j < |ss| && r in ss[i].T && ss[i].T[r].done
    ensures r in ss[j].T && ss[j].T[r].outcome == ss[i].T[r].outcome
    ensures forall w :: w in ss[j].T[r].waits ==> w == WaitOf(ss[i].T[r].outcome) && !w.WaitEmpty?
  {
    TurnLater(ss, moves, i, j, r);
    RunInv(ss, moves, j);
    assert TurnSettle(r, ss[j].T[r], ss[j].procs);
  }

  // ----- what a consumer sees

  /**
   * What was read plus what is buffered is a prefix of what was routed to the turn, nothing follows a
   * terminal event, and when `Wait` returned a final response that response is the last event delivered.
   */
  ghost predicate InOrder(r: Rid, t: Turn) {
    var sent := t.read + t.buf;
    && sent <= t.routed && TerminalOnlyLast(sent) && |t.buf| <= CAPACITY
    && (forall ev :: WaitFinal(ev) in t.waits ==>
          sent != [] && sent[|sent| - 1] == ev && ev.rid == r && ev.body.Eventual?)
  }

  lemma DeliveryInOrderAt(s: State, r: Rid)
    requires r in s.T && TurnSettle(r, s.T[r], s.procs)
    requires 0 in s.procs && H.HistOk(r, s.T[r], H.ViewOf(s.procs[0]))
    ensures InOrder(r, s.T[r])
  {
  }

  lemma DeliveryInOrder(ss: seq<State>, moves: seq<Move>, i: nat, r: Rid)
    requires Run(ss, moves) && i < |ss| && r in ss[i].T
    ensures InOrder(r, ss[i].T[r])
  {
    RunInv(ss, moves, i);
    DeliveryInOrderAt(ss[i], r);
  }

  // ----- deadlock

  /** The goroutine can take a step by itself; a cancelled context is the environment's doing. */
  ghost predicate CanRun(s: State, g: Gid) { exists c: Choice :: !c.Cancel? && CanStep(s, g, c) }

  /** The goroutine waits for the outside world: a frame, an answer, a settlement, or a slow reader. */
  predicate EnvWaits(s: State, g: Gid)
    requires g in s.procs
  {
    match s.procs[g]
    case Halt => true
    case Recv => true
    case Request(r, at) => at.Awaiting? && r in s.P && s.P[r].result == [] && s.P[r].err == []
    case Wait(r, at) => at.OnSettled? && r in s.T && !s.T[r].settled
    case Push(r, _, at) => at.Selecting? && r in s.T && |s.T[r].buf| == CAPACITY && !s.T[r].settled
    case _ => false
  }

  /** The holder of the mutex the goroutine is waiting for. */
  function HeldBy(s: State, pc: Pc): Option<Gid> {
    match pc
    case Route(_, held) => if held then None else s.cmu
    case FailAll(_, held) => if held then None else s.cmu
    case SendMessage(_, at) => if at.RegisterWait? || at.UndoWait? then s.cmu else None
    case Request(_, at) => if at.EnrolWait? || at.ForgetWait? then s.cmu else None
    case Push(r, _, at) =>
      if r !in s.T then None
      else if at.CheckWait? then s.T[r].mu else if at.SendWait? then s.T[r].sendMu else None
    case Finish(r, _, _, at) =>
      if at.RemoveWait? then s.cmu
      else if r !in s.T then None
      else if at.RecordWait? then s.T[r].mu else if at.CloseWait? then s.T[r].sendMu else None
    case Wait(r, at) => if at.ReadWait? && r in s.T then s.T[r].mu else None
    case _ => None
  }

  lemma Runs(s: State, g: Gid, c: Choice, a: Act)
    requires g in s.procs && Prog(s, s.procs[g], c) == Some(a) && Ready(s, a.op) && !c.Cancel?
    ensures CanRun(s, g)
  {
    assert CanStep(s, g, c);
  }

  lemma ClientHolderRuns(s: State, h: Gid)
    requires Roles(s) && h in s.procs && HoldsClient(s.procs[h])
    ensures CanRun(s, h)
  {
    assert ProcRole(h, s.procs[h], s.failer, s.T, s.P);
    var a := Prog(s, s.procs[h], Take).value;
    Runs(s, h, Take, a);
  }

  lemma MuHolderRuns(s: State, h: Gid)
    requires MuLocks(s.procs, s.T) && h in s.procs && MuOf(s.procs[h]).Some?
    ensures CanRun(s, h)
  {
    var a := Prog(s, s.procs[h], Take).value;
    Runs(s, h, Take, a);
  }

  lemma SendHolderRuns(s: State, h: Gid)
    requires SendLocks(s.procs, s.T) && h in s.procs && SendMuOf(s.procs[h]).Some? && !EnvWaits(s, h)
    requires |s.T[SendMuOf(s.procs[h]).value].buf| <= CAPACITY
    ensures CanRun(s, h)
  {
    var pc := s.procs[h];
    var c := if pc.Push? && s.T[pc.r].settled then Other("") else Take;
    var a := Prog(s, pc, c).value;
    Runs(s, h, c, a);
  }

  /** Where a goroutine waits for a turn's `sendMu`, its holder is not parked on a full buffer. */
  lemma SendHolderNotParked(s: State, g: Gid, h: Gid, r: Rid)
    requires g in s.procs && h in s.procs && r in s.T && SendMuOf(s.procs[h]) == Some(r)
    requires ProcRole(g, s.procs[g], s.failer, s.T, s.P) && ProcRole(h, s.procs[h], s.failer, s.T, s.P)
    requires ProcSettle(g, s.procs[g], s.T)
    requires (s.procs[g].Push? && s.procs[g].r == r && s.procs[g].pushAt.SendWait?)
             || (s.procs[g].Finish? && s.procs[g].r == r && s.procs[g].finAt.CloseWait?)
    ensures !EnvWaits(s, h)
  {
  }

  /** The holder of the `sendMu` a goroutine waits for. */
  lemma SendWaitHolder(s: State, g: Gid)
    requires SendLocks(s.procs, s.T) && g in s.procs && HeldBy(s, s.procs[g]).Some?
    requires var pc := s.procs[g]; (pc.Push? && pc.pushAt.SendWait?) || (pc.Finish? && pc.finAt.CloseWait?)
    ensures s.procs[g].r in s.T && HeldBy(s, s.procs[g]) == s.T[s.procs[g].r].sendMu
    ensures var h := HeldBy(s, s.procs[g]).value; h in s.procs && SendMuOf(s.procs[h]) == Some(s.procs[g].r)
  {
  }

  lemma SendWaitHolderRuns(s: State, g: Gid)
    requires SendLocks(s.procs, s.T) && Roles(s) && Settle(s.procs, s.T) && H.Histories(s.T, H.ViewOf(s.procs[0]))
    requires g in s.procs && HeldBy(s, s.procs[g]).Some?
    requires var pc := s.procs[g]; (pc.Push? && pc.pushAt.SendWait?) || (pc.Finish? && pc.finAt.CloseWait?)
    ensures HeldBy(s, s.procs[g]).value in s.procs && CanRun(s, HeldBy(s, s.procs[g]).value)
  {
    SendWaitHolder(s, g);
    var pc, h := s.procs[g], HeldBy(s, s.procs[g]).value;
    assert ProcRole(g, pc, s.failer, s.T, s.P) && ProcRole(h, s.procs[h], s.failer, s.T, s.P);
    assert ProcSettle(g, pc, s.T);
    SendHolderNotParked(s, g, h, pc.r);
    assert H.HistOk(pc.r, s.T[pc.r], H.ViewOf(s.procs[0]));
    SendHolderRuns(s, h);
  }

  lemma MuWaitHolderRuns(s: State, g: Gid)
    requires MuLocks(s.procs, s.T) && g in s.procs && HeldBy(s, s.procs[g]).Some?
    requires var pc := s.procs[g]; (pc.Push? && pc.pushAt.CheckWait?) || pc.Wait? || (pc.Finish? && pc.finAt.RecordWait?)
    ensures HeldBy(s, s.procs[g]).value in s.procs && CanRun(s, HeldBy(s, s.procs[g]).value)
  {
    MuHolderRuns(s, HeldBy(s, s.procs[g]).value);
  }

  lemma ClientWaitHolderRuns(s: State, g: Gid)
    requires ClientLock(s.procs, s.cmu) && Roles(s) && g in s.procs && HeldBy(s, s.procs[g]) == s.cmu && s.cmu.Some?
    ensures HeldBy(s, s.procs[g]).value in s.procs && CanRun(s, HeldBy(s, s.procs[g]).value)
  {
    ClientHolderRuns(s, s.cmu.value);
  }

  /** Whose mutex a waiting goroutine waits for. */
  lemma WaitsFor(s: State, pc: Pc)
    requires HeldBy(s, pc).Some?
    ensures (pc.Push? && (pc.pushAt.CheckWait? || pc.pushAt.SendWait?)) || pc.Wait?
            || (pc.Finish? && (pc.finAt.RecordWait? || pc.finAt.CloseWait?)) || HeldBy(s, pc) == s.cmu
  {
  }

  lemma HolderRuns(s: State, g: Gid)
    requires Inv(s) && g in s.procs && HeldBy(s, s.procs[g]).Some?
    ensures HeldBy(s, s.procs[g]).value in s.procs && CanRun(s, HeldBy(s, s.procs[g]).value)
  {
    var pc := s.procs[g];
    WaitsFor(s, pc);
    if (pc.Push? && pc.pushAt.SendWait?) || (pc.Finish? && pc.finAt.CloseWait?) {
      SendWaitHolderRuns(s, g);
    } else if pc.Push? || pc.Wait? || (pc.Finish? && pc.finAt.RecordWait?) {
      MuWaitHolderRuns(s, g);
    } else {
      ClientWaitHolderRuns(s, g);
    }
  }

  lemma FinishFree(s: State, g: Gid)
    requires g in s.procs && s.procs[g].Finish? && HeldBy(s, s.procs[g]).None? && s.procs[g].r in s.T
    requires ProcSettle(g, s.procs[g], s.T) && TurnSettle(s.procs[g].r, s.T[s.procs[g].r], s.procs)
    ensures CanRun(s, g)
  {
    var pc := s.procs[g];
    var a := FinishProg(s, pc.r, pc.o, pc.k, pc.finAt).value;
    Runs(s, g, Take, a);
  }

  lemma PushFree(s: State, g: Gid)
    requires g in s.procs && s.procs[g].Push? && HeldBy(s, s.procs[g]).None? && s.procs[g].r in s.T
    requires !EnvWaits(s, g) && |s.T[s.procs[g].r].buf| <= CAPACITY
    ensures CanRun(s, g)
  {
    var pc := s.procs[g];
    var c := if s.T[pc.r].settled then Other("") else Take;
    var a := PushProg(s, pc.r, pc.ev, pc.pushAt, c).value;
    Runs(s, g, c, a);
  }

  lemma SenderFree(s: State, g: Gid)
    requires g in s.procs && (s.procs[g].Reply? || s.procs[g].FailPending? || s.procs[g].FailTurns?)
    requires R.RequestsHold(s) && ProcRole(g, s.procs[g], s.failer, s.T, s.P)
    ensures CanRun(s, g)
  {
    var pc := s.procs[g];
    var c := if pc.FailPending? && pc.ps != {} then var r :| r in pc.ps; Pick(r)
             else if pc.FailTurns? && pc.ts != {} then var r :| r in pc.ts; Pick(r)
             else Take;
    var a := Prog(s, pc, c).value;
    R.ProgRequestDiscipline(s, g, pc, c, a);
    if a.op.ReplyResult? || a.op.ReplyErr? { R.SendersNeverBlock(s, g, a.op, a.then_); }
    Runs(s, g, c, a);
  }

  lemma CallerFree(s: State, g: Gid)
    requires g in s.procs && HeldBy(s, s.procs[g]).None? && !EnvWaits(s, g)
    requires var pc := s.procs[g]; pc.Route? || pc.FailAll? || pc.SendMessage? || pc.Request? || pc.Wait?
    requires ProcRole(g, s.procs[g], s.failer, s.T, s.P) && Globals(s)
    ensures CanRun(s, g)
  {
    var pc := s.procs[g];
    var c := if pc.Request? && s.P[pc.r].result == [] then Other("") else Take;
    var a := Prog(s, pc, c).value;
    Runs(s, g, c, a);
  }

  lemma FreeToRun(s: State, g: Gid)
    requires Inv(s) && g in s.procs && HeldBy(s, s.procs[g]).None? && !EnvWaits(s, g)
    ensures CanRun(s, g)
  {
    var pc := s.procs[g];
    assert ProcRole(g, pc, s.failer, s.T, s.P) && ProcSettle(g, pc, s.T);
    match pc
    case Finish(r, _, _, _) =>
      assert TurnSettle(r, s.T[r], s.procs);
      FinishFree(s, g);
    case Push(r, _, _) =>
      assert H.HistOk(r, s.T[r], H.ViewOf(s.procs[0]));
      PushFree(s, g);
    case Reply(_, _) => SenderFree(s, g);
    case FailPending(_, _, _) => SenderFree(s, g);
    case FailTurns(_, _) => SenderFree(s, g);
    case _ => CallerFree(s, g);
  }

  /**
   * A goroutine that cannot run waits for the outside world, or for a mutex whose holder can run:
   * waiting never chains. In particular a finisher that waits for `sendMu` never meets a parked push.
   */
  lemma BlockedOnlyByRunnable(s: State, g: Gid)
    requires Inv(s) && g in s.procs && !EnvWaits(s, g)
    ensures CanRun(s, g) || (var h := HeldBy(s, s.procs[g]); h.Some? && h.value in s.procs && CanRun(s, h.value))
  {
    if HeldBy(s, s.procs[g]).Some? {
      HolderRuns(s, g);
    } else {
      FreeToRun(s, g);
    }
  }

  /** When no goroutine can run, each of them waits for the outside world: there is no deadlock. */
  lemma NoDeadlock(ss: seq<State>, moves: seq<Move>, i: nat)
    requires Run(ss, moves) && i < |ss| && (forall g :: g in ss[i].procs ==> !CanRun(ss[i], g))
    ensures forall g :: g in ss[i].procs ==> EnvWaits(ss[i], g)
  {
    RunInv(ss, moves, i);
    forall g | g in ss[i].procs ensures EnvWaits(ss[i], g) {
      if !EnvWaits(ss[i], g) { BlockedOnlyByRunnable(ss[i], g); }
    }
  }

  // ----- shutdown

  /** Everything has come to rest after a close. */
  ghost predicate AtRest(s: State) {
    && s.pending == {} && s.turns == {}
    && (forall r :: r in s.T ==> s.T[r].done && s.T[r].settled && s.T[r].eventsClosed)
    && (forall r :: r in s.P ==> s.P[r].owner == Answered || s.P[r].owner == Requester)
    && (forall g :: g in s.procs ==> s.procs[g] == Halt || (g == 0 && s.procs[g] == Recv))
  }

  lemma SettledAtRest(s: State, r: Rid)
    requires Settle(s.procs, s.T) && Roles(s) && Duties(s) && s.closed && r in s.T
    requires forall g :: g in s.procs ==> EnvWaits(s, g)
    ensures s.T[r].done && s.T[r].settled && s.T[r].eventsClosed
  {
    var t := s.T[r];
    assert TurnSettle(r, t, s.procs) && Cared(r, t, s);
    assert EnvWaits(s, t.creator) && EnvWaits(s, s.failer.value);
    assert t.winner.Some? && t.winner.value in s.procs ==> EnvWaits(s, t.winner.value);
  }

  lemma OwnerAtRest(s: State, r: Rid)
    requires R.RequestsHold(s) && Globals(s) && s.closed && r in s.P && EnvWaits(s, 0) && EnvWaits(s, s.failer.value)
    ensures s.P[r].owner == Answered || s.P[r].owner == Requester
  {
    assert R.RequestOk(r, s.P[r], s.procs, s.pending, s.failer);
  }

  lemma AnsweredAtRest(s: State, r: Rid)
    requires R.RequestsHold(s) && Globals(s) && s.closed && r in s.P && (forall g :: g in s.procs ==> EnvWaits(s, g))
    ensures s.P[r].owner == Answered || s.P[r].owner == Requester
    ensures s.P[r].creator in s.procs
    ensures !s.procs[s.P[r].creator].Request? || s.procs[s.P[r].creator].r != r
  {
    var p := s.P[r];
    OwnerAtRest(s, r);
    assert R.RequestOk(r, p, s.procs, s.pending, s.failer);
    assert EnvWaits(s, p.creator) && R.ProcRequests(p.creator, R.ViewOf(s.procs[p.creator]), s.failer, s.P);
  }

  /**
   * Close loses nothing: once the goroutines have come to rest after a close, every turn ever created
   * is settled with its channel closed, every request was answered or given back, and no call is left.
   */
  lemma CloseSettlesAll(ss: seq<State>, moves: seq<Move>, i: nat)
    requires Run(ss, moves) && i < |ss| && ss[i].closed && (forall g :: g in ss[i].procs ==> !CanRun(ss[i], g))
    ensures AtRest(ss[i])
  {
    var s := ss[i];
    NoDeadlock(ss, moves, i);
    RunInv(ss, moves, i);
    forall r | r in s.T ensures s.T[r].done && s.T[r].settled && s.T[r].eventsClosed { SettledAtRest(s, r); }
    forall r | r in s.P ensures s.P[r].owner == Answered || s.P[r].owner == Requester { AnsweredAtRest(s, r); }
    forall g | g in s.procs ensures s.procs[g] == Halt || (g == 0 && s.procs[g] == Recv) {
      var pc := s.procs[g];
      assert EnvWaits(s, g) && ProcRole(g, pc, s.failer, s.T, s.P);
      if pc.Request? { AnsweredAtRest(s, pc.r); }
      if pc.Wait? || pc.Push? { SettledAtRest(s, pc.r); }
    }
  }
}
