/** Between two events of the outside world the goroutines take only boundedly many steps. */
module GoProgress {
  import opened Wire
  import opened GoClient

  function FinRank(at: FinAt): nat {
    match at
    case RecordWait => 9 case RecordHeld => 8 case Stopping => 7 case RemoveWait => 6 case RemoveHeld => 5
    case OnceDo => 4 case CloseWait => 3 case CloseHeld => 2 case Unlocking => 1
  }

  function PushRank(at: PushAt): nat {
    match at
    case CheckWait => 15 case CheckHeld => 14 case SendWait => 13 case SendHeld => 12
    case Selecting => 11 case Sent => 10 case Dropped => 1
  }

  function SendRank(at: SendAt): nat {
    match at
    case RegisterWait => 25 case RegisterHeld => 24 case Transmit => 12 case UndoWait(_) => 11 case UndoHeld(_) => 10
  }

  function ReqRank(at: ReqAt): nat {
    match at
    case EnrolWait => 8 case EnrolHeld => 7 case Submit => 4 case Awaiting => 3 case ForgetWait => 2 case ForgetHeld => 1
  }

  function ReturnRank(k: Return): nat { if k.ToAborts? then 1 + 10 * |k.rest| else 0 }

  /** How many steps a goroutine can still take on its own account. */
  function Rank(pc: Pc): nat {
    match pc
    case Halt => 0
    case Recv => 0
    case Route(_, held) => if held then 16 else 17
    case Reply(_, _) => 1
    case Push(_, _, at) => PushRank(at)
    case Finish(_, _, k, at) => FinRank(at) + ReturnRank(k)
    case FailAll(_, held) => if held then 3 else 4
    case FailPending(_, ps, ts) => 2 + |ps| + 10 * |ts|
    case FailTurns(_, ts) => 1 + 10 * |ts|
    case SendMessage(_, at) => SendRank(at)
    case Request(_, at) => ReqRank(at)
    case Wait(_, at) => if at.OnSettled? then 3 else if at.ReadWait? then 2 else 1
  }

  /** An entry in a map is work somebody will have to do when the client shuts down. */
  function MapRank(turns: set<Rid>, pending: set<Rid>): nat { 11 * |turns| + 2 * |pending| }

  lemma FinishRank(s: State, pc: Pc, a: Act)
    requires pc.Finish? && FinishProg(s, pc.r, pc.o, pc.k, pc.finAt) == Some(a)
    ensures Rank(a.then_) < Rank(pc)
    ensures TurnsDo(s.turns, a.op) <= s.turns && PendingDo(s.pending, a.op) == s.pending
  {
  }

  lemma PushRankFalls(s: State, pc: Pc, c: Choice, a: Act)
    requires pc.Push? && PushProg(s, pc.r, pc.ev, pc.pushAt, c) == Some(a)
    ensures Rank(a.then_) < Rank(pc)
    ensures TurnsDo(s.turns, a.op) == s.turns && PendingDo(s.pending, a.op) == s.pending
  {
  }

  lemma FailPendingRank(s: State, pc: Pc, c: Choice, a: Act)
    requires pc.FailPending? && FailPendingProg(pc.e, pc.ps, pc.ts, c) == Some(a)
    ensures Rank(a.then_) < Rank(pc)
    ensures TurnsDo(s.turns, a.op) == s.turns && PendingDo(s.pending, a.op) == s.pending
  {
    if pc.ps != {} { assert |pc.ps - {c.r}| == |pc.ps| - 1; }
  }

  lemma FailTurnsRank(s: State, pc: Pc, c: Choice, a: Act)
    requires pc.FailTurns? && FailTurnsProg(pc.e, pc.ts, c) == Some(a)
    ensures Rank(a.then_) < Rank(pc)
    ensures TurnsDo(s.turns, a.op) == s.turns && PendingDo(s.pending, a.op) == s.pending
  {
    if pc.ts != {} { assert |pc.ts - {c.r}| == |pc.ts| - 1; }
  }

  lemma Smaller(a: set<Rid>, b: set<Rid>)
    requires a <= b
    ensures |a| <= |b|
  {
    if a != b {
      assert b == a + (b - a);
    }
  }

  function Growth(op: Op): nat { if op.Register? then 11 else if op.Enrol? then 2 else 0 }

  lemma TurnsGrow(turns: set<Rid>, op: Op)
    ensures |TurnsDo(turns, op)| <= |turns| + if op.Register? then 1 else 0
  {
    if !op.Register? { Smaller(TurnsDo(turns, op), turns); }
  }

  lemma PendingGrow(pending: set<Rid>, op: Op)
    ensures |PendingDo(pending, op)| <= |pending| + if op.Enrol? then 1 else 0
  {
    if !op.Enrol? { Smaller(PendingDo(pending, op), pending); }
  }

  lemma MapsGrow(turns: set<Rid>, pending: set<Rid>, op: Op)
    ensures MapRank(TurnsDo(turns, op), PendingDo(pending, op)) <= MapRank(turns, pending) + Growth(op)
  {
    TurnsGrow(turns, op);
    PendingGrow(pending, op);
  }

  lemma CallerFalls(s: State, pc: Pc, c: Choice, a: Act)
    requires pc.SendMessage? || pc.Request? || pc.Wait? || pc.Route? || pc.FailAll? || pc.Reply?
    requires Prog(s, pc, c) == Some(a) && !a.op.Shut?
    ensures Rank(a.then_) + Growth(a.op) < Rank(pc)
  {
  }

  lemma CallerRank(s: State, pc: Pc, c: Choice, a: Act)
    requires pc.SendMessage? || pc.Request? || pc.Wait? || pc.Route? || pc.FailAll? || pc.Reply?
    requires Prog(s, pc, c) == Some(a)
    ensures Rank(a.then_) + MapRank(TurnsDo(s.turns, a.op), PendingDo(s.pending, a.op)) <
            Rank(pc) + MapRank(s.turns, s.pending)
  {
    if a.op.Shut? {
      assert pc.FailAll? && a == FailAllProg(s, pc.e, pc.held).value;
    } else {
      MapsGrow(s.turns, s.pending, a.op);
      CallerFalls(s, pc, c, a);
    }
  }

  /** Every step of a goroutine uses up some of its own rank or of the maps'. */
  lemma StepLowersRank(s: State, pc: Pc, c: Choice, a: Act)
    requires Prog(s, pc, c) == Some(a)
    ensures Rank(a.then_) + MapRank(TurnsDo(s.turns, a.op), PendingDo(s.pending, a.op)) <
            Rank(pc) + MapRank(s.turns, s.pending)
  {
    match pc
    case Finish(_, _, _, _) =>
      FinishRank(s, pc, a);
      Smaller(TurnsDo(s.turns, a.op), s.turns);
    case Push(_, _, _) => PushRankFalls(s, pc, c, a);
    case FailPending(_, _, _) => FailPendingRank(s, pc, c, a);
    case FailTurns(_, _) => FailTurnsRank(s, pc, c, a);
    case _ => CallerRank(s, pc, c, a);
  }

  // ----- the sum over all goroutines

  ghost function RankSum(procs: map<Gid, Pc>): nat {
    if procs == map[] then 0
    else var g :| g in procs; Rank(procs[g]) + RankSum(procs - {g})
  }

  lemma {:induction false} RankSumTake(procs: map<Gid, Pc>, g: Gid)
    requires g in procs
    ensures RankSum(procs) == Rank(procs[g]) + RankSum(procs - {g})
    decreases |procs|
  {
    var h :| h in procs && RankSum(procs) == Rank(procs[h]) + RankSum(procs - {h});
    if h != g {
      RankSumTake(procs - {h}, g);
      assert (procs - {h}) - {g} == (procs - {g}) - {h};
      RankSumTake(procs - {g}, h);
    }
  }

  lemma RankSumMove(procs: map<Gid, Pc>, g: Gid, pc: Pc)
    requires g in procs
    ensures RankSum(procs[g := pc]) + Rank(procs[g]) == RankSum(procs) + Rank(pc)
  {
    RankSumTake(procs, g);
    RankSumTake(procs[g := pc], g);
    assert procs[g := pc] - {g} == procs - {g};
  }

  ghost function Total(s: State): nat { RankSum(s.procs) + MapRank(s.turns, s.pending) }

  lemma DoTotal(s: State, g: Gid, op: Op, pc': Pc)
    requires g in s.procs && Ready(s, op)
    ensures var s' := Do(s, g, op, pc');
      Total(s') == RankSum(s.procs[g := pc']) + MapRank(TurnsDo(s.turns, op), PendingDo(s.pending, op))
  {
  }

  lemma StepLowersTotal(s: State, g: Gid, c: Choice)
    requires CanStep(s, g, c)
    ensures Total(Step(s, g, c)) < Total(s)
  {
    var a := Prog(s, s.procs[g], c).value;
    DoTotal(s, g, a.op, a.then_);
    RankSumMove(s.procs, g, a.then_);
    StepLowersRank(s, s.procs[g], c, a);
  }

  /** `ss` continues from its first state with goroutine steps only. */
  predicate Undisturbed(ss: seq<State>, moves: seq<Move>) {
    && |ss| == |moves| + 1
    && forall i :: 0 <= i < |moves| ==> NextAt(ss, moves, i) && moves[i].Proc?
  }

  /** Left alone, the client comes to rest within `Total` steps, whatever the scheduler does. */
  lemma {:induction false} RestsInTime(ss: seq<State>, moves: seq<Move>)
    requires Undisturbed(ss, moves)
    ensures |moves| + Total(ss[|moves|]) <= Total(ss[0])
    decreases |moves|
  {
    var n := |moves|;
    if n > 0 {
      var ss', moves' := ss[..n], moves[..n - 1];
      forall i | 0 <= i < |moves'| ensures NextAt(ss', moves', i) && moves'[i].Proc? {
        assert NextAt(ss, moves, i) && moves[i].Proc?;
      }
      RestsInTime(ss', moves');
      assert NextAt(ss, moves, n - 1) && moves[n - 1].Proc?;
      StepLowersTotal(ss[n - 1], moves[n - 1].g, moves[n - 1].c);
    }
  }
}
