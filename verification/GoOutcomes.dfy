/** Per-turn and per-request consequences for callers of the client. */
module GoOutcomes {
  import opened Wire
  import opened GoClient
  import opened GoSettle
  import opened GoDuties
  import opened GoArrivals
  import opened GoTheorems
  import R = GoRequests
  import H = GoHistory

  // ----- release

  lemma RestReleases(s: State, r: Rid)
    requires Settle(s.procs, s.T) && r in s.T && s.T[r].done && (forall g :: g in s.procs ==> EnvWaits(s, g))
    ensures s.T[r].settled && s.T[r].eventsClosed
    ensures forall g :: g in s.procs && s.procs[g].Push? ==> s.procs[g].r != r
  {
    var t := s.T[r];
    assert TurnSettle(r, t, s.procs);
    assert t.winner.value in s.procs ==> EnvWaits(s, t.winner.value);
    forall g | g in s.procs && s.procs[g].Push? ensures s.procs[g].r != r {
      assert EnvWaits(s, g);
    }
  }

  /**
   * Once an outcome is recorded, whenever the goroutines come to rest the turn is settled, its channel
   * is closed, and no push is parked on it.
   */
  lemma RecordedIsReleased(ss: seq<State>, moves: seq<Move>, i: nat, j: nat, r: Rid)
    requires Run(ss, moves) && i <= j < |ss| && r in ss[i].T && ss[i].T[r].done
    requires forall g :: g in ss[j].procs ==> !CanRun(ss[j], g)
    ensures r in ss[j].T && ss[j].T[r].settled && ss[j].T[r].eventsClosed
    ensures forall g :: g in ss[j].procs && ss[j].procs[g].Push? ==> ss[j].procs[g].r != r
  {
    TurnLater(ss, moves, i, j, r);
    NoDeadlock(ss, moves, j);
    RunInv(ss, moves, j);
    RestReleases(ss[j], r);
  }

  // ----- after a close

  lemma HappenKeepsClosed(s: State, e: Env)
    requires CanHappen(s, e)
    ensures Happen(s, e).closed == s.closed
  {
  }

  lemma StepKeepsClosed(s: State, g: Gid, c: Choice)
    requires CanStep(s, g, c) && s.closed
    ensures Step(s, g, c).closed
  {
  }

  lemma ClosedStays(s: State, m: Move, s': State)
    requires Next(s, m, s') && s.closed
    ensures s'.closed
  {
    match m
    case Proc(g, c) => StepKeepsClosed(s, g, c);
    case External(e) => HappenKeepsClosed(s, e);
  }

  lemma {:induction false} ClosedForever(ss: seq<State>, moves: seq<Move>, i: nat, j: nat)
    requires Run(ss, moves) && i <= j < |ss| && ss[i].closed
    ensures ss[j].closed && ss[j].pending == {} && ss[j].turns == {}
    decreases j
  {
    if i < j {
      ClosedForever(ss, moves, i, j - 1);
      assert NextAt(ss, moves, j - 1);
      ClosedStays(ss[j - 1], moves[j - 1], ss[j]);
    }
    RunInv(ss, moves, j);
  }

  // ----- requests

  /** The life of a request: at most one answer, and never left in the map once its call has returned. */
  predicate AnsweredOnce(s: State, r: Rid)
    requires r in s.P && s.P[r].creator in s.procs
  {
    var p := s.P[r];
    var pc := s.procs[p.creator];
    && |p.result| + |p.err| <= 1
    && (p.owner != Answered ==> p.result == [] && p.err == [])
    && (pc == Halt ==> r !in s.pending)
    && (p.owner == Answered && pc == Request(r, Awaiting) ==> |p.result| + |p.err| == 1)
  }

  lemma RequestAnsweredOnce(ss: seq<State>, moves: seq<Move>, i: nat, r: Rid)
    requires Run(ss, moves) && i < |ss| && r in ss[i].P
    ensures ss[i].P[r].creator in ss[i].procs && AnsweredOnce(ss[i], r)
  {
    RunInv(ss, moves, i);
    assert R.RequestOk(r, ss[i].P[r], ss[i].procs, ss[i].pending, ss[i].failer);
  }

  // ----- one turn against the wire

  predicate FailedHere(o: Outcome) { o.final.None? && o.err.Some? && H.Ours(o.err.value) }

  /** `r` was taken out of the map by a close or a failed send, and somebody is about to fail it. */
  predicate BeingFailed(s: State, r: Rid)
    requires r in s.T
  {
    && !s.T[r].done && r !in s.turns
    && ((s.T[r].creator in s.procs && r in DutyOf(s.procs[s.T[r].creator]))
        || (s.failer.Some? && s.failer.value in s.procs && r in DutyOf(s.procs[s.failer.value])))
  }

  /**
   * The turn got its whole trace and settled with what the trace's last event says, or a timeout,
   * a close or a failed send got there first.
   */
  predicate GotItsTrace(s: State, r: Rid, trace: seq<Event>)
    requires r in s.T && Complete(trace)
  {
    var t := s.T[r];
    || (t.done && t.read + t.buf == trace && t.outcome == OutcomeOf(trace[|trace| - 1]))
    || (t.done && t.read + t.buf <= trace && FailedHere(t.outcome))
    || (BeingFailed(s, r) && t.read + t.buf <= trace)
  }

  lemma PrefixWithTerminal(sent: seq<Event>, trace: seq<Event>)
    requires sent <= trace && sent != [] && Terminal(sent[|sent| - 1]) && TerminalOnlyLast(trace)
    ensures sent == trace
  {
  }

  /** The dispatcher has dealt with every frame it took: it waits for the next, or has ended, or is shutting down. */
  predicate LoopIdle(pc: Pc) { H.ViewOf(pc).Idle? && !pc.Route? }

  /** With the dispatcher idle, what a turn delivered is a prefix of the trace; all of it, if its end came from there. */
  lemma DeliveredPrefix(s: State, r: Rid, trace: seq<Event>)
    requires r in s.T && 0 in s.procs && LoopIdle(s.procs[0]) && ArrivalOk(r, s) && H.HistOk(r, s.T[r], H.Idle)
    requires !s.T[r].early && OfRequest(s.wire, r) == trace && Complete(trace)
    ensures H.SentOn(s.T[r]) <= s.T[r].routed <= trace
    ensures FromEvent(s.T[r].outcome) ==> H.SentOn(s.T[r]) == trace && s.T[r].outcome == OutcomeOf(trace[|trace| - 1])
  {
    var t := s.T[r];
    assert t.routed <= trace[..|trace|];
    if FromEvent(t.outcome) { PrefixWithTerminal(H.SentOn(t), trace); }
  }

  /** An unfinished turn that is still in the map has everything, which ends it. */
  lemma UnfinishedIsOut(s: State, r: Rid, trace: seq<Event>)
    requires r in s.T && 0 in s.procs && LoopIdle(s.procs[0]) && ArrivalOk(r, s) && H.HistOk(r, s.T[r], H.Idle)
    requires !s.T[r].early && OfRequest(s.wire, r) == trace && Complete(trace) && !s.T[r].done
    ensures r !in s.turns
  {
    assert trace[..|trace|] == trace;
    assert H.SentOn(s.T[r]) == s.T[r].routed;
  }

  lemma TraceAt(s: State, r: Rid, trace: seq<Event>)
    requires r in s.T && 0 in s.procs && LoopIdle(s.procs[0]) && ArrivalOk(r, s) && Cared(r, s.T[r], s)
    requires H.HistOk(r, s.T[r], H.Idle) && TurnSettle(r, s.T[r], s.procs)
    requires !s.T[r].early && OfRequest(s.wire, r) == trace && Complete(trace)
    requires s.T[r].done ==> FromEvent(s.T[r].outcome) || FailedHere(s.T[r].outcome)
    ensures GotItsTrace(s, r, trace)
  {
    DeliveredPrefix(s, r, trace);
    if !s.T[r].done { UnfinishedIsOut(s, r, trace); }
  }

  /** At rest nobody is about to fail a turn. */
  lemma NobodyFailing(ss: seq<State>, moves: seq<Move>, i: nat, r: Rid)
    requires Run(ss, moves) && i < |ss| && r in ss[i].T && forall g :: g in ss[i].procs ==> !CanRun(ss[i], g)
    ensures !BeingFailed(ss[i], r)
  {
    NoDeadlock(ss, moves, i);
    var s := ss[i];
    forall g | g in s.procs ensures DutyOf(s.procs[g]) == {} { assert EnvWaits(s, g); }
  }

  /** In a run, once the wire has carried a complete trace for a registered turn. */
  lemma TurnGetsItsTrace(ss: seq<State>, moves: seq<Move>, i: nat, r: Rid, trace: seq<Event>)
    requires Run(ss, moves) && i < |ss| && r in ss[i].T
    requires 0 in ss[i].procs && LoopIdle(ss[i].procs[0]) && !ss[i].T[r].early
    requires OfRequest(ss[i].wire, r) == trace && Complete(trace)
    ensures GotItsTrace(ss[i], r, trace)
  {
    RunInv(ss, moves, i);
    var s := ss[i];
    assert H.HistOk(r, s.T[r], H.ViewOf(s.procs[0])) && TurnSettle(r, s.T[r], s.procs);
    assert ArrivalOk(r, s) && Cared(r, s.T[r], s);
    TraceAt(s, r, trace);
  }
}
