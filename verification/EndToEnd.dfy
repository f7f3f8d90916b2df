/** The Go client against the .NET server, over a wire that interleaves the traces of any number of requests. */
module EndToEnd {
  import opened Wire
  import opened GoClient
  import opened GoTheorems
  import opened GoOutcomes
  import S = SessionStore
  import V = Server
  import ST = ServerTheorems
  import SR = ServerRuns

  /** The last event of the wire is the last of some trace, and so on back to the start. */
  ghost predicate Interleaves(wire: seq<Event>, traces: map<string, seq<Event>>) {
    if wire == [] then forall r :: r in traces ==> traces[r] == []
    else exists r :: r in traces && EndsIn(wire, traces[r]) && Interleaves(wire[..|wire| - 1], traces[r := traces[r][..|traces[r]| - 1]])
  }

  predicate EndsIn(wire: seq<Event>, trace: seq<Event>)
    requires wire != []
  {
    trace != [] && trace[|trace| - 1] == wire[|wire| - 1]
  }

  predicate OwnIds(traces: map<string, seq<Event>>) { forall r :: r in traces ==> SR.AllCarry(traces[r], r) }

  lemma OwnIdsBefore(traces: map<string, seq<Event>>, q: string, n: nat)
    requires OwnIds(traces) && q in traces && n <= |traces[q]|
    ensures OwnIds(traces[q := traces[q][..n]])
  {
    var before := traces[q := traces[q][..n]];
    forall p | p in before ensures SR.AllCarry(before[p], p) {
      assert SR.AllCarry(traces[p], p);
    }
  }

  /** With distinct ids, each trace can be read back off the wire. */
  lemma {:induction false} TracesReadBack(wire: seq<Event>, traces: map<string, seq<Event>>, r: string)
    requires Interleaves(wire, traces) && OwnIds(traces) && r in traces
    ensures OfRequest(wire, r) == traces[r]
  {
    if wire != [] {
      var q :| q in traces && EndsIn(wire, traces[q]) && Interleaves(wire[..|wire| - 1], traces[q := traces[q][..|traces[q]| - 1]]);
      var n := |traces[q]| - 1;
      var before := traces[q := traces[q][..n]];
      assert SR.AllCarry(traces[q], q);
      OwnIdsBefore(traces, q, n);
      TracesReadBack(wire[..|wire| - 1], before, r);
      assert traces[q] == traces[q][..n] + [traces[q][n]];
    }
  }

  /** A request as the server saw it: its store at the time, the frame, and everything outside its control. */
  datatype Served = Served(store: S.Store, frame: V.Frame, env: V.Env)

  /** A `send_message` frame that supplies `r` as its request id. */
  predicate Asks(q: Served, r: string) { ST.IsSend(q.frame) && q.frame.requestId == V.Text(r) }

  function TraceOf(q: Served): seq<Event> { V.Dispatch(q.store, q.frame, q.env).events }

  predicate Succeeds(q: Served) {
    q.frame.Object? && ST.Accepted(q.store, q.frame, q.env)
    && !ST.TurnFails(q.store, ST.ConversationOf(q.store, q.frame, q.env), V.IdOf(q.frame.message), q.env)
  }

  lemma TraceComplete(q: Served, r: string)
    requires Asks(q, r)
    ensures Complete(TraceOf(q)) && SR.AllCarry(TraceOf(q), r)
  {
    ST.SendIs(q.store, q.frame, q.env);
    ST.SendTrace(q.store, q.frame, q.env);
    SR.LastEvent(q.store, q.frame, q.env);
    forall i | 0 <= i < |TraceOf(q)| - 1 ensures TraceOf(q)[i].rid == r { SR.EarlierEvents(q.store, q.frame, q.env, i); }
  }

  /** What the last event of the server's trace means to the turn: the stored reply, or a protocol error. */
  predicate Meant(q: Served, r: string, o: Outcome)
    requires q.frame.Object?
  {
    if Succeeds(q) then
      var reply := ST.ReplyTo(q.store, q.frame, q.env);
      && o == Outcome(Some(Event(r, Eventual(true, q.env.outboundId, Parts([Some(reply)]), V.Sources(q.env)))), None)
      && var conversation := ST.ConversationOf(q.store, q.frame, q.env);
         S.Log(V.Dispatch(q.store, q.frame, q.env).store, conversation) ==
         S.Log(q.store, conversation)
         + [V.InboundOf(conversation, V.IdOf(q.frame.message), q.env), V.OutboundOf(conversation, reply, q.env)]
    else
      && o.final.None? && o.err.Some? && o.err.value.ProtocolFailure? && o.err.value.requestId == r
      && o.err.value.code == if SR.Fails(q.store, q.frame, q.env) then "INTERNAL_ERROR" else "NOT_FOUND"
  }

  lemma SuccessMeant(q: Served, r: string)
    requires Asks(q, r) && Succeeds(q)
    ensures TraceOf(q) != [] && Terminal(TraceOf(q)[|TraceOf(q)| - 1]) && Meant(q, r, OutcomeOf(TraceOf(q)[|TraceOf(q)| - 1]))
  {
    ST.SendIs(q.store, q.frame, q.env);
    ST.ReplyConserved(q.store, q.frame, q.env);
    ST.ReplyStreamed(q.store, q.frame, q.env);
  }

  lemma FailureMeant(q: Served, r: string)
    requires Asks(q, r) && !Succeeds(q)
    ensures TraceOf(q) != [] && Terminal(TraceOf(q)[|TraceOf(q)| - 1]) && Meant(q, r, OutcomeOf(TraceOf(q)[|TraceOf(q)| - 1]))
  {
    ST.SendIs(q.store, q.frame, q.env);
    if ST.Accepted(q.store, q.frame, q.env) { ST.FailureReported(q.store, q.frame, q.env); }
    assert |"INTERNAL_ERROR"| > 0 && |"NOT_FOUND"| > 0;
  }

  /**
   * The turn delivered the server's trace, all of it and nothing else, and settled with what its last event
   * means; or a timeout, a close or a failed send on the client got there first, after a prefix of the trace.
   */
  predicate Fulfilled(s: State, r: string, q: Served)
    requires r in s.T && q.frame.Object?
  {
    var t := s.T[r];
    || (t.done && t.read + t.buf == TraceOf(q) && Meant(q, r, t.outcome))
    || (t.read + t.buf <= TraceOf(q) && ((t.done && FailedHere(t.outcome)) || BeingFailed(s, r)))
  }

  lemma TraceFulfils(s: State, r: string, q: Served)
    requires r in s.T && Asks(q, r) && Complete(TraceOf(q)) && GotItsTrace(s, r, TraceOf(q))
    ensures Fulfilled(s, r, q)
  {
    if Succeeds(q) { SuccessMeant(q, r); } else { FailureMeant(q, r); }
  }

  /**
   * End to end: in any run of the client, whatever the interleaving on the wire, once the dispatch loop has
   * taken in the traces the server gave a set of requests, each of their turns is fulfilled.
   */
  lemma EachTurnFulfilled(ss: seq<State>, moves: seq<Move>, i: nat, traces: map<string, seq<Event>>, served: map<string, Served>, r: string)
    requires Run(ss, moves) && i < |ss| && 0 in ss[i].procs && LoopIdle(ss[i].procs[0])
    requires Interleaves(ss[i].wire, traces) && OwnIds(traces)
    requires r in served && Asks(served[r], r) && r in traces && traces[r] == TraceOf(served[r])
    requires r in ss[i].T && !ss[i].T[r].early
    ensures Fulfilled(ss[i], r, served[r])
  {
    var q := served[r];
    TracesReadBack(ss[i].wire, traces, r);
    TraceComplete(q, r);
    TurnGetsItsTrace(ss, moves, i, r, TraceOf(q));
    TraceFulfils(ss[i], r, q);
  }

  /** As `Fulfilled`, with nothing left to happen. */
  predicate Concluded(s: State, r: string, q: Served)
    requires r in s.T && q.frame.Object?
  {
    var t := s.T[r];
    && t.done && t.settled && t.eventsClosed
    && ((t.read + t.buf == TraceOf(q) && Meant(q, r, t.outcome)) || (t.read + t.buf <= TraceOf(q) && FailedHere(t.outcome)))
  }

  /**
   * At rest, with the loop waiting or ended after a hang-up, each of these turns has settled and its channel is
   * closed: with the server's trace and its meaning, or with the client's own failure.
   */
  lemma EachTurnConcluded(ss: seq<State>, moves: seq<Move>, i: nat, traces: map<string, seq<Event>>, served: map<string, Served>, r: string)
    requires Run(ss, moves) && i < |ss| && 0 in ss[i].procs && (ss[i].procs[0] == Recv || ss[i].procs[0] == Halt)
    requires forall g :: g in ss[i].procs ==> !CanRun(ss[i], g)
    requires Interleaves(ss[i].wire, traces) && OwnIds(traces)
    requires r in served && Asks(served[r], r) && r in traces && traces[r] == TraceOf(served[r])
    requires r in ss[i].T && !ss[i].T[r].early
    ensures Concluded(ss[i], r, served[r])
  {
    EachTurnFulfilled(ss, moves, i, traces, served, r);
    NobodyFailing(ss, moves, i, r);
    RecordedIsReleased(ss, moves, i, i, r);
  }
}
