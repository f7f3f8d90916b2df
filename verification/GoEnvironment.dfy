/** Frames, hang-ups, new calls, timers and readers keep the invariant too. */
module GoEnvironment {
  import opened Wire
  import opened GoClient
  import opened GoLocks
  import opened GoSettle
  import opened GoRoles
  import opened GoDuties
  import opened GoArrivals
  import opened GoInvariant
  import R = GoRequests
  import H = GoHistory

  /** The environment may mark, disarm or read from an existing turn, and nothing else. */
  predicate SameCore(t: Turn, t': Turn) {
    && t'.mu == t.mu && t'.sendMu == t.sendMu && t'.done == t.done && t'.outcome == t.outcome
    && t'.settled == t.settled && t'.once == t.once && t'.closed == t.closed && t'.eventsClosed == t.eventsClosed
    && t'.creator == t.creator && t'.routed == t.routed && t'.winner == t.winner && t'.waits == t.waits
    && H.SentOn(t') == H.SentOn(t) && |t'.buf| <= |t.buf|
  }

  predicate IsNew(t: Turn, g: Gid) { t == NewTurn(g, t.armed).(early := t.early) }

  predicate TurnsExtend(T: map<Rid, Turn>, T': map<Rid, Turn>, g: Gid) {
    T.Keys <= T'.Keys && forall r :: r in T' ==> if r in T then SameCore(T[r], T'[r]) else IsNew(T'[r], g)
  }

  predicate RequestsExtend(P: map<Rid, Pend>, P': map<Rid, Pend>, g: Gid) {
    P.Keys <= P'.Keys && forall r :: r in P' ==> P'[r] == if r in P then P[r] else Pend([], [], Requester, g)
  }

  /** `g` is new, or is the dispatcher waiting for a frame, or does not move. */
  predicate Starts(procs: Procs, g: Gid, pc': Pc) { g in procs ==> procs[g] == Recv || procs[g] == pc' }

  predicate Stays(procs: Procs, g: Gid, pc': Pc) { g in procs && pc' == procs[g] }

  predicate SameClient(s: State, s': State) {
    && s'.cmu == s.cmu && s'.closed == s.closed && s'.closeErr == s.closeErr && s'.doneClosed == s.doneClosed
    && s'.pending == s.pending && s'.turns == s.turns && s'.failer == s.failer && s'.panicked == s.panicked
  }

  /** What every environment event amounts to. */
  predicate Extends(s: State, s': State, g: Gid, pc': Pc) {
    && SameClient(s, s') && s'.procs == s.procs[g := pc'] && Starts(s.procs, g, pc')
    && TurnsExtend(s.T, s'.T, g) && RequestsExtend(s.P, s'.P, g)
  }

  lemma ExtendKeepsMuLocks(s: State, s': State, g: Gid, pc': Pc)
    requires Extends(s, s', g, pc') && MuLocks(s.procs, s.T)
    requires Stays(s.procs, g, pc') || MuOf(pc').None?
    ensures MuLocks(s'.procs, s'.T)
  {
    forall r | r in s'.T && s'.T[r].mu.Some?
      ensures s'.T[r].mu.value in s'.procs && MuOf(s'.procs[s'.T[r].mu.value]) == Some(r)
    {
      assert r in s.T;
    }
  }

  lemma ExtendKeepsSendLocks(s: State, s': State, g: Gid, pc': Pc)
    requires Extends(s, s', g, pc') && SendLocks(s.procs, s.T)
    requires Stays(s.procs, g, pc') || SendMuOf(pc').None?
    ensures SendLocks(s'.procs, s'.T)
  {
    forall r | r in s'.T && s'.T[r].sendMu.Some?
      ensures s'.T[r].sendMu.value in s'.procs && SendMuOf(s'.procs[s'.T[r].sendMu.value]) == Some(r)
    {
      assert r in s.T;
    }
  }

  lemma ExtendKeepsLocks(s: State, s': State, g: Gid, pc': Pc)
    requires Extends(s, s', g, pc') && Locks(s)
    requires Stays(s.procs, g, pc') || (!HoldsClient(pc') && MuOf(pc').None? && SendMuOf(pc').None?)
    ensures Locks(s')
  {
    ExtendKeepsMuLocks(s, s', g, pc');
    ExtendKeepsSendLocks(s, s', g, pc');
  }

  /** What a program counter says about settlement survives the environment's touch. */
  lemma ProcSettleCore(g: Gid, pc: Pc, T: map<Rid, Turn>, T': map<Rid, Turn>, h: Gid)
    requires ProcSettle(g, pc, T) && TurnsExtend(T, T', h)
    ensures ProcSettle(g, pc, T')
  {
  }

  lemma TurnSettleCore(r: Rid, t: Turn, t': Turn, procs: Procs, procs': Procs)
    requires TurnSettle(r, t, procs) && SameCore(t, t')
    requires t.done && !t.closed ==> t.winner.value in procs' && procs'[t.winner.value] == procs[t.winner.value]
    ensures TurnSettle(r, t', procs')
  {
  }

  lemma ExtendKeepsSettle(s: State, s': State, g: Gid, pc': Pc)
    requires Extends(s, s', g, pc') && Settle(s.procs, s.T)
    requires Stays(s.procs, g, pc')
             || (StageOf(pc').NoStage? && !Reading(pc') && (pc'.Finish? ==> OutcomeOk(pc'.o)))
    ensures Settle(s'.procs, s'.T)
  {
    forall h | h in s'.procs ensures ProcSettle(h, s'.procs[h], s'.T) {
      if h in s.procs && s'.procs[h] == s.procs[h] { ProcSettleCore(h, s.procs[h], s.T, s'.T, g); }
    }
    forall r | r in s'.T ensures TurnSettle(r, s'.T[r], s'.procs) {
      if r in s.T {
        assert TurnSettle(r, s.T[r], s.procs);
        TurnSettleCore(r, s.T[r], s'.T[r], s.procs, s'.procs);
      }
    }
  }

  lemma ExtendKeepsRoles(s: State, s': State, g: Gid, pc': Pc)
    requires Extends(s, s', g, pc') && Roles(s) && ProcRole(g, pc', s.failer, s'.T, s'.P)
    requires s'.T.Keys !! s'.P.Keys && "" !in s'.T
    ensures Roles(s')
  {
    forall h | h in s'.procs ensures ProcRole(h, s'.procs[h], s'.failer, s'.T, s'.P) {
      if h != g {
        assert ProcRole(h, s.procs[h], s.failer, s.T, s.P);
        ProcRoleGrows(h, s.procs[h], s.failer, s.T, s.P, s'.T, s'.P);
      }
    }
  }

  /** A role survives the arrival of new turns and requests. */
  lemma ProcRoleGrows(g: Gid, pc: Pc, failer: Option<Gid>, T: map<Rid, Turn>, P: map<Rid, Pend>, T': map<Rid, Turn>, P': map<Rid, Pend>)
    requires ProcRole(g, pc, failer, T, P) && T.Keys <= T'.Keys && P.Keys <= P'.Keys
    requires (forall r :: r in T ==> T'[r].creator == T[r].creator) && (forall r :: r in P ==> P'[r].creator == P[r].creator)
    ensures ProcRole(g, pc, failer, T', P')
  {
  }

  lemma ExtendKeepsSafeSends(s: State, s': State, g: Gid, pc': Pc)
    requires Extends(s, s', g, pc') && SafeSends(s.procs, s.T)
    requires Stays(s.procs, g, pc') || !pc'.Push?
    ensures SafeSends(s'.procs, s'.T)
  {
  }

  lemma ExtendKeepsRequests(s: State, s': State, g: Gid, pc': Pc)
    requires Extends(s, s', g, pc') && R.RequestsHold(s) && 0 in s.procs
    requires s.pending <= s.P.Keys && (s.failer.Some? ==> s.failer.value in s.procs)
    requires Stays(s.procs, g, pc') || R.ViewOf(pc').Unconcerned?
             || (R.ViewOf(pc').Enrolling? && R.ViewOf(pc').r in s'.P && R.ViewOf(pc').r !in s.P)
    ensures R.RequestsHold(s')
  {
    forall h | h in s'.procs ensures R.ProcRequests(h, R.ViewOf(s'.procs[h]), s'.failer, s'.P) {
      if h in s.procs { assert R.ProcRequests(h, R.ViewOf(s.procs[h]), s.failer, s.P); }
    }
    forall r | r in s'.P ensures R.RequestOk(r, s'.P[r], s'.procs, s'.pending, s'.failer) {
      if r in s.P { assert R.RequestOk(r, s.P[r], s.procs, s.pending, s.failer); }
    }
  }

  lemma ExtendKeepsDuties(s: State, s': State, g: Gid, pc': Pc)
    requires Extends(s, s', g, pc') && Duties(s)
    requires forall r :: r in s'.T && r !in s.T ==> r in DutyOf(pc')
    ensures Duties(s')
  {
    forall r | r in s'.T ensures Cared(r, s'.T[r], s') {
      if r in s.T { assert Cared(r, s.T[r], s); }
    }
  }

  lemma ExtendKeepsOwnOutcomes(s: State, s': State, g: Gid, pc': Pc)
    requires Extends(s, s', g, pc') && H.OwnOutcomes(s) && H.OwnOutcome(pc')
    ensures H.OwnOutcomes(s')
  {
  }

  lemma HistCore(r: Rid, t: Turn, t': Turn, v: H.View)
    requires H.HistOk(r, t, v) && SameCore(t, t')
    ensures H.HistOk(r, t', v)
  {
  }

  lemma ExtendKeepsHistories(s: State, s': State, g: Gid, pc': Pc)
    requires Extends(s, s', g, pc') && 0 in s.procs && H.Histories(s.T, H.ViewOf(s.procs[0])) && Roles(s)
    requires g == 0 ==> H.ViewOf(pc') == H.ViewOf(s.procs[0])
    ensures H.Histories(s'.T, H.ViewOf(s'.procs[0]))
  {
    var v := H.ViewOf(s.procs[0]);
    assert ProcRole(0, s.procs[0], s.failer, s.T, s.P);
    forall r | r in s'.T ensures H.HistOk(r, s'.T[r], v) {
      if r in s.T { HistCore(r, s.T[r], s'.T[r], v); }
    }
  }

  // ----- arrivals: the one part that looks at the wire

  lemma OfRequestLast(wire: seq<Event>, ev: Event, r: Rid)
    ensures OfRequest(wire + [ev], r) == OfRequest(wire, r) + (if ev.rid == r then [ev] else [])
  {
    assert (wire + [ev])[..|wire|] == wire;
  }

  lemma FrameArrival(s: State, ev: Event, r: Rid, t': Turn)
    requires ArrivalOk(r, s) && s.procs[0] == Recv
    requires t'.routed == s.T[r].routed && t'.creator == s.T[r].creator
    requires t'.early == (s.T[r].early || (ev.rid == r && RegisteringTurn(s.procs[t'.creator], r)))
    ensures Arrived(t', r, OfRequest(s.wire + [ev], r), InFlight(Route(ev, false), r),
                    RegisteringTurn(s.procs[t'.creator], r), r in s.turns)
  {
    OfRequestLast(s.wire, ev, r);
  }

  lemma FrameKeepsArrivals(s: State, ev: Event)
    requires Arrivals(s) && CanHappen(s, Frame(ev)) && (forall r :: r in s.T ==> s.T[r].creator in s.procs)
    ensures Arrivals(Happen(s, Frame(ev)))
  {
    var T' := NoteEarly(s, ev);
    var procs' := s.procs[0 := Route(ev, false)];
    forall r | r in s.T
      ensures Arrived(T'[r], r, OfRequest(s.wire + [ev], r), InFlight(procs'[0], r),
                      RegisteringTurn(procs'[T'[r].creator], r), r in s.turns)
    {
      assert ArrivalOk(r, s);
      FrameArrival(s, ev, r, T'[r]);
    }
    FrameFields(s, ev);
  }

  lemma FrameFields(s: State, ev: Event)
    requires CanHappen(s, Frame(ev))
    ensures var s' := Happen(s, Frame(ev));
      && s'.procs == s.procs[0 := Route(ev, false)] && s'.T == NoteEarly(s, ev) && s'.P == s.P
      && s'.wire == s.wire + [ev] && SameClient(s, s')
  {
  }

  lemma OldArrival(r: Rid, s: State, s': State, g: Gid, pc': Pc)
    requires ArrivalOk(r, s) && r in s'.T && SameCore(s.T[r], s'.T[r]) && s'.T[r].early == s.T[r].early
    requires s'.procs == s.procs[g := pc'] && s'.wire == s.wire && s'.turns == s.turns
    requires InFlight(s'.procs[0], r) == InFlight(s.procs[0], r)
    requires RegisteringTurn(pc', r) ==> Stays(s.procs, g, pc')
    ensures ArrivalOk(r, s')
  {
  }

  lemma NewArrival(r: Rid, s': State, g: Gid)
    requires LastArrived(s') && r in s'.T && r !in s'.turns && g in s'.procs && IsNew(s'.T[r], g)
    requires s'.T[r].early == (OfRequest(s'.wire, r) != [])
    ensures ArrivalOk(r, s')
  {
    if s'.procs[0].Route? {
      var rest := s'.wire[..|s'.wire| - 1];
      assert s'.wire == rest + [s'.procs[0].ev];
      OfRequestLast(rest, s'.procs[0].ev, r);
    }
  }

  /** Nothing new on the wire, and the dispatcher still routes the same event. */
  lemma ExtendKeepsArrivals(s: State, s': State, g: Gid, pc': Pc)
    requires Extends(s, s', g, pc') && Arrivals(s) && s'.wire == s.wire && s.turns <= s.T.Keys
    requires forall r :: r in s'.T ==>
      s'.T[r].early == if r in s.T then s.T[r].early else OfRequest(s.wire, r) != []
    requires pc'.Route? ==> Stays(s.procs, g, pc')
    requires g == 0 && s.procs[0].Route? ==> Stays(s.procs, g, pc')
    requires Registering(pc') && pc'.r in s.T ==> Stays(s.procs, g, pc')
    ensures Arrivals(s')
  {
    forall r | r in s'.T ensures ArrivalOk(r, s') {
      if r in s.T {
        assert ArrivalOk(r, s);
        OldArrival(r, s, s', g, pc');
      } else {
        NewArrival(r, s', g);
      }
    }
  }

  // ----- every event of the environment extends the state in this sense

  function Actor(e: Env): Gid {
    match e
    case CallSend(g, _, _) => g
    case CallRequest(g, _) => g
    case CallClose(g, _) => g
    case CallWait(g, _) => g
    case Fire(g, _) => g
    case _ => 0
  }

  function Opens(s: State, e: Env): Pc
    requires 0 in s.procs
  {
    match e
    case Frame(ev) => Route(ev, false)
    case Hangup(reason) => FailAll(Shutdown(reason), false)
    case CallSend(_, r, _) => SendMessage(r, RegisterWait)
    case CallRequest(_, r) => Request(r, EnrolWait)
    case CallClose(_, reason) => FailAll(Shutdown(reason), false)
    case CallWait(_, r) => Wait(r, OnSettled)
    case Fire(_, r) => Finish(r, Outcome(None, Some(TurnTimeout(r))), ToHalt, RecordWait)
    case Consume(_) => s.procs[0]
  }

  lemma CallExtends(s: State, e: Env)
    requires CanHappen(s, e) && 0 in s.procs && (e.CallSend? || e.CallRequest? || e.CallClose? || e.CallWait?)
    ensures Extends(s, Happen(s, e), Actor(e), Opens(s, e)) && Happen(s, e).wire == s.wire
  {
  }

  lemma FrameExtends(s: State, ev: Event)
    requires CanHappen(s, Frame(ev))
    ensures Extends(s, Happen(s, Frame(ev)), 0, Route(ev, false))
  {
    FrameFields(s, ev);
  }

  lemma ConsumeExtends(s: State, r: Rid)
    requires CanHappen(s, Consume(r)) && 0 in s.procs
    ensures Extends(s, Happen(s, Consume(r)), 0, s.procs[0]) && Happen(s, Consume(r)).wire == s.wire
  {
    var t := s.T[r];
    assert t.read + [t.buf[0]] + t.buf[1..] == t.read + t.buf;
    assert s.procs[0 := s.procs[0]] == s.procs;
  }

  lemma HangupExtends(s: State, e: Env)
    requires CanHappen(s, e) && 0 in s.procs && e.Hangup?
    ensures Extends(s, Happen(s, e), 0, Opens(s, e)) && Happen(s, e).wire == s.wire
  {
  }

  lemma FireFields(s: State, e: Env)
    requires CanHappen(s, e) && e.Fire? && 0 in s.procs
    ensures var s' := Happen(s, e);
      && s'.procs == s.procs[e.g := Opens(s, e)] && s'.T == s.T[e.r := s.T[e.r].(armed := false)]
      && s'.P == s.P && s'.wire == s.wire && SameClient(s, s')
  {
  }

  lemma FireExtends(s: State, e: Env)
    requires CanHappen(s, e) && 0 in s.procs && e.Fire?
    ensures Extends(s, Happen(s, e), e.g, Opens(s, e)) && Happen(s, e).wire == s.wire
  {
    FireFields(s, e);
  }

  /** The ids the event adds, and who made them. */
  predicate Adds(s: State, e: Env, s': State) {
    && s'.T.Keys == s.T.Keys + (if e.CallSend? then {e.r} else {})
    && s'.P.Keys == s.P.Keys + (if e.CallRequest? then {e.r} else {})
    && (e.CallSend? ==> s'.T[e.r].creator == e.g) && (e.CallRequest? ==> s'.P[e.r].creator == e.g)
  }

  lemma HappenAdds(s: State, e: Env)
    requires CanHappen(s, e)
    ensures Adds(s, e, Happen(s, e))
  {
  }

  lemma HappenEarly(s: State, e: Env)
    requires CanHappen(s, e) && !e.Frame?
    ensures var s' := Happen(s, e);
      forall r :: r in s'.T ==> s'.T[r].early == if r in s.T then s.T[r].early else OfRequest(s.wire, r) != []
  {
  }

  /** What a goroutine may be doing right after the environment's event. */
  predicate Opening(s: State, s': State, g: Gid, pc': Pc) {
    && s'.T.Keys !! s'.P.Keys && "" !in s'.T && ProcRole(g, pc', s.failer, s'.T, s'.P)
    && (forall r :: r in s'.T && r !in s.T ==> r in DutyOf(pc'))
    && H.OwnOutcome(pc')
    && (Stays(s.procs, g, pc') ||
        (&& !HoldsClient(pc') && MuOf(pc').None? && SendMuOf(pc').None?
         && StageOf(pc').NoStage? && !Reading(pc') && !pc'.Push? && H.ViewOf(pc').Idle?
         && (pc'.Finish? ==> OutcomeOk(pc'.o))
         && (R.ViewOf(pc').Unconcerned? ||
             (R.ViewOf(pc').Enrolling? && R.ViewOf(pc').r in s'.P && R.ViewOf(pc').r !in s.P))))
  }

  /** A reader moves no goroutine. */
  lemma OpeningStays(s: State, e: Env, s': State)
    requires e.Consume? && Adds(s, e, s') && TurnsExtend(s.T, s'.T, 0) && RequestsExtend(s.P, s'.P, 0)
    requires Globals(s) && ProcRole(0, s.procs[0], s.failer, s.T, s.P) && H.OwnOutcome(s.procs[0])
    ensures Opening(s, s', 0, s.procs[0])
  {
    ProcRoleFrame(0, s.procs[0], s.failer, s.T, s.P, s.failer, s'.T, s'.P);
  }

  lemma OpeningFits(s: State, e: Env, s': State)
    requires CanHappen(s, e) && !e.Consume? && Adds(s, e, s') && Globals(s)
    ensures Opening(s, s', Actor(e), Opens(s, e))
  {
    assert DutyOf(SendMessage(if e.CallSend? then e.r else "", RegisterWait)) == {if e.CallSend? then e.r else ""};
  }

  lemma ExtendKeepsCore(s: State, s': State, g: Gid, pc': Pc)
    requires Inv(s) && Extends(s, s', g, pc') && Opening(s, s', g, pc')
    ensures Locks(s') && Settle(s'.procs, s'.T) && Roles(s') && SafeSends(s'.procs, s'.T)
    ensures R.RequestsHold(s') && Duties(s')
  {
    ExtendKeepsLocks(s, s', g, pc');
    ExtendKeepsSettle(s, s', g, pc');
    ExtendKeepsRoles(s, s', g, pc');
    ExtendKeepsSafeSends(s, s', g, pc');
    ExtendKeepsRequests(s, s', g, pc');
    ExtendKeepsDuties(s, s', g, pc');
  }

  lemma ExtendKeepsFlow(s: State, s': State, g: Gid, pc': Pc)
    requires Inv(s) && Extends(s, s', g, pc') && Opening(s, s', g, pc')
    ensures H.OwnOutcomes(s') && H.Histories(s'.T, H.ViewOf(s'.procs[0])) && !s'.panicked
  {
    ExtendKeepsOwnOutcomes(s, s', g, pc');
    ExtendKeepsHistories(s, s', g, pc');
  }

  lemma HappenExtends(s: State, e: Env)
    requires CanHappen(s, e) && 0 in s.procs
    ensures Extends(s, Happen(s, e), Actor(e), Opens(s, e)) && (!e.Frame? ==> Happen(s, e).wire == s.wire)
  {
    if e.Frame? { FrameExtends(s, e.ev); }
    else if e.Consume? { ConsumeExtends(s, e.r); }
    else if e.Hangup? { HangupExtends(s, e); }
    else if e.Fire? { FireExtends(s, e); }
    else { CallExtends(s, e); }
  }

  lemma HappenKeepsArrivals(s: State, e: Env)
    requires CanHappen(s, e) && Arrivals(s) && Roles(s)
    ensures Arrivals(Happen(s, e))
  {
    if e.Frame? {
      FrameKeepsArrivals(s, e.ev);
    } else {
      HappenEarly(s, e);
      HappenExtends(s, e);
      ExtendKeepsArrivals(s, Happen(s, e), Actor(e), Opens(s, e));
    }
  }

  lemma HappenKeepsInv(s: State, e: Env)
    requires CanHappen(s, e) && Inv(s)
    ensures Inv(Happen(s, e))
  {
    HappenExtends(s, e);
    assert ProcRole(0, s.procs[0], s.failer, s.T, s.P) && H.OwnOutcome(s.procs[0]);
    HappenAdds(s, e);
    if e.Consume? { OpeningStays(s, e, Happen(s, e)); } else { OpeningFits(s, e, Happen(s, e)); }
    ExtendKeepsCore(s, Happen(s, e), Actor(e), Opens(s, e));
    ExtendKeepsFlow(s, Happen(s, e), Actor(e), Opens(s, e));
    HappenKeepsArrivals(s, e);
  }
}
