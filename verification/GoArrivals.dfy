/** What reaches a turn: once registered, every event that carries its id, in the order of the wire. */
module GoArrivals {
  import opened Wire
  import opened GoClient
  import opened GoRoles

  /** The event the dispatcher has taken off the wire but not routed yet. */
  function Routing(pc: Pc): seq<Event> { if pc.Route? then [pc.ev] else [] }

  /** That event, if it belongs to `r`. */
  function InFlight(pc: Pc, r: Rid): seq<Event> { if pc.Route? && pc.ev.rid == r then [pc.ev] else [] }

  predicate RegisteringTurn(pc: Pc, r: Rid) { Registering(pc) && pc.r == r }

  /** `seen` is what the wire carried for `r` and the dispatcher has dealt with. */
  predicate Arrived(t: Turn, r: Rid, all: seq<Event>, flight: seq<Event>, registering: bool, listed: bool) {
    && |flight| <= |all| && all[|all| - |flight|..] == flight
    && var seen := all[..|all| - |flight|];
    && (!t.early ==> t.routed <= seen)
    && (!t.early && listed ==> t.routed == seen)
    && (registering ==> !listed && t.routed == [] && (!t.early ==> all == []))
  }

  predicate ArrivalOk(r: Rid, s: State) {
    && r in s.T && 0 in s.procs && s.T[r].creator in s.procs
    && Arrived(s.T[r], r, OfRequest(s.wire, r), InFlight(s.procs[0], r),
               RegisteringTurn(s.procs[s.T[r].creator], r), r in s.turns)
  }

  /** The event being routed is the last one that came in. */
  predicate LastArrived(s: State) {
    && 0 in s.procs
    && (s.procs[0].Route? ==> s.wire != [] && s.wire[|s.wire| - 1] == s.procs[0].ev)
  }

  ghost predicate Arrivals(s: State) { LastArrived(s) && forall r :: r in s.T ==> ArrivalOk(r, s) }

  predicate ArrivalDiscipline(s: State, g: Gid, op: Op, pc': Pc)
    requires g in s.procs
  {
    var pc := s.procs[g];
    && (Registering(pc') ==> Registering(pc) && pc'.r == pc.r)
    && (op.Register? ==> op.r in s.T && RegisteringTurn(pc, op.r) && !Registering(pc') && s.T[op.r].creator == g)
    && (op.Deliver? ==> g == 0 && pc.Route? && pc.ev == op.ev && op.ev.rid == op.r && op.r in s.turns)
    && (g == 0 && !op.Deliver? ==>
          Routing(pc') == Routing(pc) || (Routing(pc') == [] && pc.Route? && pc.ev.rid !in s.turns))
    && (g == 0 && op.Deliver? ==> Routing(pc') == [])
    && (g != 0 ==> !pc.Route? && !pc'.Route?)
  }

  lemma TurnDoArrivals(t: Turn, g: Gid, op: Op)
    ensures TurnDo(t, g, op).early == t.early
    ensures TurnDo(t, g, op).creator == t.creator
    ensures op.Deliver? ==> TurnDo(t, g, op).routed == t.routed + [op.ev]
    ensures !op.Deliver? ==> TurnDo(t, g, op).routed == t.routed
  {
  }

  /** The event in flight is delivered to the turn. */
  lemma ArrivalDelivered(t: Turn, t': Turn, r: Rid, all: seq<Event>, ev: Event, registering: bool)
    requires Arrived(t, r, all, [ev], registering, true) && t'.early == t.early && t'.routed == t.routed + [ev]
    ensures Arrived(t', r, all, [], registering, true)
  {
    assert all == all[..|all| - 1] + [ev];
    assert all[..|all| - 0] == all;
  }

  /** The event in flight, if any, goes elsewhere, or nothing happens to it. */
  lemma ArrivalPassed(t: Turn, t': Turn, r: Rid, all: seq<Event>, flight: seq<Event>, flight': seq<Event>,
                      registering: bool, registering': bool, listed: bool, listed': bool)
    requires Arrived(t, r, all, flight, registering, listed) && t'.early == t.early && t'.routed == t.routed
    requires flight' == flight || (flight' == [] && |flight| == 1 && !listed && !listed')
    requires registering' ==> registering
    requires listed' == listed || !listed' || (registering && !registering' && flight' == flight)
    requires registering' ==> listed' == listed
    ensures Arrived(t', r, all, flight', registering', listed')
  {
    assert all[..|all| - |flight|] <= all[..|all| - |flight'|];
  }

  /** What becomes of the event in flight, when it is not delivered to `r`. */
  lemma FlightMoves(s: State, g: Gid, op: Op, pc': Pc, r: Rid)
    requires g in s.procs && 0 in s.procs && ArrivalDiscipline(s, g, op, pc') && !(op.Deliver? && op.r == r)
    ensures var flight, flight' := InFlight(s.procs[0], r), InFlight(s.procs[g := pc'][0], r);
      flight' == flight || (flight' == [] && |flight| == 1 && r !in s.turns && r !in TurnsDo(s.turns, op))
  {
    assert op.Register? ==> Registering(s.procs[g]);
  }

  /** What becomes of the registration. */
  lemma RegistrationMoves(s: State, g: Gid, op: Op, pc': Pc, r: Rid)
    requires g in s.procs && r in s.T && s.T[r].creator in s.procs && ArrivalDiscipline(s, g, op, pc')
    requires RegisteringTurn(s.procs[s.T[r].creator], r) ==> r !in s.turns
    ensures var q, listed, listed' := s.T[r].creator, r in s.turns, r in TurnsDo(s.turns, op);
      var registering, registering' := RegisteringTurn(s.procs[q], r), RegisteringTurn(s.procs[g := pc'][q], r);
      && (registering' ==> registering && listed' == listed)
      && (listed' == listed || !listed' || (registering && !registering' && op.Register?))
  {
    if op == Register(r) { assert s.T[r].creator == g; }
  }

  lemma ArrivalStep(s: State, g: Gid, op: Op, pc': Pc, r: Rid, t': Turn)
    requires ArrivalOk(r, s) && g in s.procs && ArrivalDiscipline(s, g, op, pc') && Ready(s, op)
    requires t'.early == s.T[r].early && t'.creator == s.T[r].creator
    requires t'.routed == if op.Deliver? && op.r == r then s.T[r].routed + [op.ev] else s.T[r].routed
    ensures var procs' := s.procs[g := pc'];
      Arrived(t', r, OfRequest(s.wire, r), InFlight(procs'[0], r),
              RegisteringTurn(procs'[t'.creator], r), r in TurnsDo(s.turns, op))
  {
    var procs', all := s.procs[g := pc'], OfRequest(s.wire, r);
    var registering, registering' := RegisteringTurn(s.procs[t'.creator], r), RegisteringTurn(procs'[t'.creator], r);
    RegistrationMoves(s, g, op, pc', r);
    if op.Deliver? && op.r == r {
      ArrivalDelivered(s.T[r], t', r, all, op.ev, registering);
    } else {
      FlightMoves(s, g, op, pc', r);
      ArrivalPassed(s.T[r], t', r, all, InFlight(s.procs[0], r), InFlight(procs'[0], r), registering, registering', r in s.turns, r in TurnsDo(s.turns, op));
    }
  }

  lemma TurnAfter(s: State, g: Gid, op: Op, pc': Pc, r: Rid)
    requires Ready(s, op) && r in s.T
    ensures var s' := Do(s, g, op, pc');
      && r in s'.T && s'.T[r].early == s.T[r].early && s'.T[r].creator == s.T[r].creator
      && s'.T[r].routed == if op.Deliver? && op.r == r then s.T[r].routed + [op.ev] else s.T[r].routed
  {
    TurnDoArrivals(s.T[r], g, op);
  }

  lemma StillArrives(s: State, g: Gid, op: Op, pc': Pc, s': State, r: Rid)
    requires ArrivalOk(r, s) && g in s.procs && ArrivalDiscipline(s, g, op, pc') && Ready(s, op)
    requires s'.procs == s.procs[g := pc'] && s'.wire == s.wire && s'.turns == TurnsDo(s.turns, op) && r in s'.T
    requires s'.T[r].early == s.T[r].early && s'.T[r].creator == s.T[r].creator
    requires s'.T[r].routed == if op.Deliver? && op.r == r then s.T[r].routed + [op.ev] else s.T[r].routed
    ensures ArrivalOk(r, s')
  {
    ArrivalStep(s, g, op, pc', r, s'.T[r]);
  }

  lemma ActKeepsArrivals(s: State, g: Gid, op: Op, pc': Pc)
    requires Arrivals(s) && g in s.procs && Ready(s, op) && ArrivalDiscipline(s, g, op, pc')
    ensures Arrivals(Do(s, g, op, pc'))
  {
    var s' := Do(s, g, op, pc');
    DoKeepsTurns(s, g, op, pc');
    forall r | r in s'.T ensures ArrivalOk(r, s') {
      assert ArrivalOk(r, s);
      TurnAfter(s, g, op, pc', r);
      StillArrives(s, g, op, pc', s', r);
    }
  }

  /** Programs that neither register nor deliver and stay out of the way of frames. */
  lemma QuietArrivals(s: State, g: Gid, op: Op, pc': Pc)
    requires g in s.procs && !s.procs[g].Route? && !pc'.Route? && !Registering(pc') && !op.Register? && !op.Deliver?
    ensures ArrivalDiscipline(s, g, op, pc')
  {
  }

  lemma FinishArrivals(s: State, pc: Pc, a: Act)
    requires pc.Finish? && FinishProg(s, pc.r, pc.o, pc.k, pc.finAt) == Some(a)
    ensures !a.then_.Route? && !Registering(a.then_) && !a.op.Register? && !a.op.Deliver?
  {
  }

  lemma PushArrivals(s: State, pc: Pc, c: Choice, a: Act)
    requires pc.Push? && PushProg(s, pc.r, pc.ev, pc.pushAt, c) == Some(a)
    ensures !a.then_.Route? && !Registering(a.then_) && !a.op.Register? && !a.op.Deliver?
  {
  }

  lemma CallArrivals(s: State, pc: Pc, c: Choice, a: Act)
    requires Prog(s, pc, c) == Some(a)
    requires pc.Reply? || pc.FailAll? || pc.FailPending? || pc.FailTurns? || pc.Request? || pc.Wait?
    ensures !a.then_.Route? && !Registering(a.then_) && !a.op.Register? && !a.op.Deliver?
  {
  }

  lemma RouteArrivals(s: State, a: Act)
    requires 0 in s.procs && s.procs[0].Route? && RouteProg(s, s.procs[0].ev, s.procs[0].held) == Some(a) && "" !in s.turns
    ensures ArrivalDiscipline(s, 0, a.op, a.then_)
  {
  }

  lemma SendArrivals(s: State, g: Gid, c: Choice, a: Act)
    requires g in s.procs && s.procs[g].SendMessage? && SendProg(s, s.procs[g].r, s.procs[g].sendAt, c) == Some(a)
    requires s.procs[g].r in s.T && s.T[s.procs[g].r].creator == g
    ensures ArrivalDiscipline(s, g, a.op, a.then_)
  {
  }

  lemma ProgArrivalDiscipline(s: State, g: Gid, c: Choice, a: Act)
    requires g in s.procs && Prog(s, s.procs[g], c) == Some(a)
    requires ProcRole(g, s.procs[g], s.failer, s.T, s.P) && Globals(s)
    ensures ArrivalDiscipline(s, g, a.op, a.then_)
  {
    var pc := s.procs[g];
    match pc
    case Route(_, _) => RouteArrivals(s, a);
    case SendMessage(_, _) => SendArrivals(s, g, c, a);
    case Finish(_, _, _, _) => FinishArrivals(s, pc, a); QuietArrivals(s, g, a.op, a.then_);
    case Push(_, _, _) => PushArrivals(s, pc, c, a); QuietArrivals(s, g, a.op, a.then_);
    case _ => CallArrivals(s, pc, c, a); QuietArrivals(s, g, a.op, a.then_);
  }
}
