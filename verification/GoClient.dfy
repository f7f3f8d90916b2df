/**
 * The Go protocol client as a state machine: every mutex acquisition, critical section, channel
 * operation and call boundary of `Client` and `MessageTurn` is one atomic step of one goroutine.
 * Goroutine 0 is the dispatch loop; every API call, timer firing and waiter is a goroutine of its own.
 */
module GoClient {
  import opened Wire

  type Gid = nat
  type Rid = string

  const CAPACITY := 64

  // ----- program counters

  /** Where `finish` returns to. */
  datatype Return = ToHalt | ToRecv | ToAborts(reason: Failure, rest: set<Rid>)

  datatype PushAt = CheckWait | CheckHeld | SendWait | SendHeld | Selecting | Sent | Dropped

  datatype FinAt =
    | RecordWait | RecordHeld | Stopping | RemoveWait | RemoveHeld
    | OnceDo | CloseWait | CloseHeld | Unlocking

  datatype SendAt =
    | RegisterWait | RegisterHeld | Transmit
    | UndoWait(cause: Failure) | UndoHeld(cause: Failure)

  datatype ReqAt = EnrolWait | EnrolHeld | Submit | Awaiting | ForgetWait | ForgetHeld

  datatype WaitAt = OnSettled | ReadWait | ReadHeld

  datatype Pc =
    | Halt
    | Recv
    | Route(ev: Event, held: bool)
    | Reply(r: Rid, ev: Event)
    | Push(r: Rid, ev: Event, pushAt: PushAt)
    | Finish(r: Rid, o: Outcome, k: Return, finAt: FinAt)
    | FailAll(e: Failure, held: bool)
    | FailPending(e: Failure, ps: set<Rid>, ts: set<Rid>)
    | FailTurns(e: Failure, ts: set<Rid>)
    | SendMessage(r: Rid, sendAt: SendAt)
    | Request(r: Rid, reqAt: ReqAt)
    | Wait(r: Rid, waitAt: WaitAt)

  // ----- state

  datatype WaitResult = WaitFailed(err: Failure) | WaitFinal(ev: Event) | WaitEmpty

  function WaitOf(o: Outcome): WaitResult {
    if o.err.Some? then WaitFailed(o.err.value)
    else if o.final.Some? then WaitFinal(o.final.value)
    else WaitEmpty
  }

  /**
   * One `MessageTurn`. The last group of fields is history: what the consumer has read, what was
   * routed here, who recorded the outcome, what `Wait` returned, and whether an event with this id
   * reached the client before the turn was registered.
   */
  datatype Turn = Turn(
    mu: Option<Gid>, sendMu: Option<Gid>,
    done: bool, outcome: Outcome, settled: bool, once: bool, closed: bool, eventsClosed: bool,
    armed: bool, buf: seq<Event>,
    creator: Gid, read: seq<Event>, routed: seq<Event>, winner: Option<Gid>,
    waits: seq<WaitResult>, early: bool)

  /** Who is responsible for answering a request. */
  datatype Owner = Requester | InMap | Dispatcher | Failer | Answered

  /** One `pendingRequest`: two channels of capacity one, and history. */
  datatype Pend = Pend(result: seq<Event>, err: seq<Failure>, owner: Owner, creator: Gid)

  datatype State = State(
    procs: map<Gid, Pc>, cmu: Option<Gid>, closed: bool, closeErr: Option<Failure>,
    doneClosed: bool, pending: set<Rid>, turns: set<Rid>,
    T: map<Rid, Turn>, P: map<Rid, Pend>,
    wire: seq<Event>, failer: Option<Gid>, panicked: bool)

  function Init(): State {
    State(map[0 := Recv], None, false, None, false, {}, {}, map[], map[], [], None, false)
  }

  // ----- atomic operations on the shared objects

  datatype Op =
    // a turn's `mu`
    | LockMu(r: Rid) | UnlockMu(r: Rid) | Record(r: Rid, o: Outcome) | ReadOutcome(r: Rid)
    // a turn's `sendMu`, channels, once and timer
    | LockSend(r: Rid) | UnlockSend(r: Rid) | SendEvent(r: Rid, ev: Event) | CloseEvents(r: Rid)
    | CloseSettled(r: Rid) | StopTimer(r: Rid)
    // the client's `mu`: acquire, or do the critical section and release
    | LockClient | UnlockClient
    | Register(r: Rid) | Deregister(r: Rid) | Deliver(r: Rid, ev: Event)
    | Enrol(r: Rid) | Withdraw(r: Rid) | Claim(r: Rid) | Shut(e: Failure)
    // the channels of a pending request
    | ReplyResult(r: Rid, ev: Event) | ReplyErr(r: Rid, e: Failure) | TakeResult(r: Rid) | TakeErr(r: Rid)
    | Nop

  /** Operations on the turn `op.r`. */
  predicate OnTurn(op: Op) {
    || op.LockMu? || op.UnlockMu? || op.Record? || op.ReadOutcome?
    || op.LockSend? || op.UnlockSend? || op.SendEvent? || op.CloseEvents?
    || op.CloseSettled? || op.StopTimer? || op.Deliver?
  }

  /** Operations on the channels or the owner of the pending request `op.r`. */
  predicate OnRequest(op: Op) {
    || op.ReplyResult? || op.ReplyErr? || op.TakeResult? || op.TakeErr?
    || op.Enrol? || op.Withdraw? || op.Claim?
  }

  /** Operations that end with `c.mu.Unlock()`. */
  predicate ReleasesClient(op: Op) {
    || op.UnlockClient? || op.Register? || op.Deregister? || op.Deliver?
    || op.Enrol? || op.Withdraw? || op.Claim? || op.Shut?
  }

  /** The operation does not block. */
  predicate Ready(s: State, op: Op) {
    && (OnTurn(op) ==> op.r in s.T)
    && (OnRequest(op) ==> op.r in s.P)
    && match op
       case LockMu(r) => s.T[r].mu.None?
       case LockSend(r) => s.T[r].sendMu.None?
       case LockClient => s.cmu.None?
       case SendEvent(r, _) => s.T[r].eventsClosed || |s.T[r].buf| < CAPACITY
       case ReplyResult(r, _) => |s.P[r].result| < 1
       case ReplyErr(r, _) => |s.P[r].err| < 1
       case TakeResult(r) => s.P[r].result != []
       case TakeErr(r) => s.P[r].err != []
       case _ => true
  }

  /** The operation is a run-time panic: a bad send, a double close, or unlocking a free mutex. */
  predicate Panics(s: State, op: Op)
    requires OnTurn(op) ==> op.r in s.T
  {
    || ((op.UnlockMu? || op.Record? || op.ReadOutcome?) && s.T[op.r].mu.None?)
    || (op.UnlockSend? && s.T[op.r].sendMu.None?)
    || (ReleasesClient(op) && s.cmu.None?)
    || ((op.SendEvent? || op.CloseEvents?) && s.T[op.r].eventsClosed)
    || (op.CloseSettled? && s.T[op.r].settled)
    || (op.Shut? && s.doneClosed)
  }

  /** The effect of an operation on a turn, field by field. */
  function TurnDo(t: Turn, g: Gid, op: Op): Turn {
    Turn(
      if op.LockMu? then Some(g) else if op.UnlockMu? || op.Record? || op.ReadOutcome? then None else t.mu,
      if op.LockSend? then Some(g) else if op.UnlockSend? then None else t.sendMu,
      t.done || op.Record?,
      if op.Record? then op.o else t.outcome,
      t.settled || op.CloseSettled?,
      t.once || op.CloseSettled?,
      t.closed || op.CloseEvents?,
      t.eventsClosed || op.CloseEvents?,
      t.armed && !op.StopTimer?,
      if op.SendEvent? then t.buf + [op.ev] else t.buf,
      t.creator,
      t.read,
      if op.Deliver? then t.routed + [op.ev] else t.routed,
      if op.Record? then Some(g) else t.winner,
      if op.ReadOutcome? then t.waits + [WaitOf(t.outcome)] else t.waits,
      t.early)
  }

  function PendDo(p: Pend, op: Op, listed: bool): Pend {
    match op
    case ReplyResult(_, ev) => p.(result := p.result + [ev], owner := Answered)
    case ReplyErr(_, e) => p.(err := p.err + [e], owner := Answered)
    case TakeResult(_) => if p.result == [] then p else p.(result := p.result[1..])
    case TakeErr(_) => if p.err == [] then p else p.(err := p.err[1..])
    case Enrol(_) => p.(owner := InMap)
    case Withdraw(_) => if listed then p.(owner := Requester) else p
    case Claim(_) => p.(owner := Dispatcher)
    case _ => p
  }

  function TurnsDo(turns: set<Rid>, op: Op): set<Rid> {
    match op
    case Register(r) => turns + {r}
    case Deregister(r) => turns - {r}
    case Shut(_) => {}
    case _ => turns
  }

  function PendingDo(pending: set<Rid>, op: Op): set<Rid> {
    match op
    case Enrol(r) => pending + {r}
    case Withdraw(r) => pending - {r}
    case Claim(r) => pending - {r}
    case Shut(_) => {}
    case _ => pending
  }

  function RequestsDo(P: map<Rid, Pend>, pending: set<Rid>, op: Op): map<Rid, Pend> {
    if op.Shut? then map r | r in P :: if r in pending then P[r].(owner := Failer) else P[r]
    else if OnRequest(op) && op.r in P then P[op.r := PendDo(P[op.r], op, op.r in pending)]
    else P
  }

  /** Goroutine `g` performs `op` and moves to `pc`. */
  function Do(s: State, g: Gid, op: Op, pc: Pc): State
    requires Ready(s, op)
  {
    State(
      s.procs[g := pc],
      if op.LockClient? then Some(g) else if ReleasesClient(op) then None else s.cmu,
      s.closed || op.Shut?,
      if op.Shut? then Some(op.e) else s.closeErr,
      s.doneClosed || op.Shut?,
      PendingDo(s.pending, op),
      TurnsDo(s.turns, op),
      if OnTurn(op) then s.T[op.r := TurnDo(s.T[op.r], g, op)] else s.T,
      RequestsDo(s.P, s.pending, op),
      s.wire,
      if op.Shut? then Some(g) else s.failer,
      s.panicked || Panics(s, op))
  }

  // ----- the programs: the operation a goroutine attempts next, and where it continues

  /** The nondeterminism of one step: which `select` branch, which map entry, whether a send worked. */
  datatype Choice = Take | Other(reason: string) | Cancel | Pick(r: Rid)

  datatype Act = Act(op: Op, then_: Pc)

  function Resume(k: Return): Pc {
    match k
    case ToHalt => Halt
    case ToRecv => Recv
    case ToAborts(e, rest) => FailTurns(e, rest)
  }

  function FinishProg(s: State, r: Rid, o: Outcome, k: Return, at: FinAt): Option<Act> {
    if r !in s.T then None else
    match at
    case RecordWait => Some(Act(LockMu(r), Finish(r, o, k, RecordHeld)))
    case RecordHeld =>
      if s.T[r].done then Some(Act(UnlockMu(r), Resume(k)))
      else Some(Act(Record(r, o), Finish(r, o, k, Stopping)))
    case Stopping => Some(Act(StopTimer(r), Finish(r, o, k, RemoveWait)))
    case RemoveWait => Some(Act(LockClient, Finish(r, o, k, RemoveHeld)))
    case RemoveHeld => Some(Act(Deregister(r), Finish(r, o, k, OnceDo)))
    case OnceDo =>
      if !s.T[r].once then Some(Act(CloseSettled(r), Finish(r, o, k, CloseWait)))
      else if s.T[r].eventsClosed then Some(Act(Nop, Resume(k)))
      else None
    case CloseWait => Some(Act(LockSend(r), Finish(r, o, k, CloseHeld)))
    case CloseHeld => Some(Act(CloseEvents(r), Finish(r, o, k, Unlocking)))
    case Unlocking => Some(Act(UnlockSend(r), Resume(k)))
  }

  function PushProg(s: State, r: Rid, ev: Event, at: PushAt, c: Choice): Option<Act> {
    if r !in s.T then None else
    match at
    case CheckWait => Some(Act(LockMu(r), Push(r, ev, CheckHeld)))
    case CheckHeld => Some(Act(UnlockMu(r), if s.T[r].done then Recv else Push(r, ev, SendWait)))
    case SendWait => Some(Act(LockSend(r), Push(r, ev, SendHeld)))
    case SendHeld =>
      if s.T[r].closed then Some(Act(UnlockSend(r), Recv)) else Some(Act(Nop, Push(r, ev, Selecting)))
    case Selecting =>
      if c.Take? then Some(Act(SendEvent(r, ev), Push(r, ev, Sent)))
      else if s.T[r].settled then Some(Act(Nop, Push(r, ev, Dropped)))
      else None
    case Sent =>
      Some(Act(UnlockSend(r), if Terminal(ev) then Finish(r, OutcomeOf(ev), ToRecv, RecordWait) else Recv))
    case Dropped => Some(Act(UnlockSend(r), Recv))
  }

  function RouteProg(s: State, ev: Event, held: bool): Option<Act> {
    if !held then Some(Act(LockClient, Route(ev, true)))
    else if ev.rid != "" && ev.rid in s.turns then Some(Act(Deliver(ev.rid, ev), Push(ev.rid, ev, CheckWait)))
    else if ev.rid != "" && ev.rid in s.pending then Some(Act(Claim(ev.rid), Reply(ev.rid, ev)))
    else Some(Act(UnlockClient, Recv))
  }

  function ReplyProg(r: Rid, ev: Event): Option<Act> {
    Some(Act(if ev.body.ErrorEvent? then ReplyErr(r, ProtocolErrorOf(ev)) else ReplyResult(r, ev), Recv))
  }

  function FailAllProg(s: State, e: Failure, held: bool): Option<Act> {
    if !held then Some(Act(LockClient, FailAll(e, true)))
    else if s.closed then Some(Act(UnlockClient, Halt))
    else Some(Act(Shut(e), FailPending(e, s.pending, s.turns)))
  }

  function FailPendingProg(e: Failure, ps: set<Rid>, ts: set<Rid>, c: Choice): Option<Act> {
    if ps == {} then Some(Act(Nop, FailTurns(e, ts)))
    else if c.Pick? && c.r in ps then Some(Act(ReplyErr(c.r, e), FailPending(e, ps - {c.r}, ts)))
    else None
  }

  function FailTurnsProg(e: Failure, ts: set<Rid>, c: Choice): Option<Act> {
    if ts == {} then Some(Act(Nop, Halt))
    else if c.Pick? && c.r in ts then
      Some(Act(Nop, Finish(c.r, Outcome(None, Some(e)), ToAborts(e, ts - {c.r}), RecordWait)))
    else None
  }

  function SendProg(s: State, r: Rid, at: SendAt, c: Choice): Option<Act> {
    match at
    case RegisterWait => Some(Act(LockClient, SendMessage(r, RegisterHeld)))
    case RegisterHeld =>
      if s.closed then Some(Act(UnlockClient, Finish(r, Outcome(None, s.closeErr), ToHalt, RecordWait)))
      else Some(Act(Register(r), SendMessage(r, Transmit)))
    case Transmit =>
      Some(Act(Nop, if c.Other? then SendMessage(r, UndoWait(SendFailure(c.reason))) else Halt))
    case UndoWait(e) => Some(Act(LockClient, SendMessage(r, UndoHeld(e))))
    case UndoHeld(e) => Some(Act(Deregister(r), Finish(r, Outcome(None, Some(e)), ToHalt, RecordWait)))
  }

  function RequestProg(s: State, r: Rid, at: ReqAt, c: Choice): Option<Act> {
    match at
    case EnrolWait => Some(Act(LockClient, Request(r, EnrolHeld)))
    case EnrolHeld =>
      if s.closed then Some(Act(UnlockClient, Halt)) else Some(Act(Enrol(r), Request(r, Submit)))
    case Submit => Some(Act(Nop, Request(r, if c.Other? then ForgetWait else Awaiting)))
    case Awaiting =>
      if c.Cancel? then Some(Act(Nop, Request(r, ForgetWait)))
      else if c.Take? then Some(Act(TakeResult(r), Halt))
      else if c.Other? then Some(Act(TakeErr(r), Halt))
      else None
    case ForgetWait => Some(Act(LockClient, Request(r, ForgetHeld)))
    case ForgetHeld => Some(Act(Withdraw(r), Halt))
  }

  function WaitProg(s: State, r: Rid, at: WaitAt, c: Choice): Option<Act> {
    if r !in s.T then None else
    match at
    case OnSettled =>
      if c.Cancel? then Some(Act(Nop, Halt))
      else if s.T[r].settled then Some(Act(Nop, Wait(r, ReadWait)))
      else None
    case ReadWait => Some(Act(LockMu(r), Wait(r, ReadHeld)))
    case ReadHeld => Some(Act(ReadOutcome(r), Halt))
  }

  function Prog(s: State, pc: Pc, c: Choice): Option<Act> {
    match pc
    case Halt => None
    case Recv => None
    case Route(ev, held) => RouteProg(s, ev, held)
    case Reply(r, ev) => ReplyProg(r, ev)
    case Push(r, ev, at) => PushProg(s, r, ev, at, c)
    case Finish(r, o, k, at) => FinishProg(s, r, o, k, at)
    case FailAll(e, held) => FailAllProg(s, e, held)
    case FailPending(e, ps, ts) => FailPendingProg(e, ps, ts, c)
    case FailTurns(e, ts) => FailTurnsProg(e, ts, c)
    case SendMessage(r, at) => SendProg(s, r, at, c)
    case Request(r, at) => RequestProg(s, r, at, c)
    case Wait(r, at) => WaitProg(s, r, at, c)
  }

  /** Goroutine `g` can take a step, resolving its choice as `c`. */
  predicate CanStep(s: State, g: Gid, c: Choice) {
    g in s.procs && var a := Prog(s, s.procs[g], c); a.Some? && Ready(s, a.value.op)
  }

  function Step(s: State, g: Gid, c: Choice): State
    requires CanStep(s, g, c)
  {
    var a := Prog(s, s.procs[g], c).value;
    Do(s, g, a.op, a.then_)
  }

  // ----- what the environment does

  datatype Env =
    | Frame(ev: Event)
    | Hangup(reason: string)
    | CallSend(g: Gid, r: Rid, timed: bool)
    | CallRequest(g: Gid, r: Rid)
    | CallClose(g: Gid, reason: string)
    | CallWait(g: Gid, r: Rid)
    | Fire(g: Gid, r: Rid)
    | Consume(r: Rid)

  function NewTurn(g: Gid, timed: bool): Turn {
    Turn(None, None, false, Outcome(None, None), false, false, false, false, timed, [],
         g, [], [], None, [], false)
  }

  predicate FreshRid(s: State, r: Rid) { r != "" && r !in s.T && r !in s.P }

  /** `SendMessage` has created its turn but has not put it in the map. */
  predicate Registering(pc: Pc) {
    pc.SendMessage? && (pc.sendAt.RegisterWait? || pc.sendAt.RegisterHeld?)
  }

  /** Marks a turn whose id reaches the client before the turn is registered. */
  function NoteEarly(s: State, ev: Event): map<Rid, Turn> {
    var r := ev.rid;
    if r in s.T && s.T[r].creator in s.procs && Registering(s.procs[s.T[r].creator])
       && s.procs[s.T[r].creator].r == r then s.T[r := s.T[r].(early := true)]
    else s.T
  }

  /** A goroutine starts, or the dispatcher wakes up. */
  function At(s: State, g: Gid, pc: Pc): State { s.(procs := s.procs[g := pc]) }

  function AddTurn(s: State, g: Gid, r: Rid, timed: bool): State {
    s.(T := s.T[r := NewTurn(g, timed).(early := OfRequest(s.wire, r) != [])])
  }

  function AddRequest(s: State, g: Gid, r: Rid): State { s.(P := s.P[r := Pend([], [], Requester, g)]) }

  function Arrive(s: State, ev: Event): State { s.(wire := s.wire + [ev], T := NoteEarly(s, ev)) }

  function ReadOne(t: Turn): Turn
    requires t.buf != []
  {
    t.(buf := t.buf[1..], read := t.read + [t.buf[0]])
  }

  /** The environment's event can happen. */
  predicate CanHappen(s: State, e: Env) {
    && (e.CallSend? || e.CallRequest? || e.CallClose? || e.CallWait? || e.Fire? ==> e.g !in s.procs)
    && match e
       case Frame(_) => 0 in s.procs && s.procs[0] == Recv
       case Hangup(_) => 0 in s.procs && s.procs[0] == Recv
       case CallSend(_, r, _) => FreshRid(s, r)
       case CallRequest(_, r) => FreshRid(s, r)
       case CallClose(_, _) => true
       case CallWait(_, r) => r in s.T
       case Fire(_, r) => r in s.T && s.T[r].armed
       case Consume(r) => r in s.T && s.T[r].buf != []
  }

  function Happen(s: State, e: Env): State
    requires CanHappen(s, e)
  {
    match e
    case Frame(ev) => At(Arrive(s, ev), 0, Route(ev, false))
    case Hangup(reason) => At(s, 0, FailAll(Shutdown(reason), false))
    case CallSend(g, r, timed) => At(AddTurn(s, g, r, timed), g, SendMessage(r, RegisterWait))
    case CallRequest(g, r) => At(AddRequest(s, g, r), g, Request(r, EnrolWait))
    case CallClose(g, reason) => At(s, g, FailAll(Shutdown(reason), false))
    case CallWait(g, r) => At(s, g, Wait(r, OnSettled))
    case Fire(g, r) =>
      At(s.(T := s.T[r := s.T[r].(armed := false)]), g,
         Finish(r, Outcome(None, Some(TurnTimeout(r))), ToHalt, RecordWait))
    case Consume(r) => s.(T := s.T[r := ReadOne(s.T[r])])
  }

  // ----- behaviours

  datatype Move = Proc(g: Gid, c: Choice) | External(e: Env)

  predicate Next(s: State, m: Move, s': State) {
    match m
    case Proc(g, c) => CanStep(s, g, c) && s' == Step(s, g, c)
    case External(e) => CanHappen(s, e) && s' == Happen(s, e)
  }

  predicate NextAt(ss: seq<State>, moves: seq<Move>, i: int) {
    0 <= i < |moves| && i + 1 < |ss| && Next(ss[i], moves[i], ss[i + 1])
  }

  /** `ss` is a run of the client that makes `moves`, from the state right after `Connect`. */
  predicate Run(ss: seq<State>, moves: seq<Move>) {
    && |ss| == |moves| + 1
    && ss[0] == Init()
    && forall i :: 0 <= i < |moves| ==> NextAt(ss, moves, i)
  }
}
