/** The protocol events that travel from the server to a client, and what a client reads out of them. */
module Wire {

  datatype Option<+T> = None | Some(value: T)

  datatype ErrorInfo = ErrorInfo(code: string, message: string)

  /** What a tool chunk reports: the announcement of a call, or the result of one. */
  datatype ChunkState =
    | ToolCall(name: string, arguments: string)
    | ToolResult(name: string, isError: bool, result: string)

  /** The reply in a final response: absent, a string, an object with parts (`None` where one is no string), or other JSON. */
  datatype Response = NoResponse | Plain(text: string) | Parts(parts: seq<Option<string>>) | Raw(json: string)

  datatype Citation = Citation(id: string, title: string, url: Option<string>, snippet: string, score: nat)

  /** `decodes` is false when the client cannot unmarshal the payload. */
  datatype Body =
    | Pong
    | Immediate(status: int)
    | StreamToken(token: string)
    | StreamChunk(node: string, state: ChunkState)
    | Eventual(decodes: bool, messageId: string, response: Response, citations: seq<Citation>)
    | ErrorEvent(errorDecodes: bool, nested: ErrorInfo, envelope: Option<ErrorInfo>)

  /** An absent request id is the empty string, as it is once a client has parsed the frame. */
  datatype Event = Event(rid: string, body: Body)

  /** Why a turn or a request failed. */
  datatype Failure =
    | ProtocolFailure(code: string, message: string, requestId: string)
    | DecodeFailure(requestId: string)
    | TurnTimeout(requestId: string)
    | Shutdown(reason: string)
    | SendFailure(reason: string)

  predicate Terminal(ev: Event) {
    ev.body.ErrorEvent? || ev.body.Eventual?
  }

  /** Nothing before the last event is terminal. */
  predicate TerminalOnlyLast(es: seq<Event>) { forall i :: 0 <= i < |es| - 1 ==> !Terminal(es[i]) }

  /** A complete trace: one terminal event, at the end. */
  predicate Complete(trace: seq<Event>) {
    trace != [] && TerminalOnlyLast(trace) && Terminal(trace[|trace| - 1])
  }

  /** The failure carried by an error event: nested code first, then the envelope's, then a default. */
  function ProtocolErrorOf(ev: Event): Failure
    requires ev.body.ErrorEvent?
  {
    var b := ev.body;
    if b.errorDecodes && b.nested.code != "" then
      ProtocolFailure(b.nested.code, b.nested.message, ev.rid)
    else if b.errorDecodes && b.envelope.Some? && b.envelope.value.code != "" then
      ProtocolFailure(b.envelope.value.code, b.envelope.value.message, ev.rid)
    else
      ProtocolFailure("INTERNAL_ERROR", "Unknown protocol error", ev.rid)
  }

  /** What a turn records: at most one of the final response and the failure. */
  datatype Outcome = Outcome(final: Option<Event>, err: Option<Failure>)

  function OutcomeOf(ev: Event): Outcome
    requires Terminal(ev)
  {
    if ev.body.ErrorEvent? then Outcome(None, Some(ProtocolErrorOf(ev)))
    else if ev.body.decodes then Outcome(Some(ev), None)
    else Outcome(None, Some(DecodeFailure(ev.rid)))
  }

  /** True of the outcomes only an event of the turn itself can produce. */
  predicate FromEvent(o: Outcome) {
    o.final.Some? || (o.err.Some? && (o.err.value.ProtocolFailure? || o.err.value.DecodeFailure?))
  }

  /** The events of `wire` that carry request id `r`, in order. */
  function OfRequest(wire: seq<Event>, r: string): seq<Event> {
    if wire == [] then []
    else
      var rest := OfRequest(wire[..|wire| - 1], r);
      if wire[|wire| - 1].rid == r then rest + [wire[|wire| - 1]] else rest
  }
}
