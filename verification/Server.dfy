/**
 * The .NET server's frame dispatcher and turn runner. Everything outside them (the store's failures,
 * retrieval, the reranker, the agent's stream and fresh identifiers) is an arbitrary `Env`.
 */
module Server {
  import opened Wire
  import opened SessionStore
  import Acl

  const AUTO_CONTEXT_LIMIT := 3
  const RERANK_CANDIDATE_POOL := 15
  const MAX_PRIOR_MESSAGES := 50
  const CITATION_SNIPPET_MAX_CHARS := 280

  // ----- what comes in

  /** A property of the frame: missing or null, a string, or something whose read as a string throws. */
  datatype Field = Absent | Text(text: string) | Other

  datatype Frame =
    | BadJson
    | NotObject
    | Object(action: Field, requestId: Field, sessionId: Field, message: Field, agentId: Field, userName: Field, userEmail: Field)

  /** `args` is `None` when the arguments cannot be serialized. */
  datatype Content =
    | FunctionCall(callId: string, name: string, args: Option<string>)
    | FunctionResult(callId: string, result: string)
    | OtherContent

  datatype Update = Update(text: string, contents: seq<Content>)

  /** The agent's stream: the updates it yields, and whether it then throws. */
  datatype Script = Script(updates: seq<Update>, breaks: bool)

  datatype Prior = Prior(fromAssistant: bool, text: string)

  datatype Rerank = NoReranker | RerankFails | Reranked(hits: seq<Acl.Hit>)

  datatype Retrieval = NoKnowledge | QueryFails | Found(candidates: seq<Acl.Hit>, rerank: Rerank)

  datatype Env = Env(
    guid: string, sessionFails: bool, newSessionId: string, newConversationId: string, newAgentId: string,
    retrieval: Retrieval, listFails: bool, inboundFails: bool, inboundId: string,
    agent: (seq<Prior>, string) -> Script, outboundFails: bool, outboundId: string)

  // ----- the stream of a turn, item by item

  datatype Item = Delta(text: string) | Part(content: Content)

  function Contents(cs: seq<Content>): (r: seq<Item>)
    ensures |r| == |cs| && forall i :: 0 <= i < |cs| ==> r[i] == Part(cs[i])
  {
    seq(|cs|, i requires 0 <= i < |cs| => Part(cs[i]))
  }

  /** An update's text, when it has any, comes before its contents. */
  function Items(updates: seq<Update>): seq<Item> {
    if updates == [] then []
    else (if updates[0].text == "" then [] else [Delta(updates[0].text)]) + Contents(updates[0].contents) + Items(updates[1..])
  }

  predicate Calls(it: Item, id: string) { it.Part? && it.content.FunctionCall? && it.content.callId == id }

  /** One of the first `n` items calls the id. */
  predicate CalledIn(items: seq<Item>, n: nat, id: string)
    requires n <= |items|
  {
    exists j {:trigger Calls(items[j], id)} :: 0 <= j < n && Calls(items[j], id)
  }

  /** Item `i` is the first call with its id. */
  predicate Opens(items: seq<Item>, i: nat)
    requires i < |items|
  {
    items[i].Part? && items[i].content.FunctionCall? && !CalledIn(items, i, items[i].content.callId)
  }

  /** The name of the first call with the id, or "tool". */
  function LabelOf(items: seq<Item>, id: string): string {
    if items == [] then "tool" else if Calls(items[0], id) then items[0].content.name else LabelOf(items[1..], id)
  }

  predicate StartsWith(s: string, p: string) { p <= s }

  predicate IsError(result: string): (flagged: bool)
    ensures flagged <==> (|result| >= 6 && result[..6] == "Error:") || (|result| >= 16 && result[..16] == "Denied by human:")
  {
    StartsWith(result, "Error:") || StartsWith(result, "Denied by human:")
  }

  /** Announcing item `i` throws: its arguments cannot be serialized. */
  predicate Throws(items: seq<Item>, i: nat)
    requires i < |items|
  {
    Opens(items, i) && items[i].content.args.None?
  }

  /** None of the first `n` items throws. */
  predicate Smooth(items: seq<Item>, n: nat)
    requires n <= |items|
  {
    forall j :: 0 <= j < n ==> !Throws(items, j)
  }

  /** What item `i` puts on the wire. */
  function BodyOf(items: seq<Item>, i: nat): seq<Body>
    requires i < |items| && !Throws(items, i)
  {
    match items[i]
    case Delta(text) => [StreamToken(text)]
    case Part(FunctionCall(id, name, args)) => if Opens(items, i) then [StreamChunk(name, ToolCall(name, args.value))] else []
    case Part(FunctionResult(id, result)) =>
      var name := LabelOf(items[..i], id);
      [StreamChunk(name, ToolResult(name, IsError(result), result))]
    case Part(OtherContent) => []
  }

  /** The first item from `i` on that throws, or the number of items. */
  function StopFrom(items: seq<Item>, i: nat): (n: nat)
    requires i <= |items|
    ensures i <= n <= |items|
    ensures forall j :: i <= j < n ==> !Throws(items, j)
    ensures i == 0 ==> Smooth(items, n)
    ensures n < |items| ==> Throws(items, n)
    decreases |items| - i
  {
    if i == |items| || Throws(items, i) then i else StopFrom(items, i + 1)
  }

  function Bodies(items: seq<Item>, n: nat): seq<Body>
    requires n <= |items| && Smooth(items, n)
  {
    if n == 0 then [] else Bodies(items, n - 1) + BodyOf(items, n - 1)
  }

  /** All the text of the items. */
  function TextOf(items: seq<Item>): string {
    if items == [] then "" else TextOf(items[..|items| - 1]) + if items[|items| - 1].Delta? then items[|items| - 1].text else ""
  }

  // ----- citations and history

  function Take<T>(s: seq<T>, n: nat): seq<T> { if n < |s| then s[..n] else s }

  function Hits(candidates: seq<Acl.Hit>, rerank: Rerank): seq<Acl.Hit> {
    if rerank.Reranked? then rerank.hits else Take(candidates, AUTO_CONTEXT_LIMIT)
  }

  function Truncate(value: string, max: nat): string { if |value| <= max then value else value[..max] }

  /** A link is given for web sources alone, the score is the hit's, and the snippet is as much text as fits. */
  function CitationOf(hit: Acl.Hit): (c: Citation)
    ensures c.id == hit.documentId && c.title == hit.source && c.score == hit.score
    ensures c.url.Some? <==> (|hit.source| >= 7 && hit.source[..7] == "http://") || (|hit.source| >= 8 && hit.source[..8] == "https://")
    ensures c.url.Some? ==> c.url.value == hit.source
    ensures c.snippet <= hit.chunk && |c.snippet| == if |hit.chunk| <= 280 then |hit.chunk| else 280
  {
    Citation(
      hit.documentId, hit.source,
      if StartsWith(hit.source, "http://") || StartsWith(hit.source, "https://") then Some(hit.source) else None,
      Truncate(hit.chunk, CITATION_SNIPPET_MAX_CHARS), hit.score)
  }

  function Citations(hits: seq<Acl.Hit>): (r: seq<Citation>)
    ensures |r| == |hits| && forall i :: 0 <= i < |hits| ==> r[i] == CitationOf(hits[i])
  {
    seq(|hits|, i requires 0 <= i < |hits| => CitationOf(hits[i]))
  }

  function PriorOf(m: StoredMessage): Prior { Prior(m.direction.Outbound?, m.text) }

  /** The conversation so far, as the agent is given it. */
  function Replay(messages: seq<StoredMessage>): (r: seq<Prior>)
    ensures |r| == |messages| && forall i :: 0 <= i < |messages| ==> r[i] == PriorOf(messages[i])
  {
    seq(|messages|, i requires 0 <= i < |messages| => PriorOf(messages[i]))
  }

  // ----- one turn

  /** A turn's events, the store after it, and its result when nothing threw. */
  datatype TurnRun = TurnRun(bodies: seq<Body>, store: Store, result: Option<TurnResult>)

  datatype TurnResult = TurnResult(reply: string, messageId: string, citations: seq<Citation>)

  /** The items the agent streams for a message. */
  function StreamOf(st: Store, conversation: string, message: string, env: Env): Script {
    env.agent(Replay(TakeLast(Log(st, conversation), MAX_PRIOR_MESSAGES)), message)
  }

  /** Retrieval and the store let the turn begin. */
  predicate TurnBegins(env: Env) { !env.retrieval.QueryFails? && !env.listFails && !env.inboundFails }

  /** Some call to announce has arguments that cannot be serialized. */
  predicate Jams(items: seq<Item>) { StopFrom(items, 0) < |items| }

  function Sources(env: Env): seq<Citation> {
    if env.retrieval.Found? then Citations(Hits(env.retrieval.candidates, env.retrieval.rerank)) else []
  }

  function InboundOf(conversation: string, message: string, env: Env): StoredMessage {
    StoredMessage(env.inboundId, conversation, Inbound, message)
  }

  function OutboundOf(conversation: string, reply: string, env: Env): StoredMessage {
    StoredMessage(env.outboundId, conversation, Outbound, reply)
  }

  function Turn(st: Store, conversation: string, message: string, env: Env): TurnRun {
    if !TurnBegins(env) then TurnRun([], st, None)
    else Answer(Logged(st, InboundOf(conversation, message, env)), conversation, StreamOf(st, conversation, message, env), env)
  }

  /** The turn once the inbound message is stored. */
  function Answer(st: Store, conversation: string, script: Script, env: Env): TurnRun {
    var items := Items(script.updates);
    var bodies, reply := Bodies(items, StopFrom(items, 0)), TextOf(items);
    if Jams(items) || script.breaks || env.outboundFails then TurnRun(bodies, st, None)
    else TurnRun(bodies, Logged(st, OutboundOf(conversation, reply, env)), Some(TurnResult(reply, env.outboundId, Sources(env))))
  }

  // ----- one frame

  /** The events of a dispatch, the store after it, and whether the dispatch itself threw. */
  datatype Dispatched = Dispatched(events: seq<Event>, store: Store, threw: bool)

  /** An absent request id is left off the event. */
  function IdOf(f: Field): string { if f.Text? then f.text else "" }

  function Error(rid: string, code: string, message: string): Event {
    Event(rid, ErrorEvent(true, ErrorInfo(code, message), None))
  }

  function InternalError(rid: string): Event { Error(rid, "INTERNAL_ERROR", "Internal error processing the request.") }

  function Labelled(rid: string, bodies: seq<Body>): (r: seq<Event>)
    ensures |r| == |bodies| && forall i :: 0 <= i < |bodies| ==> r[i] == Event(rid, bodies[i])
  {
    seq(|bodies|, i requires 0 <= i < |bodies| => Event(rid, bodies[i]))
  }

  /** The id of a turn's events: the one supplied, or a fresh one. */
  function TurnId(requestId: Field, env: Env): string { if requestId.Absent? then env.guid else IdOf(requestId) }

  function SendMessage(st: Store, f: Frame, env: Env): Dispatched
    requires f.Object?
  {
    var rid := TurnId(f.requestId, env);
    var failed := InternalError(IdOf(f.requestId));
    if f.sessionId.Other? || env.sessionFails then Dispatched([failed], st, false)
    else if IdOf(f.sessionId) !in st.sessions then Dispatched([Error(rid, "NOT_FOUND", "Session not found")], st, false)
    else if f.message.Other? then Dispatched([failed], st, false)
    else
      var run := Turn(st, st.sessions[IdOf(f.sessionId)].conversationId, IdOf(f.message), env);
      var events := [Event(rid, Immediate(202))] + Labelled(rid, run.bodies);
      Dispatched(
        events + [if run.result.None? then failed else Event(rid, Final(run.result.value))], run.store, false)
  }

  function Final(r: TurnResult): Body { Eventual(true, r.messageId, Parts([Some(r.reply)]), r.citations) }

  function CreateSession(st: Store, f: Frame, env: Env): Dispatched
    requires f.Object?
  {
    var rid := IdOf(f.requestId);
    if f.agentId.Other? || f.userName.Other? || f.userEmail.Other? || env.sessionFails then Dispatched([InternalError(rid)], st, false)
    else
      var agent := if IdOf(f.agentId) == "" then env.newAgentId else f.agentId.text;
      var session := Session(env.newSessionId, env.newConversationId, agent);
      var st' := Store(st.sessions[session.sessionId := session], st.messages[session.conversationId := []]);
      Dispatched([Event(rid, Immediate(200))], st', false)
  }

  function GetSession(st: Store, f: Frame, env: Env): Dispatched
    requires f.Object?
  {
    var rid := IdOf(f.requestId);
    if f.sessionId.Other? || env.sessionFails then Dispatched([InternalError(rid)], st, false)
    else if IdOf(f.sessionId) !in st.sessions then Dispatched([Error(rid, "NOT_FOUND", "Session not found")], st, false)
    else Dispatched([Event(rid, Immediate(200))], st, false)
  }

  function Dispatch(st: Store, f: Frame, env: Env): Dispatched {
    match f
    case BadJson => Dispatched([Error("", "VALIDATION_ERROR", "Invalid JSON frame")], st, false)
    case NotObject => Dispatched([Error("", "VALIDATION_ERROR", "Empty or non-object frame")], st, false)
    case Object(action, requestId, _, _, _, _, _) =>
      var rid := IdOf(requestId);
      if action.Other? || requestId.Other? then Dispatched([], st, true)
      else if action.Absent? then Dispatched([Error(rid, "VALIDATION_ERROR", "Missing 'action'")], st, false)
      else if action.text == "ping" then Dispatched([Event(rid, Pong)], st, false)
      else if action.text == "create_conversation_session" then CreateSession(st, f, env)
      else if action.text == "get_session" then GetSession(st, f, env)
      else if action.text == "send_message" then SendMessage(st, f, env)
      else Dispatched([Error(rid, "UNSUPPORTED_ACTION", "Unsupported action '" + action.text + "'")], st, false)
  }
}
