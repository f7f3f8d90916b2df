/** Sessions and the message log of each conversation. */
module SessionStore {
  import opened Wire

  datatype Session = Session(sessionId: string, conversationId: string, agentId: string)

  datatype Direction = Inbound | Outbound

  datatype StoredMessage = StoredMessage(id: string, conversationId: string, direction: Direction, text: string)

  /** The contents of a store. */
  datatype Store = Store(sessions: map<string, Session>, messages: map<string, seq<StoredMessage>>)

  /** The log of a conversation; one that was never written to is empty. */
  function Log(st: Store, conversation: string): seq<StoredMessage> {
    if conversation in st.messages then st.messages[conversation] else []
  }

  function Logged(st: Store, m: StoredMessage): (r: Store)
    ensures r.sessions == st.sessions
    ensures Log(r, m.conversationId) == Log(st, m.conversationId) + [m]
    ensures forall c :: c != m.conversationId ==> Log(r, c) == Log(st, c)
  {
    st.(messages := st.messages[m.conversationId := Log(st, m.conversationId) + [m]])
  }

  function TakeLast<T>(s: seq<T>, limit: int): (r: seq<T>)
    ensures |r| == (if limit <= 0 then 0 else if limit < |s| then limit else |s|)
    ensures |r| <= |s| && r == s[|s| - |r|..]
  {
    if limit <= 0 then [] else if limit < |s| then s[|s| - limit..] else s
  }

  /** Identifiers are supplied by the caller; the program draws fresh ones. */
  class InMemorySessionStore {
    var sessions: map<string, Session>
    var messages: map<string, seq<StoredMessage>>

    function View(): Store
      reads this
    {
      Store(sessions, messages)
    }

    constructor ()
      ensures View() == Store(map[], map[])
    {
      sessions, messages := map[], map[];
    }

    method CreateSession(agentId: string, sessionId: string, conversationId: string, newAgentId: string) returns (session: Session)
      modifies this
      ensures session == Session(sessionId, conversationId, if agentId == "" then newAgentId else agentId)
      ensures sessions == old(sessions)[sessionId := session]
      ensures messages == old(messages)[conversationId := []]
    {
      session := Session(sessionId, conversationId, if agentId == "" then newAgentId else agentId);
      sessions := sessions[sessionId := session];
      messages := messages[conversationId := []];
    }

    method GetSession(sessionId: string) returns (session: Option<Session>)
      ensures session.Some? <==> sessionId in sessions
      ensures session.Some? ==> session.value == sessions[sessionId]
    {
      session := if sessionId in sessions then Some(sessions[sessionId]) else None;
    }

    method AppendMessage(id: string, conversationId: string, direction: Direction, text: string) returns (message: StoredMessage)
      modifies this
      ensures message == StoredMessage(id, conversationId, direction, text)
      ensures View() == Logged(old(View()), message)
    {
      message := StoredMessage(id, conversationId, direction, text);
      if conversationId !in messages { messages := messages[conversationId := []]; }
      messages := messages[conversationId := messages[conversationId] + [message]];
    }

    /** The most recent `limit` messages, oldest first. */
    method ListMessages(conversationId: string, limit: int) returns (recent: seq<StoredMessage>)
      ensures recent == TakeLast(Log(View(), conversationId), limit)
    {
      recent := if conversationId in messages then TakeLast(messages[conversationId], limit) else [];
    }
  }
}
