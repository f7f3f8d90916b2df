/** What the server answers to each kind of frame, and which sessions it answers for after any sequence of frames. */
module ServerAnswers {
  import opened Wire
  import opened SessionStore
  import opened Server
  import opened ServerTheorems
  import opened ServerRuns
  import Compaction
  import AgentEffects

  /** One error event, from which a client reads this code and message and the request's id. */
  predicate OneError(d: Dispatched, rid: string, code: string, message: string) {
    && |d.events| == 1 && !d.threw && d.events[0].body.ErrorEvent?
    && ProtocolErrorOf(d.events[0]) == ProtocolFailure(code, message, rid)
  }

  /** The frame is of this action and its id can be read. */
  predicate Asks(f: Frame, action: string) { f.Object? && f.action == Text(action) && !f.requestId.Other? }

  predicate Ping(f: Frame) { Asks(f, "ping") }

  predicate Create(f: Frame) { Asks(f, "create_conversation_session") }

  predicate Get(f: Frame) { Asks(f, "get_session") }

  predicate Readable(f: Frame)
    requires f.Object?
  {
    !f.agentId.Other? && !f.userName.Other? && !f.userEmail.Other?
  }

  /** The four actions are different words. */
  lemma ActionsDiffer()
    ensures "ping" != "create_conversation_session" && "ping" != "get_session" && "ping" != "send_message"
    ensures "create_conversation_session" != "get_session" && "create_conversation_session" != "send_message"
    ensures "get_session" != "send_message"
  {
    assert |"ping"| == 4 && |"get_session"| == 11 && |"send_message"| == 12 && |"create_conversation_session"| == 27;
  }

  /** Frames that ask nothing of a session: each is answered by one event and leaves the store alone. */
  lemma PlainAnswers(st: Store, f: Frame, env: Env)
    ensures var d := Dispatch(st, f, env);
      && (f.BadJson? ==> OneError(d, "", "VALIDATION_ERROR", "Invalid JSON frame"))
      && (f.NotObject? ==> OneError(d, "", "VALIDATION_ERROR", "Empty or non-object frame"))
      && (Ping(f) ==> d.events == [Event(IdOf(f.requestId), Pong)] && !d.threw)
      && (f.Object? && !f.requestId.Other? && f.action.Absent? ==> OneError(d, IdOf(f.requestId), "VALIDATION_ERROR", "Missing 'action'"))
      && (!Create(f) && !IsSend(f) ==> d.store == st)
  {
    ActionsDiffer();
  }

  /** An action that is none of the four is named in the refusal. */
  lemma UnsupportedAnswer(st: Store, f: Frame, env: Env)
    requires f.Object? && f.action.Text? && !f.requestId.Other?
    requires f.action.text !in {"ping", "create_conversation_session", "get_session", "send_message"}
    ensures OneError(Dispatch(st, f, env), IdOf(f.requestId), "UNSUPPORTED_ACTION", "Unsupported action '" + f.action.text + "'")
    ensures Dispatch(st, f, env).store == st
  {
  }

  /** The step creates a session. */
  predicate Creates(step: Step) { Create(step.frame) && Readable(step.frame) && !step.env.sessionFails }

  /** The agent a create frame asks for, or a fresh one. */
  predicate AgentIs(f: Frame, env: Env, agentId: string)
    requires f.Object?
  {
    match f.agentId
    case Text(name) => agentId == if name == "" then env.newAgentId else name
    case Absent => agentId == env.newAgentId
    case Other => false
  }

  /**
   * A readable create frame is answered with a 200 under its id once the session is stored with an empty
   * conversation; one that cannot be read, or a store that fails, gives an internal error and changes nothing.
   */
  lemma CreateAnswers(st: Store, f: Frame, env: Env)
    requires Create(f)
    ensures var d := Dispatch(st, f, env);
      if Creates(Step(f, env)) then
        && d.events == [Event(IdOf(f.requestId), Immediate(200))] && !d.threw
        && env.newSessionId in d.store.sessions
        && var session := d.store.sessions[env.newSessionId];
        && session.sessionId == env.newSessionId && session.conversationId == env.newConversationId
        && AgentIs(f, env, session.agentId) && Log(d.store, env.newConversationId) == []
      else
        OneError(d, IdOf(f.requestId), "INTERNAL_ERROR", "Internal error processing the request.") && d.store == st
  {
    ActionsDiffer();
  }

  /** No frame takes a session away, and only a create frame adds one, under the id it drew. */
  lemma SessionsAfter(st: Store, step: Step)
    ensures Dispatch(st, step.frame, step.env).store.sessions.Keys ==
            if Creates(step) then st.sessions.Keys + {step.env.newSessionId} else st.sessions.Keys
  {
    ActionsDiffer();
    if IsSend(step.frame) {
      SendIs(st, step.frame, step.env);
      if Accepted(st, step.frame, step.env) {
        OthersUntouched(st, step.frame, step.env);
      } else {
        RefusedAddsNothing(st, step.frame, step.env);
      }
    }
  }

  /** Some step created a session under the id. */
  ghost predicate Created(steps: seq<Step>, id: string) {
    exists k {:trigger steps[k]} :: 0 <= k < |steps| && Creates(steps[k]) && steps[k].env.newSessionId == id
  }

  /** After any frames the store has exactly the sessions that were created. */
  lemma {:induction false} SessionExistsIff(steps: seq<Step>, id: string)
    ensures id in After(steps).sessions <==> Created(steps, id)
  {
    if steps != [] {
      var n := |steps| - 1;
      SessionExistsIff(steps[..n], id);
      SessionsAfter(After(steps[..n]), steps[n]);
      AfterNext(steps);
      assert steps == steps[..n] + [steps[n]];
      assert Created(steps, id) <==> Created(steps[..n], id) || (Creates(steps[n]) && steps[n].env.newSessionId == id);
    }
  }

  /**
   * After any frames, a readable `get_session` is answered with a 200 under its id when a session was created
   * under the one it names, and with NOT_FOUND when none was.
   */
  lemma GetAnswersIff(steps: seq<Step>, g: Frame, env: Env)
    requires Get(g) && !g.sessionId.Other? && !env.sessionFails
    ensures var d := Dispatch(After(steps), g, env);
      if Created(steps, IdOf(g.sessionId)) then d.events == [Event(IdOf(g.requestId), Immediate(200))] && !d.threw
      else OneError(d, IdOf(g.requestId), "NOT_FOUND", "Session not found")
  {
    ActionsDiffer();
    SessionExistsIff(steps, IdOf(g.sessionId));
  }

  /** A session id that cannot be read, or a store that fails, gives an internal error. */
  lemma GetFails(st: Store, g: Frame, env: Env)
    requires Get(g) && (g.sessionId.Other? || env.sessionFails)
    ensures OneError(Dispatch(st, g, env), IdOf(g.requestId), "INTERNAL_ERROR", "Internal error processing the request.")
  {
    ActionsDiffer();
  }

  /** In the same way a message is refused exactly when no session was created under the id it names. */
  lemma SendFoundIff(steps: seq<Step>, f: Frame, env: Env)
    requires IsSend(f) && !f.sessionId.Other? && !env.sessionFails && !f.message.Other?
    ensures Accepted(After(steps), f, env) <==> Created(steps, IdOf(f.sessionId))
    ensures !Created(steps, IdOf(f.sessionId)) ==>
      OneError(Dispatch(After(steps), f, env), TurnId(f.requestId, env), "NOT_FOUND", "Session not found")
  {
    SessionExistsIff(steps, IdOf(f.sessionId));
    SendIs(After(steps), f, env);
  }

  // ----- the agent's words

  lemma Regroup<T>(a: seq<T>, b: seq<T>, c: seq<T>, d: seq<T>)
    ensures a + (b + c + d) == a + b + c + d
  {
  }

  /** The stream is the updates one after the other, each its text, if any, and then its contents. */
  lemma {:induction false} ItemsSnoc(updates: seq<Update>, u: Update)
    ensures Items(updates + [u]) == Items(updates) + (if u.text == "" then [] else [Delta(u.text)]) + Contents(u.contents)
  {
    var delta, more := if u.text == "" then [] else [Delta(u.text)], updates + [u];
    if updates == [] {
      assert more[1..] == [] && more[0] == u;
    } else {
      var rest, first := updates[1..], updates[0];
      assert more[0] == first && more[1..] == rest + [u];
      ItemsSnoc(rest, u);
      var head := (if first.text == "" then [] else [Delta(first.text)]) + Contents(first.contents);
      Regroup(head, Items(rest), delta, Contents(u.contents));
      assert Items(more) == head + Items(rest + [u]);
    }
  }

  /** The texts of the updates, one after the other. */
  function TextsOf(updates: seq<Update>): string {
    if updates == [] then "" else TextsOf(updates[..|updates| - 1]) + updates[|updates| - 1].text
  }

  function TextIn(it: Item): string { if it.Delta? then it.text else "" }

  lemma TextOneMore(items: seq<Item>, it: Item, all: seq<Item>)
    requires all == items + [it]
    ensures TextOf(all) == TextOf(items) + TextIn(it)
  {
    assert all[..|all| - 1] == items && all[|all| - 1] == it;
  }

  lemma Onward(a: string, b: string, t: string, ab: string, bt: string, all: string)
    requires ab == a + b && bt == b + t && all == ab + t
    ensures all == a + bt
  {
  }

  lemma {:induction false} TextAppend(a: seq<Item>, b: seq<Item>)
    ensures TextOf(a + b) == TextOf(a) + TextOf(b)
  {
    if b == [] {
      assert a + b == a;
    } else {
      var front, last := b[..|b| - 1], b[|b| - 1];
      TextAppend(a, front);
      TextOneMore(a + front, last, a + b);
      TextOneMore(front, last, b);
      Onward(TextOf(a), TextOf(front), TextIn(last), TextOf(a + front), TextOf(b), TextOf(a + b));
    }
  }

  lemma {:induction false} PartsHaveNoText(items: seq<Item>)
    requires forall i :: 0 <= i < |items| ==> items[i].Part?
    ensures TextOf(items) == ""
  {
    if items != [] { PartsHaveNoText(items[..|items| - 1]); }
  }

  lemma OneDelta(text: string)
    ensures TextOf(if text == "" then [] else [Delta(text)]) == text
  {
    assert [Delta(text)][..0] == [];
  }

  lemma {:induction false} TextsAreStreamed(updates: seq<Update>)
    ensures TextOf(Items(updates)) == TextsOf(updates)
  {
    if updates != [] {
      var front, u := updates[..|updates| - 1], updates[|updates| - 1];
      var delta := if u.text == "" then [] else [Delta(u.text)];
      assert updates == front + [u];
      TextsAreStreamed(front);
      ItemsSnoc(front, u);
      TextAppend(Items(front) + delta, Contents(u.contents));
      TextAppend(Items(front), delta);
      PartsHaveNoText(Contents(u.contents));
      OneDelta(u.text);
    }
  }

  /** The last fifty messages of a log, with who said them. */
  predicate LastSaid(log: seq<StoredMessage>, prior: seq<Prior>) {
    && |prior| == (if |log| <= 50 then |log| else 50)
    && forall i {:trigger prior[i]} :: 0 <= i < |prior| ==>
         var m := log[|log| - |prior| + i]; prior[i] == Prior(m.direction == Outbound, m.text)
  }

  lemma ToldIsLastSaid(log: seq<StoredMessage>, prior: seq<Prior>)
    requires LastSaid(log, prior)
    ensures Replay(TakeLast(log, MAX_PRIOR_MESSAGES)) == prior
  {
    var told := Replay(TakeLast(log, MAX_PRIOR_MESSAGES));
    assert forall i :: 0 <= i < |told| ==> told[i] == prior[i];
  }

  /** A turn that goes through streams what the agent says to this message after the conversation's last fifty. */
  lemma ReplyIsTheAgents(st: Store, f: Frame, env: Env, prior: seq<Prior>)
    requires f.Object? && Accepted(st, f, env) && !TurnFails(st, ConversationOf(st, f, env), IdOf(f.message), env)
    requires LastSaid(Log(st, ConversationOf(st, f, env)), prior)
    ensures Tokens(SendMessage(st, f, env).events) == TextsOf(env.agent(prior, IdOf(f.message)).updates)
  {
    ReplyStreamed(st, f, env);
    ToldIsLastSaid(Log(st, ConversationOf(st, f, env)), prior);
    TextsAreStreamed(env.agent(prior, IdOf(f.message)).updates);
  }

  // ----- citations

  /** A turn cites what the reranker chose, in its order, and otherwise its first three candidates. */
  lemma CitesInOrder(env: Env)
    requires env.retrieval.Found?
    ensures var cs, rerank := Sources(env), env.retrieval.rerank;
      var hits := if rerank.Reranked? then rerank.hits else env.retrieval.candidates;
      && |cs| <= |hits| && (|cs| < |hits| ==> |cs| == 3 && !rerank.Reranked?) && (!rerank.Reranked? ==> |cs| <= 3)
      && forall i :: 0 <= i < |cs| ==> cs[i].id == hits[i].documentId && cs[i].title == hits[i].source && cs[i].score == hits[i].score
  {
  }

  // ----- tool results

  /** The engine's own failure texts are flagged as errors; what a tool returned is, when it reads like one. */
  lemma FailuresAreFlagged(w: AgentEffects.World, call: Compaction.Content, n: nat, text: string)
    requires AgentEffects.Told(w, call, n, text) && !AgentEffects.Escapes(w, call, n)
    ensures IsError(text) <==>
      || !AgentEffects.Allowed(w, call, n)
      || var outcome := w.tools(n + |AgentEffects.EffectsOf(w, call, n)| - 1, call); outcome.ToolThrew? || IsError(outcome.value)
  {
    if !AgentEffects.Allowed(w, call, n) {
      if AgentEffects.Known(w, call) { assert "Denied by human: "[..16] == "Denied by human:"; } else { assert text[..6] == "Error:"; }
    }
  }
}
