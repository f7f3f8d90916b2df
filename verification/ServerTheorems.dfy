/** What a client of the .NET server can rely on: the shape of a turn's trace and what it conserves. */
module ServerTheorems {
  import opened Wire
  import opened SessionStore
  import opened Server

  // ----- the trace

  predicate Streamed(b: Body) { b.StreamToken? || b.StreamChunk? }

  predicate AllStreamed(bodies: seq<Body>) { forall i :: 0 <= i < |bodies| ==> Streamed(bodies[i]) }

  lemma {:induction false} BodiesStream(items: seq<Item>, n: nat)
    requires n <= |items| && Smooth(items, n)
    ensures AllStreamed(Bodies(items, n))
  {
    if n > 0 { BodiesStream(items, n - 1); }
  }

  /** Something in the turn throws: retrieval, the store, the agent's stream, or arguments that cannot be serialized. */
  predicate TurnFails(st: Store, conversation: string, message: string, env: Env) {
    || !TurnBegins(env) || env.outboundFails
    || StreamOf(st, conversation, message, env).breaks
    || Jams(Items(StreamOf(st, conversation, message, env).updates))
  }

  lemma AnswerStreams(st: Store, conversation: string, script: Script, env: Env)
    ensures AllStreamed(Answer(st, conversation, script, env).bodies)
  {
    var items := Items(script.updates);
    BodiesStream(items, StopFrom(items, 0));
  }

  lemma TurnStreams(st: Store, conversation: string, message: string, env: Env)
    ensures AllStreamed(Turn(st, conversation, message, env).bodies)
  {
    AnswerStreams(Logged(st, InboundOf(conversation, message, env)), conversation, StreamOf(st, conversation, message, env), env);
  }

  /** The session is there and the frame can be read. */
  predicate Accepted(st: Store, f: Frame, env: Env)
    requires f.Object?
  {
    !f.sessionId.Other? && !env.sessionFails && IdOf(f.sessionId) in st.sessions && !f.message.Other?
  }

  function ConversationOf(st: Store, f: Frame, env: Env): string
    requires f.Object? && Accepted(st, f, env)
  {
    st.sessions[IdOf(f.sessionId)].conversationId
  }

  /** One 202, then tokens and chunks, then one terminal event. */
  predicate TurnTrace(events: seq<Event>, rid: string) {
    && |events| >= 2 && events[0] == Event(rid, Immediate(202)) && Terminal(events[|events| - 1])
    && forall i :: 0 < i < |events| - 1 ==> events[i].rid == rid && Streamed(events[i].body)
  }

  lemma AcceptedIs(st: Store, f: Frame, env: Env)
    requires f.Object? && Accepted(st, f, env)
    ensures var run := Turn(st, ConversationOf(st, f, env), IdOf(f.message), env);
      SendMessage(st, f, env) == Dispatched(Framed(TurnId(f.requestId, env), run, InternalError(IdOf(f.requestId))), run.store, false)
  {
  }

  /** The events of a turn: the acknowledgement, what it streamed, and the end. */
  function Framed(rid: string, run: TurnRun, failed: Event): seq<Event> {
    [Event(rid, Immediate(202))] + Labelled(rid, run.bodies)
    + [if run.result.None? then failed else Event(rid, Final(run.result.value))]
  }

  lemma FramedTrace(rid: string, run: TurnRun, failed: Event)
    requires AllStreamed(run.bodies) && Terminal(failed)
    ensures TurnTrace(Framed(rid, run, failed), rid) && Complete(Framed(rid, run, failed))
  {
    var events, n := Framed(rid, run, failed), |run.bodies|;
    assert |events| == n + 2;
    forall i | 0 < i < n + 1 ensures events[i] == Event(rid, run.bodies[i - 1]) && Streamed(events[i].body) {}
  }

  /** An accepted message gives a whole trace, and any other a single error. */
  lemma SendTrace(st: Store, f: Frame, env: Env)
    requires f.Object?
    ensures Accepted(st, f, env) ==> TurnTrace(SendMessage(st, f, env).events, TurnId(f.requestId, env))
    ensures !Accepted(st, f, env) ==> |SendMessage(st, f, env).events| == 1 && SendMessage(st, f, env).events[0].body.ErrorEvent?
                                      && SendMessage(st, f, env).store == st
    ensures Complete(SendMessage(st, f, env).events)
  {
    if Accepted(st, f, env) {
      AcceptedIs(st, f, env);
      TurnStreams(st, ConversationOf(st, f, env), IdOf(f.message), env);
      FramedTrace(TurnId(f.requestId, env), Turn(st, ConversationOf(st, f, env), IdOf(f.message), env), InternalError(IdOf(f.requestId)));
    }
  }

  predicate IsSend(f: Frame) { f.Object? && f.action == Text("send_message") && !f.requestId.Other? }

  lemma SendIs(st: Store, f: Frame, env: Env)
    requires IsSend(f)
    ensures Dispatch(st, f, env) == SendMessage(st, f, env)
  {
    assert |"send_message"| == 12 && |"ping"| == 4 && |"get_session"| == 11 && |"create_conversation_session"| == 27;
  }

  lemma SessionFramesAnswerOnce(st: Store, f: Frame, env: Env)
    requires f.Object?
    ensures |CreateSession(st, f, env).events| == 1 && !CreateSession(st, f, env).threw
    ensures |GetSession(st, f, env).events| == 1 && !GetSession(st, f, env).threw
  {
  }

  lemma SendNeverThrows(st: Store, f: Frame, env: Env)
    requires f.Object?
    ensures !SendMessage(st, f, env).threw
  {
  }

  lemma ObjectAnswers(st: Store, f: Frame, env: Env)
    requires f.Object? && !f.action.Other? && !f.requestId.Other? && !IsSend(f)
    ensures |Dispatch(st, f, env).events| == 1 && !Dispatch(st, f, env).threw
  {
    SessionFramesAnswerOnce(st, f, env);
  }

  /** Every other frame gets one event, unless the dispatch throws and sends none. */
  lemma OneAnswer(st: Store, f: Frame, env: Env)
    ensures Dispatch(st, f, env).threw <==> f.Object? && (f.action.Other? || f.requestId.Other?)
    ensures Dispatch(st, f, env).threw ==> Dispatch(st, f, env).events == [] && Dispatch(st, f, env).store == st
    ensures !Dispatch(st, f, env).threw && !IsSend(f) ==> |Dispatch(st, f, env).events| == 1
  {
    if IsSend(f) {
      SendIs(st, f, env);
      SendNeverThrows(st, f, env);
    } else if f.Object? && !f.action.Other? && !f.requestId.Other? {
      ObjectAnswers(st, f, env);
    }
  }

  // ----- conservation

  /** The tokens of a trace, concatenated. */
  function Tokens(events: seq<Event>): string {
    if events == [] then ""
    else
      var last := events[|events| - 1].body;
      Tokens(events[..|events| - 1]) + if last.StreamToken? then last.token else ""
  }

  lemma {:induction false} TokensAppend(a: seq<Event>, b: seq<Event>)
    ensures Tokens(a + b) == Tokens(a) + Tokens(b)
    decreases |b|
  {
    if b == [] {
      assert a + b == a;
    } else {
      var n := |b| - 1;
      assert (a + b)[..|a + b| - 1] == a + b[..n];
      TokensAppend(a, b[..n]);
    }
  }

  lemma BodyTokens(rid: string, items: seq<Item>, i: nat)
    requires i < |items| && !Throws(items, i)
    ensures Tokens(Labelled(rid, BodyOf(items, i))) == if items[i].Delta? then items[i].text else ""
  {
    var es := Labelled(rid, BodyOf(items, i));
    if |es| == 1 { assert es[..0] == []; }
  }

  lemma LabelledAppend(rid: string, a: seq<Body>, b: seq<Body>)
    ensures Labelled(rid, a + b) == Labelled(rid, a) + Labelled(rid, b)
  {
  }

  lemma TokensMore(rid: string, before: seq<Body>, more: seq<Body>)
    ensures Tokens(Labelled(rid, before + more)) == Tokens(Labelled(rid, before)) + Tokens(Labelled(rid, more))
  {
    LabelledAppend(rid, before, more);
    TokensAppend(Labelled(rid, before), Labelled(rid, more));
  }

  lemma TextSnoc(items: seq<Item>, i: nat)
    requires i < |items|
    ensures TextOf(items[..i + 1]) == TextOf(items[..i]) + if items[i].Delta? then items[i].text else ""
  {
    assert items[..i + 1][..i] == items[..i];
  }

  lemma TokensWith(rid: string, before: seq<Body>, more: seq<Body>, all: seq<Body>, delta: string)
    requires all == before + more && Tokens(Labelled(rid, more)) == delta
    ensures Tokens(Labelled(rid, all)) == Tokens(Labelled(rid, before)) + delta
  {
    TokensMore(rid, before, more);
  }

  lemma BodiesSnoc(items: seq<Item>, n: nat)
    requires 0 < n <= |items| && Smooth(items, n)
    ensures Smooth(items, n - 1) && !Throws(items, n - 1) && Bodies(items, n) == Bodies(items, n - 1) + BodyOf(items, n - 1)
  {
  }

  lemma TokensStep(rid: string, items: seq<Item>, n: nat)
    requires 0 < n <= |items| && Smooth(items, n) && Smooth(items, n - 1)
    ensures Tokens(Labelled(rid, Bodies(items, n))) ==
            Tokens(Labelled(rid, Bodies(items, n - 1))) + if items[n - 1].Delta? then items[n - 1].text else ""
  {
    BodiesSnoc(items, n);
    BodyTokens(rid, items, n - 1);
    TokensWith(rid, Bodies(items, n - 1), BodyOf(items, n - 1), Bodies(items, n), if items[n - 1].Delta? then items[n - 1].text else "");
  }

  lemma {:induction false} TokensAreText(rid: string, items: seq<Item>, n: nat)
    requires n <= |items| && Smooth(items, n)
    ensures Tokens(Labelled(rid, Bodies(items, n))) == TextOf(items[..n])
  {
    if n > 0 {
      TokensAreText(rid, items, n - 1);
      TokensStep(rid, items, n);
      TextSnoc(items, n - 1);
    }
  }

  lemma AnswerTokens(st: Store, conversation: string, script: Script, env: Env, rid: string)
    requires Answer(st, conversation, script, env).result.Some?
    ensures Tokens(Labelled(rid, Answer(st, conversation, script, env).bodies)) == TextOf(Items(script.updates))
  {
    var items := Items(script.updates);
    assert StopFrom(items, 0) == |items| && items[..|items|] == items;
    TokensAreText(rid, items, |items|);
  }

  lemma Bracketed(first: Event, middle: seq<Event>, last: Event)
    requires !first.body.StreamToken? && !last.body.StreamToken?
    ensures Tokens([first] + middle + [last]) == Tokens(middle)
  {
    TokensAppend([first] + middle, [last]);
    TokensAppend([first], middle);
    assert [first][..0] == [] && [last][..0] == [];
  }

  /** What a turn that went through leaves behind: the streamed text is the stored reply and the final response. */
  predicate Answered(st: Store, f: Frame, env: Env, d: Dispatched)
    requires f.Object? && Accepted(st, f, env) && d.events != []
  {
    var conversation, reply := ConversationOf(st, f, env), Tokens(d.events);
    && d.events[|d.events| - 1] ==
       Event(TurnId(f.requestId, env), Eventual(true, env.outboundId, Parts([Some(reply)]), Sources(env)))
    && Log(d.store, conversation) ==
       Log(st, conversation) + [InboundOf(conversation, IdOf(f.message), env), OutboundOf(conversation, reply, env)]
  }

  /** What a turn that failed leaves behind: an internal error, and at most the inbound message. */
  predicate Refused(st: Store, f: Frame, env: Env, d: Dispatched)
    requires f.Object? && Accepted(st, f, env) && d.events != []
  {
    var conversation := ConversationOf(st, f, env);
    && d.events[|d.events| - 1] == InternalError(IdOf(f.requestId))
    && Log(d.store, conversation) ==
       Log(st, conversation) + if TurnBegins(env) then [InboundOf(conversation, IdOf(f.message), env)] else []
  }

  ghost predicate Untouched(st: Store, d: Dispatched, conversation: string) {
    d.store.sessions == st.sessions && forall c :: c != conversation ==> Log(d.store, c) == Log(st, c)
  }

  /** What the turn adds to the log: nothing, the question, or the question and the reply. */
  function Added(st: Store, conversation: string, message: string, env: Env): seq<StoredMessage> {
    if !TurnBegins(env) then []
    else if TurnFails(st, conversation, message, env) then [InboundOf(conversation, message, env)]
    else
      var reply := TextOf(Items(StreamOf(st, conversation, message, env).updates));
      [InboundOf(conversation, message, env), OutboundOf(conversation, reply, env)]
  }

  lemma TurnResultIs(st: Store, conversation: string, message: string, env: Env)
    ensures Turn(st, conversation, message, env).result ==
      if TurnFails(st, conversation, message, env) then None
      else Some(TurnResult(TextOf(Items(StreamOf(st, conversation, message, env).updates)), env.outboundId, Sources(env)))
  {
  }

  lemma AnswerStore(st: Store, conversation: string, script: Script, env: Env)
    ensures Answer(st, conversation, script, env).store ==
            if Jams(Items(script.updates)) || script.breaks || env.outboundFails then st
            else Logged(st, OutboundOf(conversation, TextOf(Items(script.updates)), env))
  {
  }

  lemma TurnLog(st: Store, conversation: string, message: string, env: Env)
    ensures var st' := Turn(st, conversation, message, env).store;
      && st'.sessions == st.sessions
      && Log(st', conversation) == Log(st, conversation) + Added(st, conversation, message, env)
      && forall c :: c != conversation ==> Log(st', c) == Log(st, c)
  {
    var script, st1 := StreamOf(st, conversation, message, env), Logged(st, InboundOf(conversation, message, env));
    if TurnBegins(env) {
      AnswerStore(st1, conversation, script, env);
      assert Turn(st, conversation, message, env).store == Answer(st1, conversation, script, env).store;
    }
  }

  lemma TurnTokens(st: Store, conversation: string, message: string, env: Env, rid: string)
    requires !TurnFails(st, conversation, message, env)
    ensures Tokens(Labelled(rid, Turn(st, conversation, message, env).bodies)) == TextOf(Items(StreamOf(st, conversation, message, env).updates))
  {
    AnswerTokens(Logged(st, InboundOf(conversation, message, env)), conversation, StreamOf(st, conversation, message, env), env, rid);
  }

  /** The text the agent streams for the message of a frame. */
  function ReplyTo(st: Store, f: Frame, env: Env): string
    requires f.Object? && Accepted(st, f, env)
  {
    TextOf(Items(StreamOf(st, ConversationOf(st, f, env), IdOf(f.message), env).updates))
  }

  lemma ReplyStreamed(st: Store, f: Frame, env: Env)
    requires f.Object? && Accepted(st, f, env) && !TurnFails(st, ConversationOf(st, f, env), IdOf(f.message), env)
    ensures Tokens(SendMessage(st, f, env).events) == ReplyTo(st, f, env)
  {
    AcceptedIs(st, f, env);
    var conversation, rid, message := ConversationOf(st, f, env), TurnId(f.requestId, env), IdOf(f.message);
    var run := Turn(st, conversation, message, env);
    TurnTokens(st, conversation, message, env, rid);
    TurnResultIs(st, conversation, message, env);
    Bracketed(Event(rid, Immediate(202)), Labelled(rid, run.bodies), Event(rid, Final(run.result.value)));
  }

  /** The reply is conserved from the stream to the log and to the final response. */
  lemma ReplyConserved(st: Store, f: Frame, env: Env)
    requires f.Object? && Accepted(st, f, env) && !TurnFails(st, ConversationOf(st, f, env), IdOf(f.message), env)
    ensures SendMessage(st, f, env).events != [] && Answered(st, f, env, SendMessage(st, f, env))
  {
    ReplyStreamed(st, f, env);
    AcceptedIs(st, f, env);
    TurnLog(st, ConversationOf(st, f, env), IdOf(f.message), env);
    TurnResultIs(st, ConversationOf(st, f, env), IdOf(f.message), env);
  }

  lemma FramedLast(rid: string, run: TurnRun, failed: Event)
    ensures var events := Framed(rid, run, failed);
      events != [] && events[|events| - 1] == if run.result.None? then failed else Event(rid, Final(run.result.value))
  {
  }

  /** A turn that throws ends in an internal error and keeps only the question, if it got that far. */
  lemma FailureReported(st: Store, f: Frame, env: Env)
    requires f.Object? && Accepted(st, f, env) && TurnFails(st, ConversationOf(st, f, env), IdOf(f.message), env)
    ensures SendMessage(st, f, env).events != [] && Refused(st, f, env, SendMessage(st, f, env))
  {
    AcceptedIs(st, f, env);
    TurnLog(st, ConversationOf(st, f, env), IdOf(f.message), env);
    TurnResultIs(st, ConversationOf(st, f, env), IdOf(f.message), env);
    FramedLast(TurnId(f.requestId, env), Turn(st, ConversationOf(st, f, env), IdOf(f.message), env), InternalError(IdOf(f.requestId)));
  }

  lemma OthersUntouched(st: Store, f: Frame, env: Env)
    requires f.Object? && Accepted(st, f, env)
    ensures Untouched(st, SendMessage(st, f, env), ConversationOf(st, f, env))
  {
    AcceptedIs(st, f, env);
    TurnLog(st, ConversationOf(st, f, env), IdOf(f.message), env);
  }
}
