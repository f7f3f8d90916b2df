/** The server's loops, step by step, against the functions of module Server. */
module ServerLoop {
  import opened Wire
  import opened SessionStore
  import opened Server
  import opened ServerTheorems
  import Acl

  ghost predicate Called(items: seq<Item>, id: string) { exists j :: 0 <= j < |items| && Calls(items[j], id) }

  /** `emitted` holds the ids called so far and `names` the name each was first called with. */
  ghost predicate Known(items: seq<Item>, emitted: set<string>, names: map<string, string>) {
    && names.Keys == emitted
    && forall id :: (id in emitted <==> Called(items, id)) && (id in names ==> names[id] == LabelOf(items, id))
  }

  lemma {:induction false} LabelSnoc(items: seq<Item>, it: Item, id: string)
    ensures LabelOf(items + [it], id) ==
            if Called(items, id) then LabelOf(items, id) else if Calls(it, id) then it.content.name else "tool"
    ensures !Called(items, id) ==> LabelOf(items, id) == "tool"
  {
    if items == [] {
      assert items + [it] == [it] && [it][1..] == [];
    } else {
      LabelSnoc(items[1..], it, id);
      assert (items + [it])[1..] == items[1..] + [it];
      if !Calls(items[0], id) {
        assert Called(items, id) <==> Called(items[1..], id) by {
          if Called(items, id) {
            var j :| 0 <= j < |items| && Calls(items[j], id);
            assert Calls(items[1..][j - 1], id);
          }
        }
      }
    }
  }

  lemma KnownStep(items: seq<Item>, p: nat, emitted: set<string>, names: map<string, string>)
    requires p < |items| && Known(items[..p], emitted, names)
    ensures items[p].Delta? || !items[p].content.FunctionCall? ==> Known(items[..p + 1], emitted, names)
    ensures items[p].Part? && items[p].content.FunctionCall? ==>
      var c := items[p].content;
      && (Opens(items, p) <==> c.callId !in emitted)
      && (!Opens(items, p) ==> Known(items[..p + 1], emitted, names))
      && (Opens(items, p) ==> Known(items[..p + 1], emitted + {c.callId}, names[c.callId := c.name]))
  {
    var before, it := items[..p], items[p];
    assert items[..p + 1] == before + [it];
    forall id ensures Called(before + [it], id) <==> Called(before, id) || Calls(it, id) {
      if Calls(it, id) { assert Calls((before + [it])[p], id); }
      if Called(before, id) {
        var j :| 0 <= j < |before| && Calls(before[j], id);
        assert Calls((before + [it])[j], id);
      }
    }
    forall id ensures LabelOf(before + [it], id) ==
      if Called(before, id) then LabelOf(before, id) else if Calls(it, id) then it.content.name else "tool"
    {
      LabelSnoc(before, it, id);
    }
    if it.Part? && it.content.FunctionCall? {
      assert Opens(items, p) <==> !Called(before, it.content.callId) by {
        assert forall j :: 0 <= j < p ==> before[j] == items[j];
      }
    }
  }

  /** One content of an update: announce a new call, label a result, skip the rest. */
  method Emit(content: Content, emitted: set<string>, names: map<string, string>, ghost items: seq<Item>, ghost p: nat)
    returns (out: seq<Body>, emitted': set<string>, names': map<string, string>, threw: bool)
    requires p < |items| && items[p] == Part(content) && Known(items[..p], emitted, names)
    ensures threw == Throws(items, p)
    ensures !threw ==> out == BodyOf(items, p) && Known(items[..p + 1], emitted', names')
  {
    out, emitted', names', threw := [], emitted, names, false;
    KnownStep(items, p, emitted, names);
    match content
    case FunctionCall(id, name, args) =>
      if id !in emitted {
        emitted' := emitted + {id};
        names' := names[id := name];
        if args.None? { threw := true; return; }
        out := [StreamChunk(name, ToolCall(name, args.value))];
      }
    case FunctionResult(id, result) =>
      var name := if id in names then names[id] else "tool";
      LabelSnoc(items[..p], items[p], id);
      out := [StreamChunk(name, ToolResult(name, IsError(result), result))];
    case OtherContent =>
  }

  /** Where the stream is: everything before item `p` has been played. */
  ghost predicate Played(items: seq<Item>, p: nat, bodies: seq<Body>, reply: string, emitted: set<string>, names: map<string, string>) {
    && p <= |items| && Smooth(items, p)
    && bodies == Bodies(items, p) && reply == TextOf(items[..p]) && Known(items[..p], emitted, names)
  }

  lemma StopIs(items: seq<Item>, i: nat, p: nat)
    requires i <= p <= |items| && (forall j :: i <= j < p ==> !Throws(items, j)) && (p < |items| ==> Throws(items, p))
    ensures StopFrom(items, i) == p
  {
  }

  lemma Cut<T>(s: seq<T>, p: nat, t: seq<T>, cs: seq<T>, rest: seq<T>)
    requires p <= |s| && s[p..] == t + cs + rest
    ensures var q := p + |t|; q + |cs| <= |s| && s[p..q] == t && s[q..q + |cs|] == cs && s[q + |cs|..] == rest
  {
    var all := t + cs + rest;
    assert all[..|t|] == t && all[|t|..|t| + |cs|] == cs && all[|t| + |cs|..] == rest;
  }

  lemma ItemsStep(items: seq<Item>, updates: seq<Update>, u: nat, p: nat)
    requires u < |updates| && p <= |items| && items[p..] == Items(updates[u..])
    ensures Holds(items, p, updates[u]) && items[p + Size(updates[u])..] == Items(updates[u + 1..])
  {
    var t := if updates[u].text == "" then [] else [Delta(updates[u].text)];
    assert updates[u..][1..] == updates[u + 1..];
    Cut(items, p, t, Contents(updates[u].contents), Items(updates[u + 1..]));
    assert t != [] ==> items[p] == items[p..p + |t|][0];
  }

  lemma PlayedStep(items: seq<Item>, p: nat, bodies: seq<Body>, reply: string, emitted: set<string>, names: map<string, string>, emitted': set<string>, names': map<string, string>)
    requires Played(items, p, bodies, reply, emitted, names) && p < |items| && !Throws(items, p) && Known(items[..p + 1], emitted', names')
    ensures Played(items, p + 1, bodies + BodyOf(items, p), reply + (if items[p].Delta? then items[p].text else ""), emitted', names')
  {
    TextSnoc(items, p);
  }

  /** Emits the content at `p` and plays it. */
  method EmitNext(content: Content, bodies: seq<Body>, emitted: set<string>, names: map<string, string>, ghost items: seq<Item>, ghost p: nat, ghost reply: string)
    returns (bodies': seq<Body>, emitted': set<string>, names': map<string, string>, threw: bool)
    requires Played(items, p, bodies, reply, emitted, names) && p < |items| && items[p] == Part(content)
    ensures threw ==> bodies' == Bodies(items, StopFrom(items, 0)) && StopFrom(items, 0) < |items|
    ensures !threw ==> Played(items, p + 1, bodies', reply, emitted', names')
  {
    var out;
    out, emitted', names', threw := Emit(content, emitted, names, items, p);
    if threw {
      StopIs(items, 0, p);
      return bodies, emitted', names', true;
    }
    PlayedStep(items, p, bodies, reply, emitted, names, emitted', names');
    assert reply + "" == reply;
    bodies' := bodies + out;
  }

  /** The loop over the contents of one update. */
  method EmitAll(contents: seq<Content>, bodies: seq<Body>, emitted: set<string>, names: map<string, string>, ghost items: seq<Item>, ghost p: nat, ghost reply: string)
    returns (bodies': seq<Body>, emitted': set<string>, names': map<string, string>, threw: bool)
    requires Played(items, p, bodies, reply, emitted, names) && p + |contents| <= |items|
    requires forall c :: 0 <= c < |contents| ==> items[p + c] == Part(contents[c])
    ensures threw ==> bodies' == Bodies(items, StopFrom(items, 0)) && StopFrom(items, 0) < |items|
    ensures !threw ==> Played(items, p + |contents|, bodies', reply, emitted', names')
  {
    bodies', emitted', names', threw := bodies, emitted, names, false;
    for c := 0 to |contents|
      // compared with `true` so that it is kept as one fact
      invariant Played(items, p + c, bodies', reply, emitted', names') == true
      invariant !threw
    {
      bodies', emitted', names', threw := EmitNext(contents[c], bodies', emitted', names', items, p + c, reply);
      if threw { return; }
    }
  }

  /** How many items an update makes. */
  function Size(update: Update): nat { (if update.text == "" then 0 else 1) + |update.contents| }

  /** The items at `p` are those of the update. */
  predicate Holds(items: seq<Item>, p: nat, update: Update) {
    var t := if update.text == "" then 0 else 1;
    && p + Size(update) <= |items|
    && (t == 1 ==> items[p] == Delta(update.text))
    && (forall c :: 0 <= c < |update.contents| ==> items[p + t + c] == Part(update.contents[c]))
  }

  /** One update: its text, then its contents. */
  method Play(update: Update, bodies: seq<Body>, reply: string, emitted: set<string>, names: map<string, string>, ghost items: seq<Item>, ghost p: nat)
    returns (bodies': seq<Body>, reply': string, emitted': set<string>, names': map<string, string>, threw: bool, ghost q: nat)
    requires Played(items, p, bodies, reply, emitted, names) && Holds(items, p, update)
    ensures threw ==> bodies' == Bodies(items, StopFrom(items, 0)) && StopFrom(items, 0) < |items|
    ensures !threw ==> q == p + Size(update) && Played(items, q, bodies', reply', emitted', names')
  {
    bodies', reply', q := bodies, reply, p;
    if update.text != "" {
      KnownStep(items, p, emitted, names);
      PlayedStep(items, p, bodies, reply, emitted, names, emitted, names);
      reply' := reply + update.text;
      bodies' := bodies + [StreamToken(update.text)];
      q := p + 1;
    }
    bodies', emitted', names', threw := EmitAll(update.contents, bodies', emitted, names, items, q, reply');
    q := q + |update.contents|;
  }

  lemma AllPlayed(updates: seq<Update>, p: nat, bodies: seq<Body>, reply: string, emitted: set<string>, names: map<string, string>)
    requires Played(Items(updates), p, bodies, reply, emitted, names) && Items(updates)[p..] == Items(updates[|updates|..])
    ensures var items := Items(updates); StopFrom(items, 0) == |items| && bodies == Bodies(items, |items|) && reply == TextOf(items)
  {
    var items := Items(updates);
    assert updates[|updates|..] == [];
    assert p == |items| && items[..p] == items;
    StopIs(items, 0, p);
  }

  /** The streaming loop of a turn. */
  method Stream(script: Script) returns (bodies: seq<Body>, reply: string, threw: bool)
    ensures var items := Items(script.updates); var n := StopFrom(items, 0);
      bodies == Bodies(items, n) && threw == (n < |items| || script.breaks) && (!threw ==> reply == TextOf(items))
  {
    bodies, reply, threw := [], "", false;
    var emitted: set<string>, names: map<string, string> := {}, map[];
    ghost var items := Items(script.updates);
    ghost var p: nat := 0;
    assert script.updates[0..] == script.updates && items[0..] == items;
    for u := 0 to |script.updates|
      // compared with `true` so that it is kept as one fact
      invariant Played(items, p, bodies, reply, emitted, names) == true
      invariant items[p..] == Items(script.updates[u..])
    {
      ItemsStep(items, script.updates, u, p);
      bodies, reply, emitted, names, threw, p := Play(script.updates[u], bodies, reply, emitted, names, items, p);
      if threw { return; }
    }
    AllPlayed(script.updates, p, bodies, reply, emitted, names);
    threw := script.breaks;
  }

  // ----- a turn

  /** Builds the citations, one per hit. */
  method Cite(hits: seq<Acl.Hit>) returns (citations: seq<Citation>)
    ensures citations == Citations(hits)
  {
    citations := [];
    for i := 0 to |hits|
      invariant citations == Citations(hits[..i])
    {
      citations := citations + [CitationOf(hits[i])];
    }
    assert hits[..|hits|] == hits;
  }

  /** The recent messages of the conversation, with their roles. */
  method Recall(store: InMemorySessionStore, conversation: string) returns (prior: seq<Prior>)
    ensures prior == Replay(TakeLast(Log(store.View(), conversation), MAX_PRIOR_MESSAGES))
  {
    var recent := store.ListMessages(conversation, MAX_PRIOR_MESSAGES);
    prior := [];
    for i := 0 to |recent|
      invariant prior == Replay(recent[..i])
    {
      prior := prior + [PriorOf(recent[i])];
    }
    assert recent[..|recent|] == recent;
  }

  /** The part of a turn after the inbound message is stored. */
  method StreamAndStore(store: InMemorySessionStore, conversation: string, rid: string, script: Script, citations: seq<Citation>, env: Env)
    returns (events: seq<Event>, result: Option<TurnResult>)
    requires citations == Sources(env)
    modifies store
    ensures var run := Answer(old(store.View()), conversation, script, env);
      events == Labelled(rid, run.bodies) && store.View() == run.store && result == run.result
  {
    var bodies, reply, threw := Stream(script);
    events, result := Labelled(rid, bodies), None;
    if threw || env.outboundFails { return; }
    var outbound := store.AppendMessage(env.outboundId, conversation, Outbound, reply);
    result := Some(TurnResult(reply, outbound.id, citations));
  }

  method RunTurn(store: InMemorySessionStore, conversation: string, rid: string, message: string, env: Env)
    returns (events: seq<Event>, result: Option<TurnResult>)
    modifies store
    ensures var run := Turn(old(store.View()), conversation, message, env);
      events == Labelled(rid, run.bodies) && store.View() == run.store && result == run.result
  {
    events, result := [], None;
    var citations: seq<Citation> := [];
    if env.retrieval.QueryFails? { return; }
    if env.retrieval.Found? {
      var hits := if env.retrieval.rerank.Reranked? then env.retrieval.rerank.hits else Take(env.retrieval.candidates, AUTO_CONTEXT_LIMIT);
      citations := Cite(hits);
    }
    if env.listFails { return; }
    var prior := Recall(store, conversation);
    if env.inboundFails { return; }
    var _ := store.AppendMessage(env.inboundId, conversation, Inbound, message);
    events, result := StreamAndStore(store, conversation, rid, env.agent(prior, message), citations, env);
  }

  // ----- a frame

  /** Handles one frame; `threw` when the dispatch itself fails with nothing sent. */
  method DispatchFrame(store: InMemorySessionStore, f: Frame, env: Env) returns (events: seq<Event>, threw: bool)
    modifies store
    ensures Dispatched(events, store.View(), threw) == Dispatch(old(store.View()), f, env)
  {
    events, threw := [], false;
    if f.BadJson? { return [Error("", "VALIDATION_ERROR", "Invalid JSON frame")], false; }
    if f.NotObject? { return [Error("", "VALIDATION_ERROR", "Empty or non-object frame")], false; }
    if f.action.Other? || f.requestId.Other? { return [], true; }
    var rid := IdOf(f.requestId);
    if f.action.Absent? { return [Error(rid, "VALIDATION_ERROR", "Missing 'action'")], false; }
    var failed := false;
    if f.action.text == "ping" {
      events := [Event(rid, Pong)];
    } else if f.action.text == "create_conversation_session" {
      events, failed := HandleCreateSession(store, f, env);
    } else if f.action.text == "get_session" {
      events, failed := HandleGetSession(store, f, env);
    } else if f.action.text == "send_message" {
      events, failed := HandleSendMessage(store, f, env);
    } else {
      events := [Error(rid, "UNSUPPORTED_ACTION", "Unsupported action '" + f.action.text + "'")];
    }
    assert events + [] == events;
    if failed { events := events + [InternalError(rid)]; }
  }

  method HandleCreateSession(store: InMemorySessionStore, f: Frame, env: Env) returns (events: seq<Event>, failed: bool)
    requires f.Object?
    modifies store
    ensures Caught(events, failed, f, store.View()) == CreateSession(old(store.View()), f, env)
  {
    if f.agentId.Other? || f.userName.Other? || f.userEmail.Other? || env.sessionFails { return [], true; }
    var _ := store.CreateSession(IdOf(f.agentId), env.newSessionId, env.newConversationId, env.newAgentId);
    return [Event(IdOf(f.requestId), Immediate(200))], false;
  }

  method HandleGetSession(store: InMemorySessionStore, f: Frame, env: Env) returns (events: seq<Event>, failed: bool)
    requires f.Object?
    ensures Caught(events, failed, f, store.View()) == GetSession(store.View(), f, env)
  {
    if f.sessionId.Other? || env.sessionFails { return [], true; }
    var session := store.GetSession(IdOf(f.sessionId));
    if session.None? { return [Error(IdOf(f.requestId), "NOT_FOUND", "Session not found")], false; }
    return [Event(IdOf(f.requestId), Immediate(200))], false;
  }

  method HandleSendMessage(store: InMemorySessionStore, f: Frame, env: Env) returns (events: seq<Event>, failed: bool)
    requires f.Object?
    modifies store
    ensures Caught(events, failed, f, store.View()) == SendMessage(old(store.View()), f, env)
  {
    events, failed := [], false;
    var rid := if f.requestId.Absent? then env.guid else IdOf(f.requestId);
    if f.sessionId.Other? || env.sessionFails { return [], true; }
    var session := store.GetSession(IdOf(f.sessionId));
    if session.None? { return [Error(rid, "NOT_FOUND", "Session not found")], false; }
    if f.message.Other? { return [], true; }
    events := [Event(rid, Immediate(202))];
    var streamed, result := RunTurn(store, session.value.conversationId, rid, IdOf(f.message), env);
    events := events + streamed;
    if result.None? { return events, true; }
    events := events + [Event(rid, Final(result.value))];
  }

  /** What a handler's events come to once the dispatcher has caught its failure. */
  function Caught(events: seq<Event>, failed: bool, f: Frame, st: Store): Dispatched
    requires f.Object?
  {
    Dispatched(events + if failed then [InternalError(IdOf(f.requestId))] else [], st, false)
  }
}
