/** Tool announcements, request ids, citations, and what holds after any sequence of frames. */
module ServerRuns {
  import opened Wire
  import opened SessionStore
  import opened Server
  import opened ServerTheorems
  import Acl

  // ----- tool calls

  predicate Announces(b: Body) { b.StreamChunk? && b.state.ToolCall? }

  /** The tool-call chunks, in order. */
  function Announced(bodies: seq<Body>): seq<Body> {
    if bodies == [] then []
    else
      var before := Announced(bodies[..|bodies| - 1]);
      if Announces(bodies[|bodies| - 1]) then before + [bodies[|bodies| - 1]] else before
  }

  /** The first call of each id among the first `n` items, in order. */
  function Openings(items: seq<Item>, n: nat): (r: seq<Content>)
    requires n <= |items|
    ensures forall i :: 0 <= i < |r| ==> r[i].FunctionCall?
  {
    if n == 0 then []
    else if Opens(items, n - 1) then Openings(items, n - 1) + [items[n - 1].content]
    else Openings(items, n - 1)
  }

  /** A chunk announces a call: its name, twice, and its arguments. */
  predicate ChunkOf(b: Body, call: Content) {
    call.FunctionCall? && call.args.Some? && b == StreamChunk(call.name, ToolCall(call.name, call.args.value))
  }

  predicate ChunksOf(bodies: seq<Body>, calls: seq<Content>) {
    |bodies| == |calls| && forall i {:trigger bodies[i]} :: 0 <= i < |bodies| ==> ChunkOf(bodies[i], calls[i])
  }

  /** The ids called among the first `n` items. */
  function CallIds(items: seq<Item>, n: nat): set<string>
    requires n <= |items|
  {
    if n == 0 then {}
    else CallIds(items, n - 1) + if items[n - 1].Part? && items[n - 1].content.FunctionCall? then {items[n - 1].content.callId} else {}
  }

  lemma {:induction false} CalledBefore(items: seq<Item>, n: nat, id: string)
    requires n <= |items|
    ensures id in CallIds(items, n) <==> CalledIn(items, n, id)
  {
    if n > 0 {
      CalledBefore(items, n - 1, id);
      assert CalledIn(items, n, id) <==> CalledIn(items, n - 1, id) || Calls(items[n - 1], id);
    }
  }

  /** There are as many openings as there are call ids. */
  lemma {:induction false} OneOpeningEach(items: seq<Item>, n: nat)
    requires n <= |items|
    ensures |Openings(items, n)| == |CallIds(items, n)|
  {
    if n > 0 {
      OneOpeningEach(items, n - 1);
      var it, before := items[n - 1], CallIds(items, n - 1);
      if it.Part? && it.content.FunctionCall? {
        CalledBefore(items, n - 1, it.content.callId);
        assert CallIds(items, n) == before + {it.content.callId};
        assert it.content.callId in before ==> before + {it.content.callId} == before;
      }
    }
  }

  lemma AnnouncedMore(before: seq<Body>, more: seq<Body>)
    requires |more| <= 1
    ensures Announced(before + more) == if |more| == 1 && Announces(more[0]) then Announced(before) + more else Announced(before)
  {
    if more == [] {
      assert before + more == before;
    } else {
      assert (before + more)[..|before|] == before && more == [more[0]];
    }
  }

  /** What an item announces: its name and arguments, if it is the first call of its id. */
  lemma BodyAnnounces(items: seq<Item>, i: nat)
    requires i < |items| && !Throws(items, i)
    ensures var more := BodyOf(items, i);
      && |more| <= 1
      && (Opens(items, i) <==> |more| == 1 && Announces(more[0]))
      && (Opens(items, i) ==> ChunkOf(more[0], items[i].content))
  {
  }

  lemma AnnouncedNext(before: seq<Body>, more: seq<Body>, whole: seq<Body>, calls: seq<Content>, call: Content, opens: bool, calls': seq<Content>)
    requires whole == before + more && |more| <= 1 && ChunksOf(Announced(before), calls)
    requires (opens <==> |more| == 1 && Announces(more[0])) && (opens ==> ChunkOf(more[0], call))
    requires calls' == if opens then calls + [call] else calls
    ensures ChunksOf(Announced(whole), calls')
  {
    AnnouncedMore(before, more);
  }

  lemma ItemAnnounced(items: seq<Item>, n: nat, before: seq<Body>, more: seq<Body>, whole: seq<Body>)
    requires 0 < n <= |items| && !Throws(items, n - 1) && more == BodyOf(items, n - 1) && whole == before + more
    requires ChunksOf(Announced(before), Openings(items, n - 1)) == true // as one condition
    ensures ChunksOf(Announced(whole), Openings(items, n))
  {
    BodyAnnounces(items, n - 1);
    var call := if items[n - 1].Part? then items[n - 1].content else OtherContent;
    AnnouncedNext(before, more, whole, Openings(items, n - 1), call, Opens(items, n - 1), Openings(items, n));
  }

  lemma BodiesSnoc(items: seq<Item>, n: nat)
    requires 0 < n <= |items| && Smooth(items, n)
    ensures Bodies(items, n) == Bodies(items, n - 1) + BodyOf(items, n - 1)
  {
  }

  /** The chunks announce exactly the first call of each id, in the order the calls came. */
  lemma AnnouncesOpenings(items: seq<Item>, n: nat)
    requires n <= |items| && Smooth(items, n)
    ensures ChunksOf(Announced(Bodies(items, n)), Openings(items, n))
  {
    var bodies: seq<Body> := [];
    for k := 0 to n
      invariant bodies == Bodies(items, k) && ChunksOf(Announced(bodies), Openings(items, k)) == true // as one condition
    {
      BodiesSnoc(items, k + 1);
      var more := BodyOf(items, k);
      ItemAnnounced(items, k + 1, bodies, more, bodies + more);
      bodies := bodies + more;
    }
  }

  /** Every call id is announced once: it has one first call. */
  lemma {:induction false} OneOpening(items: seq<Item>, i: nat, id: string)
    requires i < |items| && Calls(items[i], id)
    ensures exists k: nat :: k <= i && Opens(items, k) && Calls(items[k], id)
    ensures forall k: nat, l: nat :: k < |items| && l < |items| && Opens(items, k) && Opens(items, l) && Calls(items[k], id) && Calls(items[l], id) ==> k == l
    decreases i
  {
    if !Opens(items, i) {
      var j: nat :| j < i && Calls(items[j], id);
      OneOpening(items, j, id);
    }
  }

  /** A result is labelled with the name its call was announced under. */
  lemma {:induction false} LabelIsAnnounced(items: seq<Item>, k: nat, id: string)
    requires k < |items| && Opens(items, k) && Calls(items[k], id)
    ensures LabelOf(items, id) == items[k].content.name
  {
    if k > 0 {
      assert !Calls(items[0], id);
      var rest := items[1..];
      forall j | 0 <= j < k - 1 ensures !Calls(rest[j], id) { assert !Calls(items[j + 1], id); }
      LabelIsAnnounced(rest, k - 1, id);
    }
  }

  lemma {:induction false} LabelIsTool(items: seq<Item>, id: string)
    requires forall j :: 0 <= j < |items| ==> !Calls(items[j], id)
    ensures LabelOf(items, id) == "tool"
  {
    if items != [] {
      forall j | 0 <= j < |items[1..]| ensures !Calls(items[1..][j], id) { assert !Calls(items[j + 1], id); }
      LabelIsTool(items[1..], id);
    }
  }

  // ----- tool results

  predicate Reports(b: Body) { b.StreamChunk? && b.state.ToolResult? }

  /** The tool-result chunks, in order. */
  function Reported(bodies: seq<Body>): seq<Body> {
    if bodies == [] then []
    else
      var before := Reported(bodies[..|bodies| - 1]);
      if Reports(bodies[|bodies| - 1]) then before + [bodies[|bodies| - 1]] else before
  }

  predicate IsResult(it: Item) { it.Part? && it.content.FunctionResult? }

  /** Where the tool results are among the first `n` items. */
  function ResultsAt(items: seq<Item>, n: nat): (r: seq<nat>)
    requires n <= |items|
    ensures forall k :: 0 <= k < |r| ==> r[k] < n && IsResult(items[r[k]])
    ensures forall k, l :: 0 <= k < l < |r| ==> r[k] < r[l]
    ensures forall i :: 0 <= i < n && IsResult(items[i]) ==> i in r
  {
    if n == 0 then []
    else if IsResult(items[n - 1]) then ResultsAt(items, n - 1) + [n - 1]
    else ResultsAt(items, n - 1)
  }

  /**
   * A chunk reports the result at `i`: its text, whether it reads as an error, and twice the name its call was
   * announced under before it, or "tool" when its id was not called before it.
   */
  predicate ReportOf(b: Body, items: seq<Item>, i: nat)
    requires i < |items| && IsResult(items[i])
  {
    var id, text := items[i].content.callId, items[i].content.result;
    && Reports(b) && b.node == b.state.name && b.state.result == text && b.state.isError == IsError(text)
    && (!CalledIn(items, i, id) ==> b.state.name == "tool")
    && (forall k {:trigger Opens(items, k)} :: 0 <= k < i && Opens(items, k) && items[k].content.callId == id ==> b.state.name == items[k].content.name)
  }

  predicate ReportsOf(bodies: seq<Body>, items: seq<Item>, n: nat)
    requires n <= |items|
  {
    && |bodies| == |ResultsAt(items, n)|
    && forall k {:trigger bodies[k]} :: 0 <= k < |bodies| ==> ReportOf(bodies[k], items, ResultsAt(items, n)[k])
  }

  lemma ReportedMore(before: seq<Body>, more: seq<Body>)
    requires |more| <= 1
    ensures Reported(before + more) == if |more| == 1 && Reports(more[0]) then Reported(before) + more else Reported(before)
  {
    if more == [] {
      assert before + more == before;
    } else {
      assert (before + more)[..|before|] == before && more == [more[0]];
    }
  }

  lemma OpensBefore(items: seq<Item>, i: nat, k: nat)
    requires k < i <= |items|
    ensures Opens(items[..i], k) <==> Opens(items, k)
  {
    var front := items[..i];
    if items[k].Part? && items[k].content.FunctionCall? {
      var id := items[k].content.callId;
      assert forall j :: 0 <= j < k ==> front[j] == items[j];
      assert CalledIn(front, k, id) <==> CalledIn(items, k, id);
    }
  }

  lemma BodyReports(items: seq<Item>, i: nat)
    requires i < |items| && !Throws(items, i)
    ensures var more := BodyOf(items, i);
      && |more| <= 1
      && (IsResult(items[i]) <==> |more| == 1 && Reports(more[0]))
      && (IsResult(items[i]) ==> ReportOf(more[0], items, i))
  {
    if IsResult(items[i]) {
      var id, front := items[i].content.callId, items[..i];
      if !CalledIn(items, i, id) {
        forall j | 0 <= j < |front| ensures !Calls(front[j], id) { assert !Calls(items[j], id); }
        LabelIsTool(front, id);
      }
      forall k | 0 <= k < i && Opens(items, k) && items[k].content.callId == id ensures LabelOf(front, id) == items[k].content.name {
        OpensBefore(items, i, k);
        LabelIsAnnounced(front, k, id);
      }
    }
  }

  lemma ReportedNext(items: seq<Item>, n: nat, before: seq<Body>, more: seq<Body>, whole: seq<Body>)
    requires 0 < n <= |items| && whole == before + more && |more| <= 1 && ReportsOf(Reported(before), items, n - 1)
    requires (IsResult(items[n - 1]) <==> |more| == 1 && Reports(more[0])) && (IsResult(items[n - 1]) ==> ReportOf(more[0], items, n - 1))
    ensures ReportsOf(Reported(whole), items, n)
  {
    ReportedMore(before, more);
    var old', at := Reported(before), ResultsAt(items, n - 1);
    if IsResult(items[n - 1]) {
      assert ResultsAt(items, n) == at + [n - 1] && Reported(whole) == old' + more;
    }
  }

  lemma ItemReported(items: seq<Item>, n: nat, before: seq<Body>, more: seq<Body>, whole: seq<Body>)
    requires 0 < n <= |items| && !Throws(items, n - 1) && more == BodyOf(items, n - 1) && whole == before + more
    requires ReportsOf(Reported(before), items, n - 1) == true // as one condition
    ensures ReportsOf(Reported(whole), items, n)
  {
    BodyReports(items, n - 1);
    ReportedNext(items, n, before, more, whole);
  }

  /** Every tool result is reported, in order, each under the right name. */
  lemma ReportsResults(items: seq<Item>, n: nat)
    requires n <= |items| && Smooth(items, n)
    ensures ReportsOf(Reported(Bodies(items, n)), items, n)
  {
    var bodies: seq<Body> := [];
    for k := 0 to n
      invariant bodies == Bodies(items, k) && ReportsOf(Reported(bodies), items, k) == true // as one condition
    {
      BodiesSnoc(items, k + 1);
      var more := BodyOf(items, k);
      ItemReported(items, k + 1, bodies, more, bodies + more);
      bodies := bodies + more;
    }
  }

  // ----- request ids

  predicate AllCarry(events: seq<Event>, rid: string) { forall i :: 0 <= i < |events| ==> events[i].rid == rid }

  /** The dispatcher's catch-all is reached. */
  predicate Fails(st: Store, f: Frame, env: Env)
    requires f.Object?
  {
    || f.sessionId.Other? || env.sessionFails
    || (IdOf(f.sessionId) in st.sessions && f.message.Other?)
    || (Accepted(st, f, env) && TurnFails(st, ConversationOf(st, f, env), IdOf(f.message), env))
  }

  lemma LastEvent(st: Store, f: Frame, env: Env)
    requires f.Object?
    ensures var events := SendMessage(st, f, env).events;
      events != [] && events[|events| - 1].rid == if Fails(st, f, env) then IdOf(f.requestId) else TurnId(f.requestId, env)
  {
    if Accepted(st, f, env) {
      AcceptedIs(st, f, env);
      TurnResultIs(st, ConversationOf(st, f, env), IdOf(f.message), env);
    }
  }

  lemma EarlierEvents(st: Store, f: Frame, env: Env, i: nat)
    requires f.Object? && i + 1 < |SendMessage(st, f, env).events|
    ensures SendMessage(st, f, env).events[i].rid == TurnId(f.requestId, env)
  {
    SendTrace(st, f, env);
    if Accepted(st, f, env) { assert i == 0 || i > 0; }
  }

  lemma AllButLast(st: Store, f: Frame, env: Env)
    requires f.Object?
    ensures var events, rid := SendMessage(st, f, env).events, TurnId(f.requestId, env);
      events != [] && (AllCarry(events, rid) <==> events[|events| - 1].rid == rid)
  {
    var events, rid := SendMessage(st, f, env).events, TurnId(f.requestId, env);
    LastEvent(st, f, env);
    forall i | 0 <= i < |events| - 1 ensures events[i].rid == rid { EarlierEvents(st, f, env, i); }
  }

  /** All events of a turn carry its id exactly when the client supplied one or nothing throws. */
  lemma SameIdIff(st: Store, f: Frame, env: Env)
    requires IsSend(f) && env.guid != ""
    ensures AllCarry(SendMessage(st, f, env).events, TurnId(f.requestId, env)) <==> f.requestId.Text? || !Fails(st, f, env)
  {
    AllButLast(st, f, env);
    LastEvent(st, f, env);
  }

  /** So a client that wants one id on every event, whatever happens, has to supply it. */
  lemma SameIdAlwaysIff(st: Store, f: Frame)
    requires IsSend(f)
    ensures (forall env: Env :: env.guid != "" ==> AllCarry(SendMessage(st, f, env).events, TurnId(f.requestId, env))) <==> f.requestId.Text?
  {
    if f.requestId.Text? {
      forall env: Env | env.guid != "" ensures AllCarry(SendMessage(st, f, env).events, TurnId(f.requestId, env)) {
        SameIdIff(st, f, env);
      }
    } else {
      var env := Env("g", true, "", "", "", NoKnowledge, false, false, "", (_, _) => Script([], false), false, "");
      SameIdIff(st, f, env);
    }
  }

  // ----- citations

  /** The candidates are what the access-scoped store returned, and a reranker only chooses among them. */
  ghost predicate Scoped(r: Retrieval, es: seq<Acl.Entry>, query: string, groups: seq<string>, score: Acl.Scorer) {
    r.Found? ==>
      && r.candidates == Acl.Query(es, query, if r.rerank.NoReranker? then AUTO_CONTEXT_LIMIT else RERANK_CANDIDATE_POOL, groups, score)
      && (r.rerank.Reranked? ==> forall h :: h in r.rerank.hits ==> h in r.candidates)
  }

  /** A citation shows a document of the store that the caller may read, and as much of its start as fits. */
  predicate Shows(c: Citation, e: Acl.Entry, groups: seq<string>) {
    && Acl.Allows(e.acl, groups) && c.id == e.doc.id && c.title == e.doc.source
    && c.snippet <= e.doc.content && |c.snippet| == if |e.doc.content| <= 280 then |e.doc.content| else 280
  }

  lemma CandidateAmongMatches(es: seq<Acl.Entry>, query: string, limit: int, groups: seq<string>, score: Acl.Scorer, h: Acl.Hit)
    requires h in Acl.Query(es, query, limit, groups, score)
    ensures h in Acl.Matches(Acl.Visible(es, groups), query, score)
  {
    var all := Acl.Matches(Acl.Visible(es, groups), query, score);
    Acl.SortIsStable(all);
    assert h in Acl.SortDescending(all);
    assert h in multiset(Acl.SortDescending(all));
  }

  /** Entitlements are enforced on the chat path: every citation is of a document the caller may read. */
  lemma CitationsReadable(env: Env, es: seq<Acl.Entry>, query: string, groups: seq<string>, score: Acl.Scorer, i: nat)
    requires Scoped(env.retrieval, es, query, groups, score) && i < |Sources(env)|
    ensures exists e :: e in es && Shows(Sources(env)[i], e, groups)
  {
    var r := env.retrieval;
    var h := Hits(r.candidates, r.rerank)[i];
    assert h in r.candidates;
    CandidateAmongMatches(es, query, if r.rerank.NoReranker? then AUTO_CONTEXT_LIMIT else RERANK_CANDIDATE_POOL, groups, score, h);
    Acl.CandidatesAreReadable(es, query, groups, score, h);
    var e :| e in es && Acl.Reports(h, e, query, groups, score);
    assert Shows(Sources(env)[i], e, groups);
  }

  // ----- from one frame to the next

  /** A session that was created is found under its id by the message after it, with an empty conversation. */
  lemma CreatedIsFound(st: Store, f: Frame, env: Env, g: Frame, env': Env)
    requires f.Object? && f.action == Text("create_conversation_session") && !f.requestId.Other?
    requires Dispatch(st, f, env).events == [Event(IdOf(f.requestId), Immediate(200))]
    requires g.Object? && g.sessionId == Text(env.newSessionId) && !g.message.Other? && !env'.sessionFails
    ensures var st' := Dispatch(st, f, env).store;
      Accepted(st', g, env') && ConversationOf(st', g, env') == env.newConversationId && Log(st', env.newConversationId) == []
  {
    assert |"create_conversation_session"| == 27 && |"ping"| == 4;
  }

  /** What the agent is told of the conversation when it gets a message. */
  function Told(st: Store, conversation: string): seq<Prior> { Replay(TakeLast(Log(st, conversation), MAX_PRIOR_MESSAGES)) }

  lemma TakeLastMore<T>(s: seq<T>, a: T, b: T, limit: nat)
    requires limit >= 2
    ensures TakeLast(s + [a, b], limit) == TakeLast(s, limit - 2) + [a, b]
  {
    var more := s + [a, b];
    assert limit < |more| ==> more[|more| - limit..] == s[|s| - (limit - 2)..] + [a, b];
  }

  lemma ReplayMore(ms: seq<StoredMessage>, a: StoredMessage, b: StoredMessage)
    ensures Replay(ms + [a, b]) == Replay(ms) + [PriorOf(a), PriorOf(b)]
  {
  }

  lemma ToldAfter(st: Store, st': Store, c: string, a: StoredMessage, b: StoredMessage)
    requires Log(st', c) == Log(st, c) + [a, b]
    ensures Told(st', c) == Replay(TakeLast(Log(st, c), MAX_PRIOR_MESSAGES - 2)) + [PriorOf(a), PriorOf(b)]
  {
    TakeLastMore(Log(st, c), a, b, MAX_PRIOR_MESSAGES);
    ReplayMore(TakeLast(Log(st, c), MAX_PRIOR_MESSAGES - 2), a, b);
  }

  /** The same, for whatever dispatch answered the message. */
  lemma AnsweredTold(st: Store, f: Frame, env: Env, d: Dispatched)
    requires f.Object? && Accepted(st, f, env) && d.events != [] && Answered(st, f, env, d)
    ensures var c := ConversationOf(st, f, env);
      Told(d.store, c) ==
      Replay(TakeLast(Log(st, c), MAX_PRIOR_MESSAGES - 2)) + [Prior(false, IdOf(f.message)), Prior(true, Tokens(d.events))]
  {
    var c := ConversationOf(st, f, env);
    ToldAfter(st, d.store, c, InboundOf(c, IdOf(f.message), env), OutboundOf(c, Tokens(d.events), env));
  }

  /**
   * Memory carries over: the next turn is told the question and the reply of this one, last and in that order,
   * after the forty-eight messages before them; a message is never told to the turn it starts.
   */
  lemma MemoryCarriesOver(st: Store, f: Frame, env: Env)
    requires f.Object? && Accepted(st, f, env) && !TurnFails(st, ConversationOf(st, f, env), IdOf(f.message), env)
    ensures var c := ConversationOf(st, f, env);
      Told(SendMessage(st, f, env).store, c) ==
      Replay(TakeLast(Log(st, c), MAX_PRIOR_MESSAGES - 2)) + [Prior(false, IdOf(f.message)), Prior(true, Tokens(SendMessage(st, f, env).events))]
  {
    ReplyConserved(st, f, env);
    AnsweredTold(st, f, env, SendMessage(st, f, env));
  }

  // ----- any sequence of frames

  datatype Step = Step(frame: Frame, env: Env)

  function After(steps: seq<Step>): Store {
    if steps == [] then Store(map[], map[])
    else
      var n := |steps| - 1;
      Dispatch(After(steps[..n]), steps[n].frame, steps[n].env).store
  }

  /** The step draws identifiers other than these. */
  predicate Fresh(step: Step, sessionId: string, conversation: string) {
    step.env.newSessionId != sessionId && step.env.newConversationId != conversation
  }

  /** The session is still there, and the log only grew. */
  predicate Keeps(st: Store, st': Store, id: string, c: string) {
    (id in st.sessions ==> id in st'.sessions && st'.sessions[id] == st.sessions[id]) && Log(st, c) <= Log(st', c)
  }

  lemma TurnKeeps(st: Store, conversation: string, message: string, env: Env, id: string, c: string)
    ensures Keeps(st, Turn(st, conversation, message, env).store, id, c)
  {
    TurnLog(st, conversation, message, env);
    GrownKeeps(st, Turn(st, conversation, message, env).store, conversation, Added(st, conversation, message, env), id, c);
  }

  lemma GrownKeeps(st: Store, st': Store, conversation: string, added: seq<StoredMessage>, id: string, c: string)
    requires st'.sessions == st.sessions && Log(st', conversation) == Log(st, conversation) + added
    requires c != conversation ==> Log(st', c) == Log(st, c)
    ensures Keeps(st, st', id, c)
  {
  }

  lemma SendKeeps(st: Store, f: Frame, env: Env, id: string, c: string)
    requires f.Object?
    ensures Keeps(st, SendMessage(st, f, env).store, id, c)
  {
    if Accepted(st, f, env) {
      TurnKeeps(st, ConversationOf(st, f, env), IdOf(f.message), env, id, c);
      AcceptedIs(st, f, env);
    } else {
      RefusedAddsNothing(st, f, env);
    }
  }

  lemma CreateKeeps(st: Store, f: Frame, env: Env, id: string, c: string)
    requires f.Object? && env.newSessionId != id && env.newConversationId != c
    ensures Keeps(st, CreateSession(st, f, env).store, id, c)
  {
  }

  /** Only two kinds of frame change the store. */
  lemma StoreAfter(st: Store, f: Frame, env: Env)
    ensures Dispatch(st, f, env).store == st
            || (f.Object? && (Dispatch(st, f, env) == CreateSession(st, f, env) || Dispatch(st, f, env) == SendMessage(st, f, env)))
  {
  }

  /** A frame keeps a session whose id it does not draw, and its log only grows. */
  lemma StepKeepsSession(st: Store, step: Step, id: string, c: string)
    requires Fresh(step, id, c)
    ensures Keeps(st, Dispatch(st, step.frame, step.env).store, id, c)
  {
    StoreAfter(st, step.frame, step.env);
    if step.frame.Object? {
      SendKeeps(st, step.frame, step.env, id, c);
      CreateKeeps(st, step.frame, step.env, id, c);
    }
  }

  lemma KeepsTwice(a: Store, b: Store, d: Store, id: string, c: string)
    requires Keeps(a, b, id, c) && Keeps(b, d, id, c)
    ensures Keeps(a, d, id, c)
  {
  }

  lemma AfterNext(steps: seq<Step>)
    requires steps != []
    ensures var n := |steps| - 1; After(steps) == Dispatch(After(steps[..n]), steps[n].frame, steps[n].env).store
  {
  }

  lemma {:induction false} SessionStays(steps: seq<Step>, k: nat, id: string, c: string)
    requires k <= |steps| && forall j :: k <= j < |steps| ==> Fresh(steps[j], id, c)
    ensures Keeps(After(steps[..k]), After(steps), id, c)
    decreases |steps|
  {
    if k == |steps| {
      assert steps[..k] == steps;
    } else {
      var n := |steps| - 1;
      assert steps[..n][..k] == steps[..k];
      SessionStays(steps[..n], k, id, c);
      StepKeepsSession(After(steps[..n]), steps[n], id, c);
      AfterNext(steps);
      KeepsTwice(After(steps[..k]), After(steps[..n]), After(steps), id, c);
    }
  }

  lemma KeptIsAccepted(st: Store, st': Store, g: Frame, env: Env, c: string)
    requires g.Object? && Accepted(st, g, env) && Keeps(st, st', IdOf(g.sessionId), c)
    ensures Accepted(st', g, env) && ConversationOf(st', g, env) == ConversationOf(st, g, env)
  {
  }

  /** A session that was created is found under its id by every later message, as long as its ids are not drawn again. */
  lemma CreatedStaysFound(steps: seq<Step>, k: nat, g: Frame, env': Env)
    requires k < |steps| && steps[k].frame.Object? && steps[k].frame.action == Text("create_conversation_session")
    requires !steps[k].frame.requestId.Other?
    requires Dispatch(After(steps[..k]), steps[k].frame, steps[k].env).events == [Event(IdOf(steps[k].frame.requestId), Immediate(200))]
    requires forall j :: k < j < |steps| ==> Fresh(steps[j], steps[k].env.newSessionId, steps[k].env.newConversationId)
    requires g.Object? && g.sessionId == Text(steps[k].env.newSessionId) && !g.message.Other? && !env'.sessionFails
    ensures Accepted(After(steps), g, env') && ConversationOf(After(steps), g, env') == steps[k].env.newConversationId
  {
    CreatedIsFound(After(steps[..k]), steps[k].frame, steps[k].env, g, env');
    assert steps[..k + 1][..k] == steps[..k];
    AfterNext(steps[..k + 1]);
    SessionStays(steps, k + 1, steps[k].env.newSessionId, steps[k].env.newConversationId);
    KeptIsAccepted(After(steps[..k + 1]), After(steps), g, env', steps[k].env.newConversationId);
  }

  /** Step `k` is a turn that streamed exactly the text of `m` and reported its id. */
  predicate StreamedAt(steps: seq<Step>, k: nat, m: StoredMessage)
    requires k < |steps|
  {
    var f, env, st := steps[k].frame, steps[k].env, After(steps[..k]);
    && IsSend(f) && Accepted(st, f, env) && m.conversationId == ConversationOf(st, f, env)
    && var events := Dispatch(st, f, env).events;
       && TurnTrace(events, TurnId(f.requestId, env)) && Tokens(events) == m.text
       && events[|events| - 1].body == Eventual(true, m.id, Parts([Some(m.text)]), Sources(env))
  }

  lemma OtherFramesAddNothing(st: Store, f: Frame, env: Env, c: string)
    requires !IsSend(f)
    ensures Log(Dispatch(st, f, env).store, c) == Log(st, c) || Log(Dispatch(st, f, env).store, c) == []
  {
  }

  lemma RefusedAddsNothing(st: Store, f: Frame, env: Env)
    requires f.Object? && !Accepted(st, f, env)
    ensures SendMessage(st, f, env).store == st
  {
    SendTrace(st, f, env);
  }

  lemma NewMessage(st: Store, f: Frame, env: Env, c: string, m: StoredMessage)
    requires f.Object? && Accepted(st, f, env)
    requires m in Log(SendMessage(st, f, env).store, c) && m !in Log(st, c) && m.direction.Outbound?
    ensures c == ConversationOf(st, f, env) && !TurnFails(st, c, IdOf(f.message), env)
  {
    OthersUntouched(st, f, env);
    assert c == ConversationOf(st, f, env);
    if TurnFails(st, c, IdOf(f.message), env) { FailureReported(st, f, env); }
  }

  lemma AnsweredReply(st: Store, f: Frame, env: Env, d: Dispatched, m: StoredMessage)
    requires f.Object? && Accepted(st, f, env) && d.events != [] && Answered(st, f, env, d) && m.direction.Outbound?
    requires m in Log(d.store, ConversationOf(st, f, env)) && m !in Log(st, ConversationOf(st, f, env))
    ensures m == OutboundOf(ConversationOf(st, f, env), Tokens(d.events), env)
    ensures d.events[|d.events| - 1].body == Eventual(true, m.id, Parts([Some(m.text)]), Sources(env))
  {
  }

  lemma NewReply(st: Store, f: Frame, env: Env, c: string, m: StoredMessage)
    requires f.Object? && Accepted(st, f, env)
    requires m in Log(SendMessage(st, f, env).store, c) && m !in Log(st, c) && m.direction.Outbound?
    ensures m.conversationId == ConversationOf(st, f, env) && Tokens(SendMessage(st, f, env).events) == m.text
    ensures SendMessage(st, f, env).events != []
    ensures SendMessage(st, f, env).events[|SendMessage(st, f, env).events| - 1].body ==
            Eventual(true, m.id, Parts([Some(m.text)]), Sources(env))
  {
    NewMessage(st, f, env, c, m);
    ReplyConserved(st, f, env);
    AnsweredReply(st, f, env, SendMessage(st, f, env), m);
  }

  lemma StreamedNow(steps: seq<Step>, n: nat, c: string, m: StoredMessage)
    requires n < |steps| && IsSend(steps[n].frame) && m.direction.Outbound?
    requires m in Log(Dispatch(After(steps[..n]), steps[n].frame, steps[n].env).store, c) && m !in Log(After(steps[..n]), c)
    ensures StreamedAt(steps, n, m)
  {
    var st, f, env := After(steps[..n]), steps[n].frame, steps[n].env;
    SendIs(st, f, env);
    if !Accepted(st, f, env) { RefusedAddsNothing(st, f, env); }
    NewReply(st, f, env, c, m);
    SendTrace(st, f, env);
  }

  lemma StreamedEarlier(steps: seq<Step>, n: nat, m: StoredMessage)
    requires n <= |steps| && exists k: nat :: k < n && StreamedAt(steps[..n], k, m)
    ensures exists k: nat :: k < |steps| && StreamedAt(steps, k, m)
  {
    var front := steps[..n];
    var k: nat :| k < n && StreamedAt(front, k, m);
    assert front[..k] == steps[..k] && front[k] == steps[k];
    assert After(front[..k]) == After(steps[..k]);
    assert StreamedAt(steps, k, m);
  }

  /** Over any sequence of frames, every reply in a log was streamed, whole, by some turn of that conversation. */
  lemma {:induction false} RepliesWereStreamed(steps: seq<Step>, c: string, m: StoredMessage)
    requires m in Log(After(steps), c) && m.direction.Outbound?
    ensures exists k: nat :: k < |steps| && StreamedAt(steps, k, m)
  {
    if steps != [] {
      var n := |steps| - 1;
      if m in Log(After(steps[..n]), c) {
        RepliesWereStreamed(steps[..n], c, m);
        StreamedEarlier(steps, n, m);
      } else if !IsSend(steps[n].frame) {
        OtherFramesAddNothing(After(steps[..n]), steps[n].frame, steps[n].env, c);
      } else {
        StreamedNow(steps, n, c, m);
      }
    }
  }
}
