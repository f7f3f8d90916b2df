/**
 * The agent engine's loop: model calls, tool rounds behind an approval gate, a spend budget, compaction of
 * the working list, and checkpoints.
 */
module Agent {
  import opened Wire
  import opened Compaction
  import opened Cost
  import opened Checkpoints
  import opened AgentEffects

  // ----- a round of tool calls

  /**
   * An allowed tool runs and its value or exception becomes the result; a refused or unknown one does not run and
   * the model is told so. Only the callback's or the gate's own exception escapes. `n` effects came before.
   */
  method InvokeTool(w: World, call: Content, n: nat) returns (result: Option<Content>, effects: seq<Effect>)
    requires call.Call?
    ensures result.None? <==> Escapes(w, call, n)
    ensures result.Some? ==> result.value.Result? && result.value.callId == call.callId && Told(w, call, n, result.value.result)
    ensures effects == EffectsOf(w, call, n)
    ensures Allowed(w, call, n) ==> effects != [] && effects[|effects| - 1] == Ran(call) && RanIn(effects) == [call]
    ensures !Allowed(w, call, n) ==> RanIn(effects) == []
    ensures !Known(w, call) ==> effects == []
  {
    RunsIffAllowed(w, call, n);
    effects := [];
    if call.name !in w.o.functions {
      return Some(Result(call.callId, "Error: unknown tool '" + call.name + "'")), effects;
    }
    if w.o.gated {
      var answer := w.flagged(n, call);
      effects := [Judged(call, answer)];
      if answer.FlagThrew? { return None, effects; }
      if answer.Flagged? {
        var decision := w.gate(n + 1, call);
        if decision.GateThrew? { return None, effects; }
        effects := [Judged(call, answer), Approval(call, decision.Approved?)];
        if decision.Denied? {
          var reason := if decision.reason.Some? then decision.reason.value else "no reason given";
          return Some(Result(call.callId, "Denied by human: " + reason)), effects;
        }
      }
    }
    var outcome := w.tools(n + |effects|, call);
    effects := effects + [Ran(call)];
    result := Some(Result(call.callId, if outcome.Returned? then outcome.value else "Error: " + outcome.message));
  }

  /** The first calls of a round are done. */
  ghost predicate RoundSoFar(w: World, calls: seq<Content>, log: seq<Effect>, results: seq<Content>, log': seq<Effect>) {
    && |results| <= |calls| && Results(w, calls, |log|, results)
    && log' == log + RoundEffects(w, calls[..|results|], |log|)
  }

  lemma RoundStep(w: World, calls: seq<Content>, log: seq<Effect>, results: seq<Content>, log': seq<Effect>, effects: seq<Effect>)
    requires RoundSoFar(w, calls, log, results, log') && |results| < |calls|
    requires effects == EffectsOf(w, calls[|results|], |log'|)
    ensures Escapes(w, calls[|results|], |log'|) ==> BrokenRound(w, calls, log, log' + effects)
    ensures forall r: Content :: (calls[|results|].Call? && r.Result? && r.callId == calls[|results|].callId
              && Told(w, calls[|results|], |log'|, r.result)) ==> RoundSoFar(w, calls, log, results + [r], log' + effects)
  {
    RoundSnoc(w, calls, log, |results|);
  }

  /** Runs the calls of a reply one after the other: those it runs are the allowed ones, in order. */
  method ExecuteTools(w: World, reply: seq<Message>, log: seq<Effect>) returns (m: Option<Message>, log': seq<Effect>)
    requires Calls(reply) != []
    ensures m.Some? ==> Answers(reply, m.value) && Results(w, Calls(reply), |log|, m.value.contents)
    ensures m.Some? ==> log' == log + RoundEffects(w, Calls(reply), |log|)
    ensures m.Some? ==> RanIn(log') == RanIn(log) + AllowedOf(w, Calls(reply), |log|)
    ensures m.None? ==> BrokenRound(w, Calls(reply), log, log')
  {
    var calls := Calls(reply);
    var results: seq<Content> := [];
    log' := log;
    var i := 0;
    while i < |calls|
      invariant 0 <= i == |results| <= |calls|
      invariant RoundSoFar(w, calls, log, results, log')
    {
      var r, effects := InvokeTool(w, calls[i], |log'|);
      RoundStep(w, calls, log, results, log', effects);
      log' := log' + effects;
      if r.None? { return None, log'; }
      results := results + [r.value];
      i := i + 1;
    }
    assert calls[..i] == calls;
    RoundRan(w, calls, log, log');
    m := Some(Message(Tool, results));
  }

  // ----- the shape of a turn

  /** The user message, then replies and tool messages in turn. */
  function Transcript(user: Message, replies: seq<seq<Message>>, tools: seq<Message>): seq<Message>
    requires |tools| <= |replies| <= |tools| + 1
    decreases |replies| + |tools|
  {
    if replies == [] then [user]
    else if |tools| == |replies| then Transcript(user, replies, tools[..|tools| - 1]) + [tools[|tools| - 1]]
    else Transcript(user, replies[..|replies| - 1], tools) + replies[|replies| - 1]
  }

  /** The snapshots a turn saves: prior history plus the turn so far, at the strategy's points. */
  function Snapshots(c: CheckpointStrategy, t: string, prior: seq<Message>, user: Message,
                     replies: seq<seq<Message>>, tools: seq<Message>, ids: nat -> string, base: nat): seq<Checkpoint>
    requires |tools| <= |replies| <= |tools| + 1
    decreases |replies| + |tools|
  {
    if replies == [] then []
    else
      var toolRound := |tools| == |replies|;
      var before :=
        if toolRound then Snapshots(c, t, prior, user, replies, tools[..|tools| - 1], ids, base)
        else Snapshots(c, t, prior, user, replies[..|replies| - 1], tools, ids, base);
      if c == (if toolRound then AfterToolCall else AfterEachIteration) then
        before + [Checkpoint(ids(base + |before|), t, prior + Transcript(user, replies, tools), |replies|)]
      else before
  }

  class SmoothAgentThread {
    const id: string
    var messages: seq<Message>

    constructor (id: string)
      ensures this.id == id && messages == []
    {
      this.id := id;
      messages := [];
    }
  }

  /** Accumulated usage; counts that were never reported stay missing. */
  function Accumulate(total: Usage, add: Option<Usage>): Usage {
    if add.None? then total
    else Usage(Some(OrZero(total.input) + OrZero(add.value.input)),
               Some(OrZero(total.output) + OrZero(add.value.output)),
               Some(OrZero(total.total) + OrZero(add.value.total)))
  }

  datatype TurnEnd =
    | Completed(messages: seq<Message>, usage: Usage, iterations: nat, entries: seq<CostEntry>, budgetHit: Option<BudgetExceeded>)
    | Crashed

  function CallLimit(o: Options): nat { if o.maxIterations > 1 then o.maxIterations else 1 }

  /** No call before the last one went over budget. */
  ghost predicate WithinBudget(o: Options, entries: seq<CostEntry>) {
    o.budget.Some? ==> forall k :: 0 < k < |entries| ==> !Over(o.budget.value, entries[..k])
  }

  /** The usage reported is what the model calls reported, and missing when none did. */
  ghost predicate Tallies(usage: Usage, entries: seq<CostEntry>, t: Trace) {
    && OrZero(usage.input) == PromptSum(entries) && OrZero(usage.output) == CompletionSum(entries)
    && OrZero(usage.total) == t.total
    && (usage.input.Some? <==> t.reported) && (usage.output.Some? <==> t.reported) && (usage.total.Some? <==> t.reported)
  }

  /** Everything a completed turn promises about its report. */
  ghost predicate ReportOk(o: Options, end: TurnEnd, user: Message, t: Trace, log: seq<Effect>)
    requires |t.tools| <= |t.replies| <= |t.tools| + 1
  {
    end.Completed? ==>
      && |t.replies| == |t.tools| + 1 && end.iterations == |t.replies|
      && end.messages == Transcript(user, t.replies, t.tools)
      && (end.budgetHit.Some? <==> o.budget.Some? && Over(o.budget.value, end.entries))
      && WithinBudget(o, end.entries)
      && (end.budgetHit.Some? ==> log != [] && log[|log| - 1].Asked?)
      && (end.budgetHit.None? ==> Calls(t.replies[|t.replies| - 1]) == [] || end.iterations >= o.maxIterations)
  }

  /** Instructions, prior thread, retrieved context and the live user message. */
  function Seeded(o: Options, message: string, context: Option<Message>, prior: seq<Message>): (r: seq<Message>)
    ensures r != [] && r[|r| - 1] == Message(User, [Text(message)])
    ensures o.instructions != "" ==> r[0] == Message(System, [Text(o.instructions)])
    ensures var head := if o.instructions == "" then 0 else 1;
      && |r| == head + |prior| + (if context.Some? then 1 else 0) + 1 && r[head..head + |prior|] == prior
      && (context.Some? ==> r[|r| - 2] == context.value)
  {
    (if o.instructions == "" then [] else [Message(System, [Text(o.instructions)])]) + prior
    + (if context.Some? then [context.value] else []) + [Message(User, [Text(message)])]
  }

  method Seed(o: Options, message: string, context: Option<Message>, prior: seq<Message>) returns (working: Conversation)
    ensures fresh(working) && working.items == Seeded(o, message, context, prior)
  {
    var items := if o.instructions == "" then [] else [Message(System, [Text(o.instructions)])];
    items := items + prior;
    if context.Some? { items := items + [context.value]; }
    items := items + [Message(User, [Text(message)])];
    working := new Conversation(items);
  }

  method MaybeCheckpoint(o: Options, thread: SmoothAgentThread?, store: InMemoryCheckpointStore?,
                         newThisTurn: seq<Message>, iteration: nat, trigger: CheckpointStrategy, ids: nat -> string)
    modifies store
    ensures store != null && (thread == null || o.checkpoint != trigger) ==>
      store.checkpoints == old(store.checkpoints)
    ensures store != null && thread != null && o.checkpoint == trigger ==>
      store.checkpoints == old(store.checkpoints)
        + [Checkpoint(ids(|old(store.checkpoints)|), thread.id, thread.messages + newThisTurn, iteration)]
  {
    if thread == null || store == null || o.checkpoint != trigger { return; }
    store.Save(Checkpoint(ids(|store.checkpoints|), thread.id, thread.messages + newThisTurn, iteration));
  }

  /** What is in the store is what was there plus the snapshots of this turn so far. */
  ghost predicate Stored(o: Options, thread: SmoothAgentThread?, store: InMemoryCheckpointStore?, prior: seq<Message>,
                         before: seq<Checkpoint>, user: Message, replies: seq<seq<Message>>, tools: seq<Message>, ids: nat -> string)
    requires |tools| <= |replies| <= |tools| + 1
    reads store
  {
    store != null ==>
      store.checkpoints == before +
        if thread == null then []
        else Snapshots(o.checkpoint, thread.id, prior, user, replies, tools, ids, |before|)
  }

  lemma TranscriptReply(user: Message, replies: seq<seq<Message>>, tools: seq<Message>, reply: seq<Message>)
    requires |tools| == |replies|
    ensures Transcript(user, replies + [reply], tools) == Transcript(user, replies, tools) + reply
  {
    assert (replies + [reply])[..|replies|] == replies;
  }

  lemma TranscriptTool(user: Message, replies: seq<seq<Message>>, tools: seq<Message>, m: Message)
    requires |replies| == |tools| + 1
    ensures Transcript(user, replies, tools + [m]) == Transcript(user, replies, tools) + [m]
  {
    assert (tools + [m])[..|tools|] == tools;
  }

  lemma ReplyExtends(c: CheckpointStrategy, t: string, prior: seq<Message>, user: Message, replies: seq<seq<Message>>,
                     tools: seq<Message>, ids: nat -> string, base: nat, reply: seq<Message>)
    requires |tools| == |replies|
    ensures Snapshots(c, t, prior, user, replies + [reply], tools, ids, base) ==
      var before := Snapshots(c, t, prior, user, replies, tools, ids, base);
      if c == AfterEachIteration then
        before + [Checkpoint(ids(base + |before|), t, prior + Transcript(user, replies + [reply], tools), |replies| + 1)]
      else before
  {
    assert (replies + [reply])[..|replies|] == replies;
  }

  lemma ToolExtends(c: CheckpointStrategy, t: string, prior: seq<Message>, user: Message, replies: seq<seq<Message>>,
                    tools: seq<Message>, ids: nat -> string, base: nat, m: Message)
    requires |replies| == |tools| + 1
    ensures Snapshots(c, t, prior, user, replies, tools + [m], ids, base) ==
      var before := Snapshots(c, t, prior, user, replies, tools, ids, base);
      if c == AfterToolCall then
        before + [Checkpoint(ids(base + |before|), t, prior + Transcript(user, replies, tools + [m]), |replies|)]
      else before
  {
    assert (tools + [m])[..|tools|] == tools;
  }

  lemma TallyAppend(usage: Usage, p: Trace, t: Trace, model: Option<string>, add: Option<Usage>, pricing: Option<Pricing>)
    requires Tallies(usage, p.entries, p) && t.entries == p.entries + [EntryOf(model, add, pricing)]
    requires t.total == p.total + TotalOf(add) && t.reported == (p.reported || add.Some?)
    ensures Tallies(Accumulate(usage, add), t.entries, t)
  {
    SumsAppend(p.entries, EntryOf(model, add, pricing));
  }

  /** No prefix of the recorded calls is over budget. */
  ghost predicate NeverOver(o: Options, entries: seq<CostEntry>) {
    o.budget.Some? ==> forall k :: 0 < k <= |entries| ==> !Over(o.budget.value, entries[..k])
  }

  lemma NeverOverAppend(o: Options, entries: seq<CostEntry>, e: CostEntry)
    requires NeverOver(o, entries)
    ensures WithinBudget(o, entries + [e])
    ensures (o.budget.Some? ==> !Over(o.budget.value, entries + [e])) ==> NeverOver(o, entries + [e])
  {
    var es := entries + [e];
    assert forall k :: 0 < k <= |entries| ==> es[..k] == entries[..k];
    assert es[..|es|] == es;
  }

  /** Compacts the working list, calls the model and books the call. */
  method AskModel(w: World, working: Conversation, cost: CostTracker, usage: Usage, log: seq<Effect>, ghost p: Trace)
    returns (response: ModelReply, usage': Usage, log': seq<Effect>, ghost t: Trace)
    requires cost.Valid() && Tallies(usage, cost.entries, p) && |p.replies| == |p.tools|
    requires p.log == log && p.entries == cost.entries && p.working == working.items
    modifies working, cost
    ensures |log'| == |log| + 1 && log'[|log|].Asked?
    ensures response.ModelThrew? ==> BrokenAsk(w, p, log')
    ensures response.Reply? ==>
      && ReplyStep(w, p, t) && t.replies == p.replies + [response.messages] && t.tools == p.tools
      && t.log == log' && t.entries == cost.entries && t.working == working.items
    ensures response.Reply? ==> cost.Valid() && Tallies(usage', cost.entries, t)
    ensures response.Reply? && NeverOver(w.o, old(cost.entries)) ==> WithinBudget(w.o, cost.entries)
    ensures response.Reply? && NeverOver(w.o, old(cost.entries)) ==>
      (w.o.budget.Some? ==> !Over(w.o.budget.value, cost.entries)) ==> NeverOver(w.o, cost.entries)
  {
    var _ := working.Compact(w.o.compaction, w.o.maxContextTokens);
    ghost var context := working.items;
    assert Shown(w, p, context);
    response := w.chat(|log|, working.items);
    log', t := log + [Asked(working.items)], p;
    if response.ModelThrew? { return response, usage, log', p; }
    usage' := Accumulate(usage, response.usage);
    ghost var e := EntryOf(response.modelId, response.usage, LookupPricing(w.o, response.modelId));
    t := Trace(log', p.replies + [response.messages], p.tools, p.entries + [e],
               p.total + TotalOf(response.usage), p.reported || response.usage.Some?, context + response.messages);
    TallyAppend(usage, p, t, response.modelId, response.usage, LookupPricing(w.o, response.modelId));
    if NeverOver(w.o, cost.entries) { NeverOverAppend(w.o, cost.entries, e); }
    cost.Record(response.modelId, response.usage, LookupPricing(w.o, response.modelId));
    working.items := working.items + response.messages;
  }

  /** Where a turn stands: what was played, what will be returned and what is in the thread and the store. */
  ghost predicate InTurn(w: World, seed: seq<Message>, thread: SmoothAgentThread?, store: InMemoryCheckpointStore?,
                         prior: seq<Message>, before: seq<Checkpoint>, user: Message, newThisTurn: seq<Message>, t: Trace, ids: nat -> string)
    reads thread, store
  {
    && |t.tools| <= |t.replies| <= |t.tools| + 1 && Played(w, seed, t)
    && newThisTurn == Transcript(user, t.replies, t.tools)
    && (thread != null ==> thread.messages == prior)
    && Stored(w.o, thread, store, prior, before, user, t.replies, t.tools, ids)
  }

  /** Checkpoints a reply, if the strategy says so. */
  method SaveReply(o: Options, thread: SmoothAgentThread?, store: InMemoryCheckpointStore?, ghost prior: seq<Message>,
                   ghost before: seq<Checkpoint>, ghost user: Message, ghost replies: seq<seq<Message>>, ghost tools: seq<Message>,
                   ghost reply: seq<Message>, newThisTurn: seq<Message>, iterations: nat, ids: nat -> string)
    requires |tools| == |replies| && iterations == |replies| + 1
    requires thread != null ==> thread.messages == prior
    requires newThisTurn == Transcript(user, replies, tools) + reply
    requires Stored(o, thread, store, prior, before, user, replies, tools, ids)
    modifies store
    ensures newThisTurn == Transcript(user, replies + [reply], tools)
    ensures Stored(o, thread, store, prior, before, user, replies + [reply], tools, ids)
  {
    ghost var t := if thread == null then "" else thread.id;
    TranscriptReply(user, replies, tools, reply);
    ReplyExtends(o.checkpoint, t, prior, user, replies, tools, ids, |before|, reply);
    MaybeCheckpoint(o, thread, store, newThisTurn, iterations, AfterEachIteration, ids);
  }

  /** Checkpoints a tool round, if the strategy says so. */
  method SaveTools(o: Options, thread: SmoothAgentThread?, store: InMemoryCheckpointStore?, ghost prior: seq<Message>,
                   ghost before: seq<Checkpoint>, ghost user: Message, ghost replies: seq<seq<Message>>, ghost tools: seq<Message>,
                   ghost m: Message, newThisTurn: seq<Message>, iterations: nat, ids: nat -> string)
    requires |replies| == |tools| + 1 == iterations
    requires thread != null ==> thread.messages == prior
    requires newThisTurn == Transcript(user, replies, tools) + [m]
    requires Stored(o, thread, store, prior, before, user, replies, tools, ids)
    modifies store
    ensures newThisTurn == Transcript(user, replies, tools + [m])
    ensures Stored(o, thread, store, prior, before, user, replies, tools + [m], ids)
  {
    ghost var t := if thread == null then "" else thread.id;
    TranscriptTool(user, replies, tools, m);
    ToolExtends(o.checkpoint, t, prior, user, replies, tools, ids, |before|, m);
    MaybeCheckpoint(o, thread, store, newThisTurn, iterations, AfterToolCall, ids);
  }

  /** A reply joins the turn. */
  method BookReply(w: World, thread: SmoothAgentThread?, store: InMemoryCheckpointStore?, ghost seed: seq<Message>,
                   ghost prior: seq<Message>, ghost before: seq<Checkpoint>, ghost user: Message, ghost reply: seq<Message>,
                   ghost soFar: seq<Message>, newThisTurn: seq<Message>, iterations: nat, ghost p: Trace, ghost t: Trace, ids: nat -> string)
    requires |p.replies| == |p.tools| == iterations - 1 && newThisTurn == soFar + reply
    requires ReplyStep(w, p, t) && t.replies == p.replies + [reply] && t.tools == p.tools
    requires InTurn(w, seed, thread, store, prior, before, user, soFar, p, ids)
    modifies store
    ensures InTurn(w, seed, thread, store, prior, before, user, newThisTurn, t, ids)
  {
    PlayedNext(w, seed, p, t);
    SaveReply(w.o, thread, store, prior, before, user, p.replies, p.tools, reply, newThisTurn, iterations, ids);
  }

  /** A tool round joins the turn. */
  method BookTools(w: World, thread: SmoothAgentThread?, store: InMemoryCheckpointStore?, ghost seed: seq<Message>,
                   ghost prior: seq<Message>, ghost before: seq<Checkpoint>, ghost user: Message, ghost m: Message,
                   ghost soFar: seq<Message>, newThisTurn: seq<Message>, iterations: nat, ghost p: Trace, ghost t: Trace, ids: nat -> string)
    requires |p.replies| == |p.tools| + 1 == iterations && newThisTurn == soFar + [m]
    requires Played(w, seed, t) && t.replies == p.replies && t.tools == p.tools + [m]
    requires InTurn(w, seed, thread, store, prior, before, user, soFar, p, ids)
    modifies store
    ensures InTurn(w, seed, thread, store, prior, before, user, newThisTurn, t, ids)
  {
    SaveTools(w.o, thread, store, prior, before, user, p.replies, p.tools, m, newThisTurn, iterations, ids);
  }

  /** From compaction to the budget check: the first half of an iteration. */
  method ModelHalf(w: World, working: Conversation, cost: CostTracker, thread: SmoothAgentThread?, store: InMemoryCheckpointStore?,
                   ghost seed: seq<Message>, ghost prior: seq<Message>, ghost before: seq<Checkpoint>, ghost user: Message,
                   newThisTurn: seq<Message>, iterations: nat, usage: Usage, log: seq<Effect>, ghost p: Trace, ids: nat -> string)
    returns (response: ModelReply, usage': Usage, log': seq<Effect>, budgetHit: Option<BudgetExceeded>, ghost t: Trace)
    requires cost.Valid() && Tallies(usage, cost.entries, p) && NeverOver(w.o, cost.entries)
    requires p.log == log && p.entries == cost.entries && p.working == working.items
    requires |p.replies| == |p.tools| == iterations - 1
    requires InTurn(w, seed, thread, store, prior, before, user, newThisTurn, p, ids)
    modifies working, cost, store
    ensures |log'| == |log| + 1 && log'[|log|].Asked?
    ensures response.ModelThrew? ==>
      t == p && BrokenAsk(w, p, log') && InTurn(w, seed, thread, store, prior, before, user, newThisTurn, p, ids)
    ensures response.Reply? ==>
      && t.replies == p.replies + [response.messages] && t.tools == p.tools
      && t.log == log' && t.entries == cost.entries && t.working == working.items
      && cost.Valid() && Tallies(usage', cost.entries, t)
      && WithinBudget(w.o, cost.entries) && (budgetHit.None? ==> NeverOver(w.o, cost.entries))
      && (budgetHit.Some? <==> w.o.budget.Some? && Over(w.o.budget.value, cost.entries))
      && InTurn(w, seed, thread, store, prior, before, user, newThisTurn + response.messages, t, ids)
  {
    budgetHit := None;
    response, usage', log', t := AskModel(w, working, cost, usage, log, p);
    if response.ModelThrew? { return response, usage, log', None, p; }
    if w.o.budget.Some? { budgetHit := cost.ExceedsBudget(w.o.budget.value); }
    BookReply(w, thread, store, seed, prior, before, user, response.messages, newThisTurn,
              newThisTurn + response.messages, iterations, p, t, ids);
  }

  lemma ToolsPlayed(w: World, seed: seq<Message>, reply: seq<Message>, m: Message, p: Trace, t: Trace)
    requires |p.replies| == |p.tools| + 1 && reply == p.replies[|p.tools|] && Answers(reply, m)
    requires Results(w, Calls(reply), |p.log|, m.contents)
    requires t == Trace(p.log + RoundEffects(w, Calls(reply), |p.log|), p.replies, p.tools + [m], p.entries, p.total, p.reported, p.working + [m])
    requires Played(w, seed, p)
    ensures Played(w, seed, t)
  {
    assert [m] == [m];
    PlayedNext(w, seed, p, t);
  }

  /** The tool round, as the turn's next step. */
  method PlayRound(w: World, ghost seed: seq<Message>, reply: seq<Message>, log: seq<Effect>, ghost p: Trace)
    returns (m: Option<Message>, log': seq<Effect>, ghost t: Trace)
    requires |p.replies| == |p.tools| + 1 && reply == p.replies[|p.tools|] && Calls(reply) != []
    requires p.log == log && Played(w, seed, p)
    ensures m.None? ==> t == p && BrokenRound(w, Calls(reply), p.log, log')
    ensures m.Some? ==>
      && t == Trace(log', p.replies, p.tools + [m.value], p.entries, p.total, p.reported, p.working + [m.value])
      && Played(w, seed, t)
  {
    t := p;
    m, log' := ExecuteTools(w, reply, log);
    if m.None? { return; }
    t := Trace(log', p.replies, p.tools + [m.value], p.entries, p.total, p.reported, p.working + [m.value]);
    ToolsPlayed(w, seed, reply, m.value, p, t);
  }

  /** The tool round: the second half of an iteration. */
  method ToolHalf(w: World, working: Conversation, thread: SmoothAgentThread?, store: InMemoryCheckpointStore?,
                  ghost cost: CostTracker, ghost seed: seq<Message>, ghost prior: seq<Message>, ghost before: seq<Checkpoint>,
                  ghost user: Message, reply: seq<Message>, newThisTurn: seq<Message>, iterations: nat,
                  log: seq<Effect>, ghost p: Trace, ids: nat -> string)
    returns (m: Option<Message>, log': seq<Effect>, ghost t: Trace)
    requires cost.Valid() && |p.replies| == |p.tools| + 1 == iterations && reply == p.replies[|p.tools|] && Calls(reply) != []
    requires p.log == log && p.working == working.items
    requires InTurn(w, seed, thread, store, prior, before, user, newThisTurn, p, ids)
    modifies working, store
    ensures cost.Valid() && cost.entries == old(cost.entries)
    ensures m.None? ==>
      t == p && BrokenRound(w, Calls(reply), p.log, log') && InTurn(w, seed, thread, store, prior, before, user, newThisTurn, p, ids)
    ensures m.Some? ==>
      && t == Trace(log', p.replies, p.tools + [m.value], p.entries, p.total, p.reported, working.items)
      && InTurn(w, seed, thread, store, prior, before, user, newThisTurn + [m.value], t, ids)
  {
    m, log', t := PlayRound(w, seed, reply, log, p);
    if m.None? { return; }
    working.items := working.items + [m.value];
    BookTools(w, thread, store, seed, prior, before, user, m.value, newThisTurn, newThisTurn + [m.value], iterations, p, t, ids);
  }

  /** How the turn went: played to its end, or broken off by an exception. `t` is its trace up to there. */
  ghost predicate Accounted(w: World, seed: seq<Message>, end: TurnEnd, log: seq<Effect>, t: Trace) {
    match end
    case Completed(_, usage, _, entries, _) => Played(w, seed, t) && t.log == log && t.entries == entries && Tallies(usage, entries, t)
    case Crashed => BrokeOff(w, seed, t, log)
  }

  /** Played to its end, a trace bears out the report; broken off, it is as safe. */
  lemma TraceIsSafe(w: World, seed: seq<Message>, end: TurnEnd, log: seq<Effect>, t: Trace)
    requires Accounted(w, seed, end, log, t)
    ensures RoundsOk(t.replies, t.tools) && RunsApproved(w, log)
    ensures end.Completed? ==> |t.replies| == |t.entries| == ModelCalls(log)
    ensures end.Crashed? ==> ModelCalls(log) <= |t.tools| + 1
  {
    if end.Completed? { PlayedIsSound(w, seed, t); } else { BrokenIsSafe(w, seed, t, log); }
  }

  lemma ReportIs(o: Options, messages: seq<Message>, usage: Usage, iterations: nat, entries: seq<CostEntry>,
                 budgetHit: Option<BudgetExceeded>, user: Message, t: Trace, log: seq<Effect>)
    requires |t.replies| == |t.tools| + 1 == iterations && messages == Transcript(user, t.replies, t.tools)
    requires (budgetHit.Some? <==> o.budget.Some? && Over(o.budget.value, entries)) && WithinBudget(o, entries)
    requires log != [] && log[|log| - 1].Asked?
    requires budgetHit.Some? || Calls(t.replies[|t.replies| - 1]) == [] || iterations >= o.maxIterations
    ensures ReportOk(o, Completed(messages, usage, iterations, entries, budgetHit), user, t, log)
  {
  }

  /** Where the loop stands before a model call. */
  ghost predicate AtTop(w: World, seed: seq<Message>, working: Conversation, cost: CostTracker, thread: SmoothAgentThread?,
                        store: InMemoryCheckpointStore?, prior: seq<Message>, before: seq<Checkpoint>, user: Message,
                        newThisTurn: seq<Message>, iterations: nat, usage: Usage, log: seq<Effect>, t: Trace, ids: nat -> string)
    reads working, cost, thread, store
  {
    && |t.replies| == |t.tools| == iterations < CallLimit(w.o)
    && t.log == log && t.entries == cost.entries && t.working == working.items
    && cost.Valid() && Tallies(usage, cost.entries, t) && NeverOver(w.o, cost.entries)
    && InTurn(w, seed, thread, store, prior, before, user, newThisTurn, t, ids)
  }

  /** What is true once the turn is over. */
  ghost predicate AtEnd(w: World, seed: seq<Message>, thread: SmoothAgentThread?, store: InMemoryCheckpointStore?, prior: seq<Message>,
                        before: seq<Checkpoint>, user: Message, end: TurnEnd, log: seq<Effect>, t: Trace, ids: nat -> string)
    reads store
  {
    && |t.tools| <= |t.replies| <= |t.tools| + 1 && |t.tools| < CallLimit(w.o)
    && Accounted(w, seed, end, log, t) && ReportOk(w.o, end, user, t, log)
    && Stored(w.o, thread, store, prior, before, user, t.replies, t.tools, ids)
  }

  /** One iteration of the loop; it ends the turn or leaves the loop at its top again. */
  method Iterate(w: World, working: Conversation, cost: CostTracker, thread: SmoothAgentThread?, store: InMemoryCheckpointStore?,
                 ghost seed: seq<Message>, ghost prior: seq<Message>, ghost before: seq<Checkpoint>, ghost user: Message,
                 soFar: seq<Message>, iterations: nat, soMuch: Usage, log: seq<Effect>, ghost p: Trace, ids: nat -> string)
    returns (end: Option<TurnEnd>, newThisTurn: seq<Message>, usage: Usage, log': seq<Effect>, ghost t: Trace)
    requires iterations > 0 && AtTop(w, seed, working, cost, thread, store, prior, before, user, soFar, iterations - 1, soMuch, log, p, ids)
    modifies working, cost, store
    ensures end.Some? ==> AtEnd(w, seed, thread, store, prior, before, user, end.value, log', t, ids)
    ensures end.None? ==> AtTop(w, seed, working, cost, thread, store, prior, before, user, newThisTurn, iterations, usage, log', t, ids)
  {
    var response, budgetHit;
    response, usage, log', budgetHit, t := ModelHalf(w, working, cost, thread, store, seed, prior, before, user,
                                                     soFar, iterations, soMuch, log, p, ids);
    if response.ModelThrew? { return Some(Crashed), soFar, usage, log', t; }
    newThisTurn := soFar + response.messages;
    if budgetHit.Some? || Calls(response.messages) == [] || iterations >= w.o.maxIterations {
      ReportIs(w.o, newThisTurn, usage, iterations, cost.entries, budgetHit, user, t, log');
      return Some(Completed(newThisTurn, usage, iterations, cost.entries, budgetHit)), newThisTurn, usage, log', t;
    }
    var m;
    m, log', t := ToolHalf(w, working, thread, store, cost, seed, prior, before, user, response.messages,
                           newThisTurn, iterations, log', t, ids);
    if m.None? { return Some(Crashed), newThisTurn, usage, log', t; }
    newThisTurn, end := newThisTurn + [m.value], None;
  }

  /** The `while (true)` of a turn. The thread is only read. */
  method Loop(w: World, user: Message, working: Conversation, thread: SmoothAgentThread?, store: InMemoryCheckpointStore?,
              ids: nat -> string)
    returns (end: TurnEnd, log: seq<Effect>, ghost t: Trace)
    modifies working, store
    ensures AtEnd(w, old(working.items), thread, store, if thread == null then [] else thread.messages,
                  if store == null then [] else old(store.checkpoints), user, end, log, t, ids)
  {
    ghost var seed := working.items;
    ghost var prior := if thread == null then [] else thread.messages;
    ghost var before := if store == null then [] else store.checkpoints;
    var newThisTurn := [user];
    var usage := Usage(None, None, None);
    var cost := new CostTracker();
    var iterations := 0;
    log, t := [], Start(seed);
    while true
      invariant fresh(cost)
      invariant thread != null ==> thread.messages == prior
      invariant AtTop(w, seed, working, cost, thread, store, prior, before, user, newThisTurn, iterations, usage, log, t, ids)
      decreases CallLimit(w.o) - iterations
    {
      iterations := iterations + 1;
      var over;
      over, newThisTurn, usage, log, t := Iterate(w, working, cost, thread, store, seed, prior, before, user,
                                                  newThisTurn, iterations, usage, log, t, ids);
      if over.Some? { return over.value, log, t; }
    }
  }

  /**
   * One turn. On a crash, an exception from the model or the human gate, the thread is untouched and the
   * store keeps what was saved so far. The list the model sees is compacted; nothing recorded ever is.
   * `t` is the turn's trace: what the model was shown and answered, which tools ran and what was told of them.
   */
  method RunAsync(w: World, message: string, context: Option<Message>, thread: SmoothAgentThread?,
                  store: InMemoryCheckpointStore?, ids: nat -> string)
    returns (end: TurnEnd, log: seq<Effect>, ghost t: Trace)
    modifies thread, store
    ensures Accounted(w, Seeded(w.o, message, context, if thread == null then [] else old(thread.messages)), end, log, t)
    ensures RoundsOk(t.replies, t.tools) && RunsApproved(w, log) && ModelCalls(log) <= CallLimit(w.o)
    ensures ReportOk(w.o, end, Message(User, [Text(message)]), t, log)
    ensures thread != null && end.Completed? ==> thread.messages == old(thread.messages) + end.messages
    ensures thread != null && end.Crashed? ==> thread.messages == old(thread.messages)
    ensures Stored(w.o, thread, store, if thread == null then [] else old(thread.messages),
                   if store == null then [] else old(store.checkpoints), Message(User, [Text(message)]), t.replies, t.tools, ids)
  {
    var working := Seed(w.o, message, context, if thread == null then [] else thread.messages);
    ghost var seed := working.items;
    end, log, t := Loop(w, Message(User, [Text(message)]), working, thread, store, ids);
    TraceIsSafe(w, seed, end, log, t);
    if thread != null && end.Completed? { thread.messages := thread.messages + end.messages; }
  }

  /** A thread rebuilt from its latest checkpoint, or an empty one. */
  method ResumeThread(store: InMemoryCheckpointStore?, t: string) returns (thread: SmoothAgentThread)
    ensures fresh(thread) && thread.id == t
    ensures thread.messages == if store == null then [] else Resumed(ForThread(store.checkpoints, t))
  {
    thread := new SmoothAgentThread(t);
    if store != null {
      var c := store.LoadLatest(t);
      if c.Some? { thread.messages := thread.messages + c.value.messages; }
    }
  }

  function Resumed(mine: seq<Checkpoint>): seq<Message> { if mine == [] then [] else mine[|mine| - 1].messages }
}
