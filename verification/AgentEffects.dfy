/**
 * What an agent run asks of the outside world and does to it. The model, the tools, the approval callback and the
 * human are arbitrary oracles, and the log of a run's effects says in which order they were used.
 */
module AgentEffects {
  import opened Wire
  import opened Compaction
  import opened Cost

  datatype CheckpointStrategy = Never | AfterEachIteration | AfterToolCall

  datatype Options = Options(
    instructions: string, maxIterations: int, compaction: Strategy, maxContextTokens: int,
    functions: set<string>, gated: bool, pricing: map<string, Pricing>, budget: Option<Budget>,
    checkpoint: CheckpointStrategy)

  // ----- oracles: the n-th effect of the run, given what the code passes in

  datatype ModelReply = Reply(messages: seq<Message>, modelId: Option<string>, usage: Option<Usage>) | ModelThrew

  datatype ToolOutcome = Returned(value: string) | ToolThrew(message: string)

  datatype FlagOutcome = Flagged | NotFlagged | FlagThrew

  datatype Decision = Approved | Denied(reason: Option<string>) | GateThrew

  /** The agent's options and the world around it. */
  datatype World = World(
    o: Options,
    chat: (nat, seq<Message>) -> ModelReply,
    tools: (nat, Content) -> ToolOutcome,
    flagged: (nat, Content) -> FlagOutcome,
    gate: (nat, Content) -> Decision)

  /** What a run asked of the outside world and what it did to it, in order. */
  datatype Effect =
    | Asked(context: seq<Message>)
    | Judged(call: Content, answer: FlagOutcome)
    | Approval(call: Content, granted: bool)
    | Ran(call: Content)

  // ----- tool calls

  function CallsIn(cs: seq<Content>): seq<Content> {
    if cs == [] then [] else (if cs[0].Call? then [cs[0]] else []) + CallsIn(cs[1..])
  }

  /** `ExtractToolCalls` */
  function Calls(ms: seq<Message>): (r: seq<Content>)
    ensures forall i :: 0 <= i < |r| ==> r[i].Call?
  {
    if ms == [] then [] else (CallsAreCalls(ms[0].contents); CallsIn(ms[0].contents)) + Calls(ms[1..])
  }

  lemma {:induction false} CallsAreCalls(cs: seq<Content>)
    ensures forall i :: 0 <= i < |CallsIn(cs)| ==> CallsIn(cs)[i].Call?
  {
    if cs != [] { CallsAreCalls(cs[1..]); }
  }

  /** Every call among the contents is taken, in order, and nothing else. */
  lemma {:induction false} CallsInAppend(cs: seq<Content>, c: Content)
    ensures CallsIn(cs + [c]) == if c.Call? then CallsIn(cs) + [c] else CallsIn(cs)
  {
    if cs == [] {
      assert (cs + [c])[1..] == [];
    } else {
      assert (cs + [c])[0] == cs[0] && (cs + [c])[1..] == cs[1..] + [c];
      CallsInAppend(cs[1..], c);
      assert CallsIn(cs) == (if cs[0].Call? then [cs[0]] else []) + CallsIn(cs[1..]);
    }
  }

  /** The calls of a reply are those of each of its messages, in order. */
  lemma {:induction false} CallsAppend(ms: seq<Message>, m: Message)
    ensures Calls(ms + [m]) == Calls(ms) + CallsIn(m.contents)
  {
    if ms == [] {
      assert (ms + [m])[1..] == [];
    } else {
      assert (ms + [m])[1..] == ms[1..] + [m];
      CallsAppend(ms[1..], m);
    }
  }

  /** A tool message answers the calls of a reply: one result for each call, same ids, same order. */
  predicate Answers(reply: seq<Message>, m: Message) {
    && m.role == Tool && Calls(reply) != [] && |m.contents| == |Calls(reply)|
    && (forall i :: 0 <= i < |m.contents| ==> m.contents[i].Result? && m.contents[i].callId == Calls(reply)[i].callId)
  }

  // ----- one call

  predicate Known(w: World, call: Content) { call.Call? && call.name in w.o.functions }

  /** The tool may run: it is known, and the callback waved the call through or a human granted it. */
  predicate Allowed(w: World, call: Content, n: nat) {
    && Known(w, call)
    && (w.o.gated ==>
          || w.flagged(n, call).NotFlagged?
          || (w.flagged(n, call).Flagged? && w.gate(n + 1, call).Approved?))
  }

  /** A human said no. */
  predicate Refused(w: World, call: Content, n: nat) {
    Known(w, call) && w.o.gated && w.flagged(n, call).Flagged? && w.gate(n + 1, call).Denied?
  }

  /** The exception of the callback or of the gate ends the run. */
  predicate Escapes(w: World, call: Content, n: nat) {
    && Known(w, call) && w.o.gated
    && (w.flagged(n, call).FlagThrew? || (w.flagged(n, call).Flagged? && w.gate(n + 1, call).GateThrew?))
  }

  /** What is logged before the tool runs, if it does: the callback's judgement, and the human's. */
  function Judgement(w: World, call: Content, n: nat): seq<Effect> {
    if !Known(w, call) || !w.o.gated then []
    else if w.flagged(n, call).Flagged? && !w.gate(n + 1, call).GateThrew? then
      [Judged(call, Flagged), Approval(call, w.gate(n + 1, call).Approved?)]
    else [Judged(call, w.flagged(n, call))]
  }

  /** What one call does to a log that is `n` long. */
  function EffectsOf(w: World, call: Content, n: nat): seq<Effect> {
    if Allowed(w, call, n) then Judgement(w, call, n) + [Ran(call)] else Judgement(w, call, n)
  }

  /** The calls that ran, in order. */
  function RanIn(log: seq<Effect>): seq<Content> {
    if log == [] then []
    else
      var before, e := RanIn(log[..|log| - 1]), log[|log| - 1];
      if e.Ran? then before + [e.call] else before
  }

  lemma RanSnoc(log: seq<Effect>, e: Effect)
    ensures RanIn(log + [e]) == if e.Ran? then RanIn(log) + [e.call] else RanIn(log)
  {
    assert (log + [e])[..|log|] == log;
  }

  lemma {:induction false} RanAppend(a: seq<Effect>, b: seq<Effect>)
    ensures RanIn(a + b) == RanIn(a) + RanIn(b)
  {
    if b == [] {
      assert a + b == a;
    } else {
      var b', e := b[..|b| - 1], b[|b| - 1];
      RanAppend(a, b');
      assert a + b == (a + b') + [e] && b == b' + [e];
      RanSnoc(a + b', e);
      RanSnoc(b', e);
      if e.Ran? { assert RanIn(b) == RanIn(b') + [e.call]; } else { assert RanIn(b) == RanIn(b'); }
    }
  }

  lemma JudgementRunsNothing(w: World, call: Content, n: nat)
    ensures RanIn(Judgement(w, call, n)) == []
  {
    var e := Judgement(w, call, n);
    if |e| > 1 { assert e[..1] == [e[0]] && e == [e[0]] + [e[1]]; RanSnoc([e[0]], e[1]); }
    if |e| > 0 { assert [e[0]] == [] + [e[0]]; RanSnoc([], e[0]); }
  }

  lemma RanJoin(a: seq<Effect>, b: seq<Effect>, r: seq<Effect>, x: seq<Content>, y: seq<Content>, z: seq<Content>)
    requires z == x + y && r == a + b && RanIn(a) == x && RanIn(b) == y
    ensures RanIn(r) == z
  {
    RanAppend(a, b);
  }

  function OnceIf(b: bool, call: Content): seq<Content> { if b then [call] else [] }

  /** An allowed call runs, once and as the last thing; any other does not run. */
  lemma RunsIffAllowed(w: World, call: Content, n: nat)
    ensures RanIn(EffectsOf(w, call, n)) == OnceIf(Allowed(w, call, n), call)
    ensures var e := EffectsOf(w, call, n); Allowed(w, call, n) ==> e != [] && e[|e| - 1] == Ran(call)
    ensures !Known(w, call) ==> EffectsOf(w, call, n) == []
  {
    JudgementRunsNothing(w, call, n);
    RanSnoc(Judgement(w, call, n), Ran(call));
  }

  /** The text the model is given for a call made when the log was `n` long. */
  predicate Told(w: World, call: Content, n: nat, text: string) {
    && call.Call?
    && (!Known(w, call) ==> text == "Error: unknown tool '" + call.name + "'")
    && (Refused(w, call, n) ==>
          match w.gate(n + 1, call).reason
          case Some(reason) => text == "Denied by human: " + reason
          case None => text == "Denied by human: no reason given")
    && (Allowed(w, call, n) ==>
          match w.tools(n + |EffectsOf(w, call, n)| - 1, call)
          case Returned(value) => text == value
          case ToolThrew(message) => text == "Error: " + message)
  }

  // ----- one round

  /** What a call does to a log of the given length. */
  type Behaviour = (Content, nat) -> seq<Effect>

  /** What calls do to a log that is `n` long, one after the other. */
  function InTurn(f: Behaviour, calls: seq<Content>, n: nat): seq<Effect> {
    if calls == [] then []
    else
      var before := InTurn(f, calls[..|calls| - 1], n);
      before + f(calls[|calls| - 1], n + |before|)
  }

  lemma InTurnSnoc(f: Behaviour, calls: seq<Content>, n: nat, i: nat)
    requires i < |calls|
    ensures var before := InTurn(f, calls[..i], n); InTurn(f, calls[..i + 1], n) == before + f(calls[i], n + |before|)
  {
    assert calls[..i + 1][..i] == calls[..i];
  }

  lemma LogSnoc(f: Behaviour, calls: seq<Content>, log: seq<Effect>, i: nat)
    requires i < |calls|
    ensures var before := log + InTurn(f, calls[..i], |log|);
            |log| + |InTurn(f, calls[..i], |log|)| == |before| && log + InTurn(f, calls[..i + 1], |log|) == before + f(calls[i], |before|)
  {
    InTurnSnoc(f, calls, |log|, i);
  }

  /** Those of the calls that pass the test, made at the length the log then has, in order. */
  function Passing(f: Behaviour, test: (Content, nat) -> bool, calls: seq<Content>, n: nat): seq<Content> {
    if calls == [] then []
    else
      var before, call := calls[..|calls| - 1], calls[|calls| - 1];
      Passing(f, test, before, n) + OnceIf(test(call, n + |InTurn(f, before, n)|), call)
  }

  lemma {:induction false} PassingRun(f: Behaviour, test: (Content, nat) -> bool, calls: seq<Content>, n: nat)
    requires forall c: Content, k: nat :: RanIn(f(c, k)) == OnceIf(test(c, k), c)
    ensures RanIn(InTurn(f, calls, n)) == Passing(f, test, calls, n)
  {
    if calls != [] {
      var before, call := calls[..|calls| - 1], calls[|calls| - 1];
      PassingRun(f, test, before, n);
      var k := n + |InTurn(f, before, n)|;
      RanJoin(InTurn(f, before, n), f(call, k), InTurn(f, calls, n),
              Passing(f, test, before, n), OnceIf(test(call, k), call), Passing(f, test, calls, n));
    }
  }

  function Does(w: World): Behaviour { (call: Content, n: nat) => EffectsOf(w, call, n) }

  /** What the calls of one reply do. */
  function RoundEffects(w: World, calls: seq<Content>, n: nat): seq<Effect> { InTurn(Does(w), calls, n) }

  /** How long the log is when the `i`-th call of the round is made. */
  function StartOf(w: World, calls: seq<Content>, n: nat, i: nat): nat
    requires i <= |calls|
  {
    n + |RoundEffects(w, calls[..i], n)|
  }

  lemma RoundSnoc(w: World, calls: seq<Content>, log: seq<Effect>, i: nat)
    requires i < |calls|
    ensures var before := log + RoundEffects(w, calls[..i], |log|);
            StartOf(w, calls, |log|, i) == |before| && log + RoundEffects(w, calls[..i + 1], |log|) == before + EffectsOf(w, calls[i], |before|)
  {
    LogSnoc(Does(w), calls, log, i);
  }

  /** The calls of a round that may run, in order. */
  function AllowedOf(w: World, calls: seq<Content>, n: nat): seq<Content> {
    Passing(Does(w), (call: Content, k: nat) => Allowed(w, call, k), calls, n)
  }

  /** The calls a round runs are exactly the allowed ones, each once, in order. */
  lemma RoundRunsAllowed(w: World, calls: seq<Content>, n: nat)
    ensures RanIn(RoundEffects(w, calls, n)) == AllowedOf(w, calls, n)
  {
    var test := (call: Content, k: nat) => Allowed(w, call, k);
    forall c: Content, k: nat ensures RanIn(Does(w)(c, k)) == OnceIf(test(c, k), c) { RunsIffAllowed(w, c, k); }
    PassingRun(Does(w), test, calls, n);
  }

  lemma RoundRan(w: World, calls: seq<Content>, log: seq<Effect>, log': seq<Effect>)
    requires log' == log + RoundEffects(w, calls, |log|)
    ensures RanIn(log') == RanIn(log) + AllowedOf(w, calls, |log|)
  {
    RoundRunsAllowed(w, calls, |log|);
    RanAppend(log, RoundEffects(w, calls, |log|));
  }

  /** One result for each call, under its id and in order, telling what came of it. */
  predicate Results(w: World, calls: seq<Content>, n: nat, results: seq<Content>) {
    && |results| <= |calls|
    && (forall i {:trigger results[i]} :: 0 <= i < |results| ==>
          results[i].Result? && calls[i].Call? && results[i].callId == calls[i].callId
          && Told(w, calls[i], StartOf(w, calls, n, i), results[i].result))
  }

  // ----- a whole turn

  /** What a turn has done so far, and the working list the model will be shown. */
  datatype Trace = Trace(
    log: seq<Effect>, replies: seq<seq<Message>>, tools: seq<Message>, entries: seq<CostEntry>, total: int,
    reported: bool, working: seq<Message>)

  function LookupPricing(o: Options, modelId: Option<string>): Option<Pricing> {
    if modelId.Some? && modelId.value in o.pricing then Some(o.pricing[modelId.value]) else None
  }

  function TotalOf(usage: Option<Usage>): int { if usage.Some? then OrZero(usage.value.total) else 0 }

  ghost predicate Shown(w: World, p: Trace, context: seq<Message>) {
    CompactedTo(p.working, w.o.compaction, w.o.maxContextTokens, context)
  }

  /** The model is shown the compacted working list; what it answers is booked and joins the list. */
  ghost predicate ReplyStep(w: World, p: Trace, t: Trace) {
    && |p.replies| == |p.tools|
    && exists context: seq<Message> {:trigger Asked(context)} ::
         && Shown(w, p, context)
         && var answer := w.chat(|p.log|, context);
         && answer.Reply?
         && t == Trace(p.log + [Asked(context)], p.replies + [answer.messages], p.tools,
                       p.entries + [EntryOf(answer.modelId, answer.usage, LookupPricing(w.o, answer.modelId))],
                       p.total + TotalOf(answer.usage), p.reported || answer.usage.Some?, context + answer.messages)
  }

  /** The calls of the last reply are made, and one message with their results joins the list. */
  ghost predicate ToolStep(w: World, p: Trace, t: Trace) {
    && |p.replies| == |p.tools| + 1
    && var calls := Calls(p.replies[|p.tools|]);
    && calls != []
    && exists m: Message {:trigger [m]} ::
         && m.role == Tool && |m.contents| == |calls| && Results(w, calls, |p.log|, m.contents)
         && t == Trace(p.log + RoundEffects(w, calls, |p.log|), p.replies, p.tools + [m], p.entries, p.total, p.reported, p.working + [m])
  }

  function Start(seed: seq<Message>): Trace { Trace([], [], [], [], 0, false, seed) }

  function Rounds(t: Trace): nat { |t.replies| + |t.tools| }

  /** `t` comes about from the seeded list by model calls and tool rounds in turn. */
  ghost predicate Played(w: World, seed: seq<Message>, t: Trace)
    decreases Rounds(t)
  {
    || t == Start(seed)
    || exists p: Trace {:trigger ReplyStep(w, p, t)} {:trigger ToolStep(w, p, t)} ::
         Rounds(p) < Rounds(t) && Played(w, seed, p) && (ReplyStep(w, p, t) || ToolStep(w, p, t))
  }

  lemma PlayedNext(w: World, seed: seq<Message>, p: Trace, t: Trace)
    requires Played(w, seed, p) && (ReplyStep(w, p, t) || ToolStep(w, p, t))
    ensures Played(w, seed, t)
  {
    assert Rounds(p) < Rounds(t);
  }

  /** The model threw. */
  ghost predicate BrokenAsk(w: World, p: Trace, log: seq<Effect>) {
    exists context: seq<Message> {:trigger Asked(context)} ::
      Shown(w, p, context) && log == p.log + [Asked(context)] && w.chat(|p.log|, context).ModelThrew?
  }

  /** The round stopped at a call that escaped. */
  ghost predicate BrokenRound(w: World, calls: seq<Content>, before: seq<Effect>, log: seq<Effect>) {
    exists i: nat {:trigger calls[i]} :: i < |calls| && Escapes(w, calls[i], StartOf(w, calls, |before|, i))
      && log == before + RoundEffects(w, calls[..i + 1], |before|)
  }

  /** A turn that an exception ended: of the model, or of the gate or its callback on a call of the last reply. */
  ghost predicate BrokeOff(w: World, seed: seq<Message>, p: Trace, log: seq<Effect>) {
    && Played(w, seed, p)
    && if |p.replies| == |p.tools| then BrokenAsk(w, p, log)
       else |p.replies| == |p.tools| + 1 && BrokenRound(w, Calls(p.replies[|p.tools|]), p.log, log)
  }

  // ----- safety of the effects

  /**
   * With a gate, a tool runs only right after the callback said of that very call that it needs no approval, or a
   * human granted it; a human is asked only right after the callback said that it does. The log tells what they said.
   */
  predicate ApprovedAt(w: World, log: seq<Effect>, j: nat)
    requires j < |log|
  {
    match log[j]
    case Asked(_) => true
    case Judged(call, answer) => w.o.gated && answer == w.flagged(j, call)
    case Approval(call, granted) => w.o.gated && j > 0 && log[j - 1] == Judged(call, Flagged) && granted == w.gate(j, call).Approved?
    case Ran(call) =>
      && call.Call? && call.name in w.o.functions
      && (w.o.gated ==> j > 0 && (log[j - 1] == Judged(call, NotFlagged) || log[j - 1] == Approval(call, true)))
  }

  ghost predicate RunsApproved(w: World, log: seq<Effect>) {
    forall j: nat :: j < |log| ==> ApprovedAt(w, log, j)
  }

  lemma AppendApproved(w: World, log: seq<Effect>, e: Effect)
    requires RunsApproved(w, log) && ApprovedAt(w, log + [e], |log|)
    ensures RunsApproved(w, log + [e])
  {
    forall j: nat | j < |log + [e]| ensures ApprovedAt(w, log + [e], j) {
      if j < |log| { assert ApprovedAt(w, log, j); }
    }
  }

  /** A call the callback flagged did not run unless a human granted it. */
  lemma FlaggedNeedsApproval(w: World, log: seq<Effect>, j: nat)
    requires RunsApproved(w, log) && w.o.gated && j < |log| && log[j].Ran?
    ensures j > 0 && !log[j - 1].Asked? && log[j - 1].call == log[j].call
    ensures w.flagged(j - 1, log[j].call) == NotFlagged
            || (j > 1 && w.flagged(j - 2, log[j].call) == Flagged && w.gate(j - 1, log[j].call).Approved?)
  {
    assert ApprovedAt(w, log, j);
    assert ApprovedAt(w, log, j - 1);
    if log[j - 1].Approval? { assert ApprovedAt(w, log, j - 2); }
  }

  /** What one call does keeps the log safe. */
  lemma CallKeeps(w: World, call: Content, log: seq<Effect>)
    requires RunsApproved(w, log)
    ensures RunsApproved(w, log + EffectsOf(w, call, |log|))
  {
    var e := EffectsOf(w, call, |log|);
    assert log + [] == log;
    if |e| > 0 { AppendApproved(w, log, e[0]); assert e[..1] == [e[0]]; }
    if |e| > 1 { AppendApproved(w, log + e[..1], e[1]); assert log + e[..1] + [e[1]] == log + e[..2]; }
    if |e| > 2 { AppendApproved(w, log + e[..2], e[2]); assert log + e[..2] + [e[2]] == log + e[..3]; }
    assert e[..|e|] == e;
  }

  lemma {:induction false} InTurnKeeps(w: World, f: Behaviour, calls: seq<Content>, log: seq<Effect>)
    requires RunsApproved(w, log)
    requires forall c: Content, l: seq<Effect> :: RunsApproved(w, l) ==> RunsApproved(w, l + f(c, |l|))
    ensures RunsApproved(w, log + InTurn(f, calls, |log|))
  {
    if calls == [] {
      assert log + [] == log;
    } else {
      var before, call := InTurn(f, calls[..|calls| - 1], |log|), calls[|calls| - 1];
      InTurnKeeps(w, f, calls[..|calls| - 1], log);
      assert log + InTurn(f, calls, |log|) == (log + before) + f(call, |log + before|);
    }
  }

  lemma RoundKeeps(w: World, calls: seq<Content>, log: seq<Effect>)
    requires RunsApproved(w, log)
    ensures RunsApproved(w, log + RoundEffects(w, calls, |log|))
  {
    forall c: Content, l: seq<Effect> | RunsApproved(w, l) ensures RunsApproved(w, l + Does(w)(c, |l|)) { CallKeeps(w, c, l); }
    InTurnKeeps(w, Does(w), calls, log);
  }

  // ----- how often the model is asked

  function ModelCalls(log: seq<Effect>): nat {
    if log == [] then 0 else ModelCalls(log[..|log| - 1]) + if log[|log| - 1].Asked? then 1 else 0
  }

  lemma ModelCallsAppend(log: seq<Effect>, e: Effect)
    ensures ModelCalls(log + [e]) == ModelCalls(log) + if e.Asked? then 1 else 0
  {
    assert (log + [e])[..|log|] == log;
  }

  predicate AsksNothing(es: seq<Effect>) { forall i :: 0 <= i < |es| ==> !es[i].Asked? }

  lemma {:induction false} QuietKeepsCount(log: seq<Effect>, es: seq<Effect>)
    requires AsksNothing(es)
    ensures ModelCalls(log + es) == ModelCalls(log)
  {
    if es == [] {
      assert log + es == log;
    } else {
      var before, e := es[..|es| - 1], es[|es| - 1];
      QuietKeepsCount(log, before);
      assert log + es == (log + before) + [e];
      ModelCallsAppend(log + before, e);
    }
  }

  lemma {:induction false} InTurnAsksNothing(f: Behaviour, calls: seq<Content>, n: nat)
    requires forall c: Content, k: nat :: AsksNothing(f(c, k))
    ensures AsksNothing(InTurn(f, calls, n))
  {
    if calls != [] { InTurnAsksNothing(f, calls[..|calls| - 1], n); }
  }

  lemma RoundAsksNothing(w: World, calls: seq<Content>, n: nat)
    ensures AsksNothing(RoundEffects(w, calls, n))
  {
    assert forall c: Content, k: nat :: AsksNothing(Does(w)(c, k));
    InTurnAsksNothing(Does(w), calls, n);
  }

  // ----- what every trace of a turn satisfies

  /** Replies and tool messages alternate, each round answered; the last reply may stand alone. */
  ghost predicate RoundsOk(replies: seq<seq<Message>>, tools: seq<Message>) {
    && |tools| <= |replies| <= |tools| + 1
    && (forall i :: 0 <= i < |tools| ==> Answers(replies[i], tools[i]))
  }

  ghost predicate Sound(w: World, t: Trace) {
    && RoundsOk(t.replies, t.tools) && RunsApproved(w, t.log)
    && |t.entries| == |t.replies| == ModelCalls(t.log)
  }

  lemma ReplyKeepsSound(w: World, p: Trace, t: Trace)
    requires Sound(w, p) && ReplyStep(w, p, t)
    ensures Sound(w, t)
  {
    var e := t.log[|p.log|];
    assert t.log == p.log + [e];
    AppendApproved(w, p.log, e);
    ModelCallsAppend(p.log, e);
  }

  lemma ToolsKeepSound(w: World, p: Trace, t: Trace)
    requires Sound(w, p) && ToolStep(w, p, t)
    ensures Sound(w, t)
  {
    var calls := Calls(p.replies[|p.tools|]);
    RoundKeeps(w, calls, p.log);
    RoundAsksNothing(w, calls, |p.log|);
    QuietKeepsCount(p.log, RoundEffects(w, calls, |p.log|));
  }

  lemma {:induction false} PlayedIsSound(w: World, seed: seq<Message>, t: Trace)
    requires Played(w, seed, t)
    ensures Sound(w, t)
    decreases Rounds(t)
  {
    if t != Start(seed) {
      var p: Trace :| Rounds(p) < Rounds(t) && Played(w, seed, p) && (ReplyStep(w, p, t) || ToolStep(w, p, t));
      PlayedIsSound(w, seed, p);
      if ReplyStep(w, p, t) { ReplyKeepsSound(w, p, t); } else { ToolsKeepSound(w, p, t); }
    }
  }

  /** A turn that broke off is as safe as one that did not. */
  lemma BrokenIsSafe(w: World, seed: seq<Message>, p: Trace, log: seq<Effect>)
    requires BrokeOff(w, seed, p, log)
    ensures RoundsOk(p.replies, p.tools) && RunsApproved(w, log) && ModelCalls(log) <= |p.tools| + 1
  {
    PlayedIsSound(w, seed, p);
    if |p.replies| == |p.tools| {
      var e := log[|p.log|];
      assert log == p.log + [e];
      AppendApproved(w, p.log, e);
      ModelCallsAppend(p.log, e);
    } else {
      var calls := Calls(p.replies[|p.tools|]);
      var i: nat :| i < |calls| && log == p.log + RoundEffects(w, calls[..i + 1], |p.log|);
      RoundKeeps(w, calls[..i + 1], p.log);
      RoundAsksNothing(w, calls[..i + 1], |p.log|);
      QuietKeepsCount(p.log, RoundEffects(w, calls[..i + 1], |p.log|));
    }
  }
}
