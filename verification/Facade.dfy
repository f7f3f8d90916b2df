/** The chat-client facade of the .NET client: token deltas, then whatever the final response adds to them. */
module Facade {
  import opened Wire
  import opened SessionStore
  import opened Server
  import opened ServerTheorems

  function JoinParts(parts: seq<Option<string>>): string {
    if parts == [] then ""
    else
      var n := |parts| - 1;
      var before := JoinParts(parts[..n]);
      if parts[n].None? then before
      else if exists i :: 0 <= i < n && parts[i].Some? then before + " " + parts[n].value
      else parts[n].value
  }

  /** The reply text of a final response. */
  function ExtractText(response: Response): string {
    match response
    case NoResponse => ""
    case Plain(text) => text
    case Parts(parts) => JoinParts(parts)
    case Raw(json) => json
  }

  /** The parts that are strings, in order. */
  function Strings(parts: seq<Option<string>>): seq<string> {
    if parts == [] then []
    else if parts[0].Some? then [parts[0].value] + Strings(parts[1..])
    else Strings(parts[1..])
  }

  /** The strings with one space between each and the next. */
  function Spaced(ts: seq<string>): string {
    if ts == [] then "" else if |ts| == 1 then ts[0] else ts[0] + " " + Spaced(ts[1..])
  }

  lemma {:induction false} StringsSnoc(parts: seq<Option<string>>, p: Option<string>)
    ensures Strings(parts + [p]) == if p.Some? then Strings(parts) + [p.value] else Strings(parts)
    ensures Strings(parts) != [] <==> exists i :: 0 <= i < |parts| && parts[i].Some?
  {
    var all := parts + [p];
    if parts == [] {
      assert all[1..] == [];
    } else {
      StringsSnoc(parts[1..], p);
      assert all[1..] == parts[1..] + [p] && all[0] == parts[0];
      assert forall i :: 0 <= i < |parts| - 1 ==> parts[1..][i] == parts[i + 1];
      if i :| 0 <= i < |parts| && parts[i].Some? { assert i > 0 ==> parts[1..][i - 1].Some?; }
    }
  }

  lemma {:induction false} SpacedSnoc(ts: seq<string>, t: string)
    ensures Spaced(ts + [t]) == if ts == [] then t else Spaced(ts) + " " + t
  {
    if |ts| > 0 {
      SpacedSnoc(ts[1..], t);
      assert (ts + [t])[1..] == ts[1..] + [t];
    }
  }

  /** The reply is its string parts, in order, one space apart. */
  lemma {:induction false} PartsAreSpaced(parts: seq<Option<string>>)
    ensures JoinParts(parts) == Spaced(Strings(parts))
  {
    if parts != [] {
      var n := |parts| - 1;
      PartsAreSpaced(parts[..n]);
      StringsSnoc(parts[..n], parts[n]);
      if parts[n].Some? { SpacedSnoc(Strings(parts[..n]), parts[n].value); }
      assert parts == parts[..n] + [parts[n]];
    }
  }

  function Concat(updates: seq<string>): string {
    if updates == [] then "" else Concat(updates[..|updates| - 1]) + updates[|updates| - 1]
  }

  /** What the final text adds to the text already streamed. */
  function Remainder(streamed: string, final: string): string {
    if streamed <= final then final[|streamed|..] else ""
  }

  /** The text a consumer of the updates ends up with. */
  function Rendered(events: seq<Event>): string {
    if events == [] then ""
    else
      var front, b := events[..|events| - 1], events[|events| - 1].body;
      Rendered(front)
      + match b
        case StreamToken(token) => token
        case Eventual(_, _, response, _) => Remainder(Tokens(front), ExtractText(response))
        case _ => ""
  }

  lemma ConcatSnoc(updates: seq<string>, u: string)
    ensures Concat(updates + [u]) == Concat(updates) + u
  {
    assert (updates + [u])[..|updates|] == updates;
  }

  /** The streaming loop over the events of a turn. */
  method StreamingResponse(events: seq<Event>) returns (updates: seq<string>)
    ensures Concat(updates) == Rendered(events)
  {
    updates := [];
    var emittedAnyText := false;
    var streamed := "";
    for i := 0 to |events|
      invariant Concat(updates) == Rendered(events[..i])
      invariant streamed == Tokens(events[..i]) && (emittedAnyText <==> streamed != "")
    {
      assert events[..i + 1][..i] == events[..i];
      match events[i].body
      case StreamToken(delta) =>
        if delta != "" {
          emittedAnyText := true;
          streamed := streamed + delta;
          ConcatSnoc(updates, delta);
          updates := updates + [delta];
        }
      case Eventual(_, _, response, _) =>
        var final := ExtractText(response);
        var toEmit := final;
        if emittedAnyText {
          toEmit := if streamed <= final then final[|streamed|..] else "";
        }
        ConcatSnoc(updates, toEmit);
        updates := updates + [toEmit];
      case _ =>
    }
    assert events[..|events|] == events;
  }

  lemma {:induction false} RenderedTokens(events: seq<Event>)
    requires forall i :: 0 <= i < |events| ==> !Terminal(events[i])
    ensures Rendered(events) == Tokens(events)
  {
    if events != [] { RenderedTokens(events[..|events| - 1]); }
  }

  lemma Completes(streamed: string, final: string)
    ensures streamed + Remainder(streamed, final) == if streamed <= final then final else streamed
  {
  }

  lemma RenderedIs(events: seq<Event>)
    requires Complete(events) && events[|events| - 1].body.Eventual?
    ensures Rendered(events) == Tokens(events) + Remainder(Tokens(events), ExtractText(events[|events| - 1].body.response))
  {
    var front := events[..|events| - 1];
    RenderedTokens(front);
    assert Tokens(events) == Tokens(front);
  }

  /** A consumer ends up with the final text exactly when the streamed tokens are a prefix of it. */
  lemma RendersFinalIff(events: seq<Event>)
    requires Complete(events) && events[|events| - 1].body.Eventual?
    ensures Rendered(events) == ExtractText(events[|events| - 1].body.response)
            <==> Tokens(events) <= ExtractText(events[|events| - 1].body.response)
  {
    RenderedIs(events);
    Completes(Tokens(events), ExtractText(events[|events| - 1].body.response));
  }

  lemma OnePart(text: string)
    ensures ExtractText(Parts([Some(text)])) == text
  {
    assert [Some(text)][..0] == [];
  }

  lemma ReplyRenders(events: seq<Event>, reply: string)
    requires Complete(events) && events[|events| - 1].body.Eventual?
    requires events[|events| - 1].body.response == Parts([Some(reply)]) && Tokens(events) == reply
    ensures Rendered(events) == reply
  {
    OnePart(reply);
    RendersFinalIff(events);
  }

  /** For the server's own traces, the updates of a turn that went through concatenate to the stored reply. */
  lemma FacadeGivesReply(st: Store, f: Frame, env: Env)
    requires f.Object? && Accepted(st, f, env) && !TurnFails(st, ConversationOf(st, f, env), IdOf(f.message), env)
    ensures Rendered(SendMessage(st, f, env).events) == ReplyTo(st, f, env)
  {
    SendTrace(st, f, env);
    ReplyConserved(st, f, env);
    ReplyStreamed(st, f, env);
    ReplyRenders(SendMessage(st, f, env).events, ReplyTo(st, f, env));
  }
}
