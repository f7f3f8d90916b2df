/** Messages, and trimming a conversation to its token budget. */
module Compaction {

  datatype Role = System | User | Assistant | Tool

  datatype Content =
    | Text(text: string)
    | Call(callId: string, name: string, arguments: string)
    | Result(callId: string, result: string)

  datatype Message = Message(role: Role, contents: seq<Content>)

  /** `message.Text`: the text parts, concatenated. */
  function TextOf(cs: seq<Content>): string {
    if cs == [] then "" else (if cs[0].Text? then cs[0].text else "") + TextOf(cs[1..])
  }

  /** The length of a text in UTF-16 code units, which is what .NET counts. */
  function Units(s: string): nat {
    if s == "" then 0 else Units(s[1..]) + if s[0] as int >= 0x1_0000 then 2 else 1
  }

  /** Four tokens, and one for every four units of text. */
  function Tokens(m: Message): (n: nat)
    ensures n >= 4 && 4 * (n - 4) <= Units(TextOf(m.contents)) < 4 * (n - 4) + 4
  {
    Units(TextOf(m.contents)) / 4 + 4
  }

  /** The text of a message is its text parts in order, and their lengths add up. */
  lemma {:induction false} TextAppend(a: seq<Content>, b: seq<Content>)
    ensures TextOf(a + b) == TextOf(a) + TextOf(b)
  {
    if a == [] {
      assert a + b == b;
    } else {
      TextAppend(a[1..], b);
      assert (a + b)[1..] == a[1..] + b;
    }
  }

  lemma {:induction false} UnitsAppend(s: string, t: string)
    ensures Units(s + t) == Units(s) + Units(t)
  {
    if s == "" {
      assert s + t == t;
    } else {
      UnitsAppend(s[1..], t);
      assert (s + t)[1..] == s[1..] + t;
    }
  }

  /** A text takes one unit per character, and one more for each beyond the basic plane. */
  lemma {:induction false} UnitsCount(s: string)
    ensures |s| <= Units(s) <= 2 * |s|
    ensures Units(s) == |s| <==> forall i :: 0 <= i < |s| ==> s[i] as int < 0x1_0000
    ensures Units(s) == 2 * |s| <==> forall i :: 0 <= i < |s| ==> s[i] as int >= 0x1_0000
  {
    if s != "" {
      var t := s[1..];
      UnitsCount(t);
      assert forall i :: 0 < i < |s| ==> s[i] == t[i - 1];
      assert forall i :: 0 <= i < |t| ==> t[i] == s[i + 1];
    }
  }

  function EstimateTokens(ms: seq<Message>): nat {
    if ms == [] then 0 else Tokens(ms[0]) + EstimateTokens(ms[1..])
  }

  lemma {:induction false} EstimateSplit(a: seq<Message>, b: seq<Message>)
    ensures EstimateTokens(a + b) == EstimateTokens(a) + EstimateTokens(b)
  {
    if a == [] {
      assert a + b == b;
    } else {
      EstimateSplit(a[1..], b);
      assert (a + b)[1..] == a[1..] + b;
    }
  }

  datatype Strategy = NoCompaction | SlidingWindow

  datatype CompactionResult = CompactionResult(removed: nat, tokensBefore: nat, tokensAfter: nat)

  /** How many leading messages are never dropped. */
  function HeadLen(ms: seq<Message>): nat { if ms != [] && ms[0].role == System then 1 else 0 }

  /** The conversation without the `d` oldest droppable messages. */
  function Without(ms: seq<Message>, d: nat): seq<Message>
    requires HeadLen(ms) + d <= |ms|
  {
    ms[..HeadLen(ms)] + ms[HeadLen(ms) + d..]
  }

  predicate LeftAlone(ms: seq<Message>, strategy: Strategy, maxTokens: int) {
    strategy == NoCompaction || EstimateTokens(ms) <= maxTokens || |ms| <= 2
  }

  /**
   * The leading system message, if any, then the longest suffix of the rest that fits the budget,
   * or just the last message when no suffix fits.
   */
  ghost predicate Compacted(ms: seq<Message>, strategy: Strategy, maxTokens: int, removed: nat) {
    if LeftAlone(ms, strategy, maxTokens) then removed == 0
    else
      && HeadLen(ms) + removed < |ms|
      && (EstimateTokens(Without(ms, removed)) <= maxTokens || HeadLen(ms) + removed == |ms| - 1)
      && (forall d :: 0 <= d < removed ==> EstimateTokens(Without(ms, d)) > maxTokens)
  }

  /** What is left of the conversation. */
  ghost predicate CompactedTo(ms: seq<Message>, strategy: Strategy, maxTokens: int, left: seq<Message>) {
    exists removed: nat :: HeadLen(ms) + removed <= |ms| && Compacted(ms, strategy, maxTokens, removed) && left == Without(ms, removed)
  }

  lemma WithoutNext(ms: seq<Message>, d: nat)
    requires HeadLen(ms) + d < |ms|
    ensures var h, w := HeadLen(ms), Without(ms, d); w[..h] + w[h + 1..] == Without(ms, d + 1)
  {
  }

  /** The final message is never dropped. */
  lemma LastKept(ms: seq<Message>, strategy: Strategy, maxTokens: int, removed: nat)
    requires Compacted(ms, strategy, maxTokens, removed) && ms != []
    ensures var w := Without(ms, removed); w != [] && w[|w| - 1] == ms[|ms| - 1]
  {
  }

  /** A mutable list of messages. */
  class Conversation {
    var items: seq<Message>

    constructor (items: seq<Message>)
      ensures this.items == items
    {
      this.items := items;
    }

    method Compact(strategy: Strategy, maxTokens: int) returns (r: CompactionResult)
      modifies this
      ensures Compacted(old(items), strategy, maxTokens, r.removed)
      ensures HeadLen(old(items)) + r.removed <= |old(items)| && items == Without(old(items), r.removed)
      ensures r.tokensBefore == EstimateTokens(old(items)) && r.tokensAfter == EstimateTokens(items)
    {
      var before := EstimateTokens(items);
      if strategy == NoCompaction || before <= maxTokens || |items| <= 2 {
        assert Without(items, 0) == items;
        return CompactionResult(0, before, before);
      }
      var removed := Trim(if items[0].role == System then 1 else 0, maxTokens);
      return CompactionResult(removed, before, EstimateTokens(items));
    }

    /** The loop of `Compact`. */
    method Trim(firstDroppable: nat, maxTokens: int) returns (removed: nat)
      requires firstDroppable == HeadLen(items) < |items|
      modifies this
      ensures HeadLen(old(items)) + removed < |old(items)| && items == Without(old(items), removed)
      ensures EstimateTokens(items) <= maxTokens || HeadLen(old(items)) + removed == |old(items)| - 1
      ensures forall d :: 0 <= d < removed ==> EstimateTokens(Without(old(items), d)) > maxTokens
    {
      removed := 0;
      ghost var ms := items;
      assert Without(ms, 0) == ms;
      while EstimateTokens(items) > maxTokens && |items| - firstDroppable > 1
        invariant firstDroppable == HeadLen(ms) && HeadLen(ms) + removed < |ms| && items == Without(ms, removed)
        invariant forall d :: 0 <= d < removed ==> EstimateTokens(Without(ms, d)) > maxTokens
        decreases |items|
      {
        WithoutNext(ms, removed);
        items := items[..firstDroppable] + items[firstDroppable + 1..];
        removed := removed + 1;
      }
    }
  }

  lemma SuffixCostsLess(ms: seq<Message>, i: nat, j: nat)
    requires i <= j <= |ms|
    ensures EstimateTokens(ms[j..]) <= EstimateTokens(ms[i..])
  {
    assert ms[i..] == ms[i..j] + ms[j..];
    EstimateSplit(ms[i..j], ms[j..]);
  }

  /** Dropping more never costs more. */
  lemma WithoutShrinks(ms: seq<Message>, d: nat, e: nat)
    requires d <= e && HeadLen(ms) + e <= |ms|
    ensures EstimateTokens(Without(ms, e)) <= EstimateTokens(Without(ms, d))
  {
    var h := HeadLen(ms);
    EstimateSplit(ms[..h], ms[h + d..]);
    EstimateSplit(ms[..h], ms[h + e..]);
    SuffixCostsLess(ms, h + d, h + e);
  }

  /**
   * When a message survives. The live user message is kept while it is the last message, but once tool
   * results follow it, only when everything from it on still fits.
   */
  lemma KeptIff(ms: seq<Message>, strategy: Strategy, maxTokens: int, removed: nat, u: nat)
    requires Compacted(ms, strategy, maxTokens, removed) && HeadLen(ms) <= u < |ms|
    ensures HeadLen(ms) + removed <= u <==>
      || strategy == NoCompaction || |ms| <= 2 || u == |ms| - 1
      || EstimateTokens(Without(ms, u - HeadLen(ms))) <= maxTokens
  {
    var h := HeadLen(ms);
    if !LeftAlone(ms, strategy, maxTokens) {
      if h + removed <= u {
        WithoutShrinks(ms, removed, u - h);
      } else {
        assert EstimateTokens(Without(ms, u - h)) > maxTokens;
      }
    } else if EstimateTokens(ms) <= maxTokens {
      assert Without(ms, 0) == ms;
      WithoutShrinks(ms, 0, u - h);
    }
  }

  function ToolRound(): seq<Message> {
    [Message(User, [Text("hi")]), Message(Assistant, []), Message(Tool, [])]
  }

  lemma ToolRoundTokens()
    ensures EstimateTokens(ToolRound()) == 12 && EstimateTokens(ToolRound()[1..]) == 8
  {
    var ms := ToolRound();
    assert TextOf([Text("hi")]) == "hi" by { assert [Text("hi")][1..] == []; }
    assert Units("hi") == 2 by { assert "hi"[1..] == "i" && "i"[1..] == ""; }
    assert Tokens(ms[0]) == 4 && Tokens(ms[1]) == 4 && Tokens(ms[2]) == 4;
    assert ms[2..][1..] == [] && ms[1..][1..] == ms[2..];
    assert EstimateTokens(ms[2..]) == 4;
  }

  lemma ToolRoundWithout()
    ensures HeadLen(ToolRound()) == 0 && Without(ToolRound(), 0) == ToolRound() && Without(ToolRound(), 1) == ToolRound()[1..]
  {
  }

  /** A conversation whose user message does not survive: the promise holds only for the last message. */
  lemma UserMessageCanBeDropped()
    ensures Compacted(ToolRound(), SlidingWindow, 8, 1) && ToolRound()[0] !in Without(ToolRound(), 1)
  {
    var ms := ToolRound();
    ToolRoundTokens();
    ToolRoundWithout();
    assert !LeftAlone(ms, SlidingWindow, 8);
    var rest := ms[1..];
    assert rest == [ms[1], ms[2]] && ms[0].role == User && ms[1].role == Assistant && ms[2].role == Tool;
  }
}
