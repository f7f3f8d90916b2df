/**
 * The ingestion chunker: blank-line paragraphs, oversized ones split between words, packed greedily
 * up to `max` characters, and each chunk prefixed with the last words of the one before.
 */
module RustChunker {

  datatype Chunker = Chunker(max: nat, overlap: nat)

  /** What the constructor guarantees of every chunker. */
  predicate Clamped(c: Chunker) { c.overlap < c.max }

  function New(max: nat, overlap: nat): (c: Chunker)
    ensures Clamped(c) && c.max == if max == 0 then 1 else max
    ensures c.overlap == overlap || (c.overlap == c.max - 1 && overlap >= c.max)
  {
    var m := if max < 1 then 1 else max;
    Chunker(m, if overlap < m - 1 then overlap else m - 1)
  }

  predicate IsWhitespace(c: char) {
    || '\U{9}' <= c <= '\U{D}' || c == ' ' || c == '\U{85}' || c == '\U{A0}' || c == '\U{1680}'
    || '\U{2000}' <= c <= '\U{200A}' || c == '\U{2028}' || c == '\U{2029}' || c == '\U{202F}' || c == '\U{205F}' || c == '\U{3000}'
  }

  // ----- words, paragraphs and trimming

  /** The words of `word + s`, where `word` is the part of a word already read. */
  function WordsFrom(s: string, word: string): seq<string> {
    var done := if word == "" then [] else [word];
    if s == "" then done
    else if IsWhitespace(s[0]) then done + WordsFrom(s[1..], "")
    else WordsFrom(s[1..], word + [s[0]])
  }

  function Words(s: string): seq<string> { WordsFrom(s, "") }

  function AllWords(ts: seq<string>): seq<string> {
    if ts == [] then [] else Words(ts[0]) + AllWords(ts[1..])
  }

  /** The parts of `part + s` between occurrences of two newlines. */
  function SplitFrom(s: string, part: string): seq<string> {
    if s == "" then [part]
    else if |s| >= 2 && s[0] == '\n' && s[1] == '\n' then [part] + SplitFrom(s[2..], "")
    else SplitFrom(s[1..], part + [s[0]])
  }

  function Paragraphs(s: string): seq<string> { SplitFrom(s, "") }

  function TrimStart(s: string): string { if s != "" && IsWhitespace(s[0]) then TrimStart(s[1..]) else s }

  function TrimEnd(s: string): string { if s != "" && IsWhitespace(s[|s| - 1]) then TrimEnd(s[..|s| - 1]) else s }

  function Trim(s: string): string { TrimEnd(TrimStart(s)) }

  function Join(ts: seq<string>, sep: string): string {
    if ts == [] then "" else if |ts| == 1 then ts[0] else Join(ts[..|ts| - 1], sep) + sep + ts[|ts| - 1]
  }

  // ----- packing

  /** Items joined by `sep` for as long as the result stays within `max`; `current` is the chunk being filled. */
  function PackFrom(items: seq<string>, current: string, sep: string, max: nat): seq<string> {
    if items == [] then (if current == "" then [] else [current])
    else if current == "" then PackFrom(items[1..], items[0], sep, max)
    else if |current| + |sep| + |items[0]| <= max then PackFrom(items[1..], current + sep + items[0], sep, max)
    else [current] + PackFrom(items[1..], items[0], sep, max)
  }

  function Pack(items: seq<string>, sep: string, max: nat): seq<string> { PackFrom(items, "", sep, max) }

  /** What one paragraph contributes. */
  function UnitsOf(para: string, max: nat): seq<string> {
    var t := Trim(para);
    if t == "" then [] else if |t| <= max then [t] else Pack(Words(t), " ", max)
  }

  function Units(paras: seq<string>, max: nat): seq<string> {
    if paras == [] then [] else UnitsOf(paras[0], max) + Units(paras[1..], max)
  }

  /** The chunks before the overlap is added. */
  function Packed(content: string, max: nat): seq<string> { Pack(Units(Paragraphs(content), max), "\n\n", max) }

  // ----- overlap

  /** How many of the last words fit in `overlap` characters, joined by spaces. */
  function TailCount(words: seq<string>, overlap: nat): (n: nat)
    ensures n <= |words|
  {
    if words == [] || |Join(words, " ")| <= overlap then |words| else TailCount(words[1..], overlap)
  }

  function Tail(s: string, overlap: nat): seq<string> {
    var words := Words(s);
    words[|words| - TailCount(words, overlap)..]
  }

  function Prefixed(tail: string, chunk: string): string { if tail == "" then chunk else tail + " " + chunk }

  function OverlapAt(chunks: seq<string>, overlap: nat, i: nat): (r: string)
    requires i < |chunks|
    ensures |r| >= |chunks[i]| && r[|r| - |chunks[i]|..] == chunks[i]
  {
    if i == 0 then chunks[0] else Prefixed(Join(Tail(chunks[i - 1], overlap), " "), chunks[i])
  }

  function Overlapped(chunks: seq<string>, overlap: nat): (r: seq<string>)
    ensures |r| == |chunks| && forall i :: 0 <= i < |r| ==> r[i] == OverlapAt(chunks, overlap, i)
  {
    seq(|chunks|, i requires 0 <= i < |chunks| => OverlapAt(chunks, overlap, i))
  }

  function SplitText(c: Chunker, content: string): seq<string> { Overlapped(Packed(content, c.max), c.overlap) }

  // ----- the loops

  /** One step of filling the current chunk. */
  lemma PackStep(items: seq<string>, i: nat, current: string, sep: string, max: nat)
    requires i < |items|
    ensures var item, rest := items[i], items[i + 1..];
      PackFrom(items[i..], current, sep, max) ==
      if current == "" then PackFrom(rest, item, sep, max)
      else if |current| + |sep| + |item| <= max then PackFrom(rest, current + sep + item, sep, max)
      else [current] + PackFrom(rest, item, sep, max)
  {
    assert items[i..][1..] == items[i + 1..];
  }

  method HardSplitWords(c: Chunker, para: string) returns (out: seq<string>)
    ensures out == Pack(Words(para), " ", c.max)
  {
    out := [];
    var current := "";
    var words := Words(para);
    assert words[0..] == words;
    for i := 0 to |words|
      invariant out + PackFrom(words[i..], current, " ", c.max) == Pack(words, " ", c.max)
    {
      var word := words[i];
      PackStep(words, i, current, " ", c.max);
      if current == "" {
        current := word;
      } else if |current| + 1 + |word| > c.max {
        out := out + [current];
        current := word;
      } else {
        current := current + " ";
        current := current + word;
      }
    }
    if current != "" { out := out + [current]; }
  }

  method CollectUnits(c: Chunker, content: string) returns (units: seq<string>)
    ensures units == Units(Paragraphs(content), c.max)
  {
    units := [];
    var paras := Paragraphs(content);
    assert paras[0..] == paras;
    for i := 0 to |paras|
      invariant units + Units(paras[i..], c.max) == Units(paras, c.max)
    {
      UnitsStep(units, paras, i, c.max);
      var trimmed := Trim(paras[i]);
      if trimmed == "" { continue; }
      if |trimmed| <= c.max {
        units := units + [trimmed];
      } else {
        var more := HardSplitWords(c, trimmed);
        units := units + more;
      }
    }
  }

  lemma UnitsStep(units: seq<string>, paras: seq<string>, i: nat, max: nat)
    requires i < |paras|
    ensures units + Units(paras[i..], max) ==
            (if Trim(paras[i]) == "" then units
             else if |Trim(paras[i])| <= max then units + [Trim(paras[i])]
             else units + Pack(Words(Trim(paras[i])), " ", max)) + Units(paras[i + 1..], max)
  {
    assert paras[i..][1..] == paras[i + 1..];
    assert Units(paras[i..], max) == UnitsOf(paras[i], max) + Units(paras[i + 1..], max);
  }

  method Split(c: Chunker, content: string) returns (texts: seq<string>)
    ensures texts == SplitText(c, content)
  {
    var units := CollectUnits(c, content);
    var chunks: seq<string> := [];
    var current := "";
    assert units[0..] == units;
    for i := 0 to |units|
      invariant chunks + PackFrom(units[i..], current, "\n\n", c.max) == Pack(units, "\n\n", c.max)
    {
      var unit := units[i];
      PackStep(units, i, current, "\n\n", c.max);
      if current == "" {
        current := unit;
      } else if |current| + 2 + |unit| <= c.max {
        current := current + "\n\n";
        current := current + unit;
      } else {
        chunks := chunks + [current];
        current := unit;
      }
    }
    if current != "" { chunks := chunks + [current]; }
    texts := ApplyOverlap(c, chunks);
  }

  method ApplyOverlap(c: Chunker, chunks: seq<string>) returns (out: seq<string>)
    ensures out == Overlapped(chunks, c.overlap)
  {
    if c.overlap == 0 || |chunks| < 2 {
      NoOverlap(chunks, c.overlap);
      return chunks;
    }
    out := [];
    for i := 0 to |chunks|
      invariant |out| == i && forall j :: 0 <= j < i ==> out[j] == OverlapAt(chunks, c.overlap, j)
    {
      if i == 0 {
        out := out + [chunks[i]];
        continue;
      }
      var tail := TrailingWords(c, chunks[i - 1]);
      if tail == "" {
        out := out + [chunks[i]];
      } else {
        out := out + [tail + " " + chunks[i]];
      }
    }
  }

  lemma NoOverlap(chunks: seq<string>, overlap: nat)
    requires overlap == 0 || |chunks| < 2
    ensures Overlapped(chunks, overlap) == chunks
  {
    forall i | 0 <= i < |chunks| ensures OverlapAt(chunks, overlap, i) == chunks[i] {
      if i > 0 {
        WordsAreWords(chunks[i - 1]);
        NoTail(Words(chunks[i - 1]));
        assert Tail(chunks[i - 1], overlap) == [];
      }
    }
  }

  method TrailingWords(c: Chunker, s: string) returns (tail: string)
    ensures tail == Join(Tail(s, c.overlap), " ")
  {
    var words := Words(s);
    var n := |words|;
    var take, len := 0, 0;
    while take < n
      invariant 0 <= take <= n && len == |Join(words[n - take..], " ")| <= c.overlap
    {
      var add := |words[n - 1 - take]| + if take > 0 then 1 else 0;
      JoinGrows(words, n - take);
      if len + add > c.overlap {
        TailIs(words, c.overlap, take);
        break;
      }
      len := len + add;
      take := take + 1;
    }
    if take == n { TailIs(words, c.overlap, take); }
    if take == 0 { return ""; }
    tail := Join(words[n - take..], " ");
  }

  // ----- words

  /** Not empty and without whitespace. */
  predicate IsWord(w: string) { w != "" && forall i :: 0 <= i < |w| ==> !IsWhitespace(w[i]) }

  predicate AreWords(ws: seq<string>) { forall i :: 0 <= i < |ws| ==> IsWord(ws[i]) }

  lemma {:induction false} WordsFromAreWords(s: string, word: string)
    requires word == "" || IsWord(word)
    ensures AreWords(WordsFrom(s, word))
    decreases |s|
  {
    if s != "" {
      if IsWhitespace(s[0]) { WordsFromAreWords(s[1..], ""); } else { WordsFromAreWords(s[1..], word + [s[0]]); }
    }
  }

  lemma WordsAreWords(s: string)
    ensures AreWords(Words(s))
  {
    WordsFromAreWords(s, "");
  }

  /** The length of a join grows by the item put in front and a separator. */
  lemma {:induction false} JoinCons(w: string, ts: seq<string>, sep: string)
    ensures Join([w] + ts, sep) == if ts == [] then w else w + sep + Join(ts, sep)
  {
    var all := [w] + ts;
    if |ts| >= 2 {
      var n := |ts| - 1;
      JoinCons(w, ts[..n], sep);
      assert all[..|all| - 1] == [w] + ts[..n];
    }
  }

  lemma JoinGrows(words: seq<string>, k: nat)
    requires k <= |words|
    ensures k > 0 ==> |Join(words[k - 1..], " ")| == |words[k - 1]| + (if k < |words| then 1 else 0) + |Join(words[k..], " ")|
  {
    if k > 0 {
      JoinCons(words[k - 1], words[k..], " ");
      assert words[k - 1..] == [words[k - 1]] + words[k..];
    }
  }

  /** The count is right when that many words fit and one more would not. */
  lemma {:induction false} TailIs(words: seq<string>, overlap: nat, take: nat)
    requires take <= |words| && |Join(words[|words| - take..], " ")| <= overlap
    requires take < |words| ==> |Join(words[|words| - take - 1..], " ")| > overlap
    ensures TailCount(words, overlap) == take
    decreases |words|
  {
    var n := |words|;
    if take == n {
      assert words[n - take..] == words;
    } else {
      LongerJoin(words, n - take - 1);
      var rest := words[1..];
      assert rest[n - 1 - take..] == words[n - take..];
      if take < n - 1 { assert rest[n - 1 - take - 1..] == words[n - take - 1..]; }
      TailIs(rest, overlap, take);
    }
  }

  /** A join of more words is no shorter. */
  lemma {:induction false} LongerJoin(words: seq<string>, k: nat)
    requires k <= |words|
    ensures |Join(words, " ")| >= |Join(words[k..], " ")|
    decreases k
  {
    if k == 0 {
      assert words[0..] == words;
    } else {
      LongerJoin(words, k - 1);
      JoinGrows(words, k);
    }
  }

  lemma {:induction false} NoTail(words: seq<string>)
    requires AreWords(words)
    ensures TailCount(words, 0) == 0
  {
    if words != [] {
      JoinGrows(words, 1);
      assert words[0..] == words;
      NoTail(words[1..]);
    }
  }
}
