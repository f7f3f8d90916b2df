/** What the ingestion chunker guarantees: no word lost or moved, bounded chunks, greedy and minimal packing. */
module RustChunkerTheorems {
  import opened RustChunker

  // ----- words of composed texts

  predicate Blank(s: string) { forall i :: 0 <= i < |s| ==> IsWhitespace(s[i]) }

  lemma {:induction false} WordsAround(a: string, c: char, b: string, word: string)
    requires IsWhitespace(c)
    ensures WordsFrom(a + [c] + b, word) == WordsFrom(a, word) + Words(b)
    decreases |a|
  {
    var s := a + [c] + b;
    if a == "" {
      assert s[0] == c && s[1..] == b;
    } else {
      assert s[0] == a[0] && s[1..] == a[1..] + [c] + b;
      WordsAround(a[1..], c, b, if IsWhitespace(a[0]) then "" else word + [a[0]]);
    }
  }

  lemma {:induction false} WordsSkipBlank(sep: string, b: string)
    requires Blank(sep)
    ensures Words(sep + b) == Words(b)
    decreases |sep|
  {
    if sep == "" {
      assert sep + b == b;
    } else {
      assert (sep + b)[1..] == sep[1..] + b;
      WordsSkipBlank(sep[1..], b);
    }
  }

  /** A blank separator keeps the words on both sides apart. */
  lemma WordsSeparated(a: string, sep: string, b: string)
    requires sep != "" && Blank(sep)
    ensures Words(a + sep + b) == Words(a) + Words(b)
  {
    assert a + sep + b == a + [sep[0]] + (sep[1..] + b);
    WordsAround(a, sep[0], sep[1..] + b, "");
    WordsSkipBlank(sep[1..], b);
  }

  lemma {:induction false} WordsTrimStart(s: string)
    ensures Words(TrimStart(s)) == Words(s)
  {
    if s != "" && IsWhitespace(s[0]) { WordsTrimStart(s[1..]); }
  }

  lemma {:induction false} WordsTrimEnd(s: string)
    ensures Words(TrimEnd(s)) == Words(s)
  {
    if s != "" && IsWhitespace(s[|s| - 1]) {
      var n := |s| - 1;
      assert s == s[..n] + [s[n]] + "";
      WordsAround(s[..n], s[n], "", "");
      WordsTrimEnd(s[..n]);
    }
  }

  lemma WordsTrim(s: string)
    ensures Words(Trim(s)) == Words(s)
  {
    WordsTrimStart(s);
    WordsTrimEnd(TrimStart(s));
  }

  lemma {:induction false} WordsFromWord(w: string, word: string)
    requires word + w != "" && forall i :: 0 <= i < |w| ==> !IsWhitespace(w[i])
    ensures WordsFrom(w, word) == [word + w]
    decreases |w|
  {
    if w == "" {
      assert word + w == word;
    } else {
      assert word + w == (word + [w[0]]) + w[1..];
      WordsFromWord(w[1..], word + [w[0]]);
    }
  }

  lemma WordsOfWord(w: string)
    requires IsWord(w)
    ensures Words(w) == [w]
  {
    WordsFromWord(w, "");
    assert "" + w == w;
  }

  lemma {:induction false} AllWordsOfWords(ws: seq<string>)
    requires AreWords(ws)
    ensures AllWords(ws) == ws
  {
    if ws != [] {
      WordsOfWord(ws[0]);
      AllWordsOfWords(ws[1..]);
    }
  }

  lemma {:induction false} AllWordsAppend(a: seq<string>, b: seq<string>)
    ensures AllWords(a + b) == AllWords(a) + AllWords(b)
  {
    if a == [] {
      assert a + b == b;
    } else {
      assert (a + b)[1..] == a[1..] + b;
      AllWordsAppend(a[1..], b);
    }
  }

  lemma {:induction false} WordsOfJoin(ws: seq<string>)
    requires AreWords(ws)
    ensures Words(Join(ws, " ")) == ws
  {
    if |ws| == 1 {
      WordsOfWord(ws[0]);
    } else if ws != [] {
      var n := |ws| - 1;
      WordsOfJoin(ws[..n]);
      WordsSeparated(Join(ws[..n], " "), " ", ws[n]);
      WordsOfWord(ws[n]);
    }
  }

  // ----- paragraphs

  lemma Glue(part: string, s: string, joined: string)
    requires |s| >= 2 && s[0] == '\n' && s[1] == '\n' && joined == "" + s[2..]
    ensures part + "\n\n" + joined == part + s
  {
    assert s == "\n\n" + s[2..] && joined == s[2..];
  }

  /** Splitting loses nothing: joining the parts back gives the text. */
  lemma {:induction false} SplitRejoins(s: string, part: string)
    ensures SplitFrom(s, part) != [] && Join(SplitFrom(s, part), "\n\n") == part + s
    decreases |s|
  {
    if s == "" {
      assert part + s == part;
    } else if |s| >= 2 && s[0] == '\n' && s[1] == '\n' {
      var rest := SplitFrom(s[2..], "");
      SplitRejoins(s[2..], "");
      JoinCons(part, rest, "\n\n");
      Glue(part, s, Join(rest, "\n\n"));
    } else {
      SplitRejoins(s[1..], part + [s[0]]);
      assert part + s == part + [s[0]] + s[1..];
    }
  }

  lemma {:induction false} SplitWords(s: string, part: string)
    ensures AllWords(SplitFrom(s, part)) == Words(part + s)
    decreases |s|
  {
    if s == "" {
      assert part + s == part && AllWords([part]) == Words(part);
    } else if |s| >= 2 && s[0] == '\n' && s[1] == '\n' {
      SplitWords(s[2..], "");
      assert "" + s[2..] == s[2..];
      assert part + s == part + "\n\n" + s[2..];
      WordsSeparated(part, "\n\n", s[2..]);
    } else {
      SplitWords(s[1..], part + [s[0]]);
      assert part + s == part + [s[0]] + s[1..];
    }
  }

  // ----- packing keeps the words

  lemma {:induction false} PackWords(items: seq<string>, current: string, sep: string, max: nat)
    requires sep != "" && Blank(sep)
    ensures AllWords(PackFrom(items, current, sep, max)) == Words(current) + AllWords(items)
    decreases |items|
  {
    if items == [] {
      assert AllWords([current]) == Words(current);
    } else if current == "" {
      PackWords(items[1..], items[0], sep, max);
    } else if |current| + |sep| + |items[0]| <= max {
      PackWords(items[1..], current + sep + items[0], sep, max);
      WordsSeparated(current, sep, items[0]);
    } else {
      PackWords(items[1..], items[0], sep, max);
      AllWordsAppend([current], PackFrom(items[1..], items[0], sep, max));
      assert AllWords([current]) == Words(current);
    }
  }

  lemma UnitWords(para: string, max: nat)
    ensures AllWords(UnitsOf(para, max)) == Words(para)
  {
    var t := Trim(para);
    WordsTrim(para);
    if t != "" && |t| <= max {
      assert AllWords([t]) == Words(t);
    } else if t != "" {
      PackWords(Words(t), "", " ", max);
      WordsAreWords(t);
      AllWordsOfWords(Words(t));
    }
  }

  lemma {:induction false} UnitsWords(paras: seq<string>, max: nat)
    ensures AllWords(Units(paras, max)) == AllWords(paras)
  {
    if paras != [] {
      UnitWords(paras[0], max);
      UnitsWords(paras[1..], max);
      AllWordsAppend(UnitsOf(paras[0], max), Units(paras[1..], max));
    }
  }

  /** The words of the packed chunks, one chunk after the other, are the words of the document. */
  lemma PackedWords(content: string, max: nat)
    ensures AllWords(Packed(content, max)) == Words(content)
  {
    var units := Units(Paragraphs(content), max);
    PackWords(units, "", "\n\n", max);
    UnitsWords(Paragraphs(content), max);
    SplitWords(content, "");
    assert "" + content == content;
  }

  // ----- packing is greedy

  predicate NonEmpty(items: seq<string>) { forall i :: 0 <= i < |items| ==> items[i] != "" }

  /** The items `a` to `b` make a chunk: a single one, or several within the bound. */
  predicate Fits(items: seq<string>, a: nat, b: nat, sep: string, max: nat) {
    a < b <= |items| && (b == a + 1 || |Join(items[a..b], sep)| <= max)
  }

  /** `cuts` divides the items from `from` on, in order, into runs that each make a chunk. */
  predicate Packing(items: seq<string>, from: nat, cuts: seq<nat>, sep: string, max: nat) {
    && |cuts| > 0 && cuts[0] == from && cuts[|cuts| - 1] == |items|
    && forall i :: 0 < i < |cuts| ==> Fits(items, cuts[i - 1], cuts[i], sep, max)
  }

  /** No run could have taken the item after it. */
  predicate Greedy(items: seq<string>, cuts: seq<nat>, sep: string, max: nat) {
    forall i :: 0 < i < |cuts| ==> !Fits(items, cuts[i - 1], cuts[i] + 1, sep, max)
  }

  predicate Joined(items: seq<string>, cuts: seq<nat>, sep: string, chunks: seq<string>) {
    && |chunks| == |cuts| - 1
    && forall i :: 0 < i < |cuts| ==> cuts[i - 1] <= cuts[i] <= |items| && chunks[i - 1] == Join(items[cuts[i - 1]..cuts[i]], sep)
  }

  /** Where the chunks are cut, when the one being filled holds the items `a` to `k`. */
  function Cuts(items: seq<string>, a: nat, k: nat, sep: string, max: nat): (r: seq<nat>)
    requires a < k <= |items|
    ensures |r| >= 2 && r[0] == a
    decreases |items| - k
  {
    if k == |items| then [a, k]
    else if Fits(items, a, k + 1, sep, max) then Cuts(items, a, k + 1, sep, max)
    else [a] + Cuts(items, k, k + 1, sep, max)
  }

  lemma JoinSnoc(items: seq<string>, a: nat, k: nat, sep: string)
    requires a < k < |items|
    ensures Join(items[a..k + 1], sep) == Join(items[a..k], sep) + sep + items[k]
  {
    var run := items[a..k + 1];
    assert run[..|run| - 1] == items[a..k];
  }

  lemma CutsCons(items: seq<string>, a: nat, rest: seq<nat>, sep: string, max: nat)
    requires |rest| > 0 && Packing(items, rest[0], rest, sep, max) && Greedy(items, rest, sep, max)
    requires Fits(items, a, rest[0], sep, max) && !Fits(items, a, rest[0] + 1, sep, max)
    ensures Packing(items, a, [a] + rest, sep, max) && Greedy(items, [a] + rest, sep, max)
  {
  }

  lemma {:induction false} CutsGreedy(items: seq<string>, a: nat, k: nat, sep: string, max: nat)
    requires Fits(items, a, k, sep, max)
    ensures Packing(items, a, Cuts(items, a, k, sep, max), sep, max)
    ensures Greedy(items, Cuts(items, a, k, sep, max), sep, max)
    decreases |items| - k
  {
    if k < |items| {
      if Fits(items, a, k + 1, sep, max) {
        CutsGreedy(items, a, k + 1, sep, max);
      } else {
        CutsGreedy(items, k, k + 1, sep, max);
        CutsCons(items, a, Cuts(items, k, k + 1, sep, max), sep, max);
      }
    }
  }

  lemma {:induction false} CutsJoined(items: seq<string>, a: nat, k: nat, sep: string, max: nat)
    requires Fits(items, a, k, sep, max) && NonEmpty(items) && sep != ""
    ensures Joined(items, Cuts(items, a, k, sep, max), sep, PackFrom(items[k..], Join(items[a..k], sep), sep, max))
    decreases |items| - k
  {
    var current := Join(items[a..k], sep);
    assert current != "" by { if k == a + 1 { assert items[a..k] == [items[a]]; } }
    if k < |items| {
      assert items[k..][1..] == items[k + 1..];
      JoinSnoc(items, a, k, sep);
      if Fits(items, a, k + 1, sep, max) {
        CutsJoined(items, a, k + 1, sep, max);
      } else {
        CutsJoined(items, k, k + 1, sep, max);
        assert items[k..k + 1] == [items[k]];
        JoinedCons(items, a, Cuts(items, k, k + 1, sep, max), sep, PackFrom(items[k + 1..], items[k], sep, max));
      }
    }
  }

  lemma JoinedCons(items: seq<string>, a: nat, rest: seq<nat>, sep: string, more: seq<string>)
    requires |rest| > 0 && a <= rest[0] <= |items| && Joined(items, rest, sep, more)
    ensures Joined(items, [a] + rest, sep, [Join(items[a..rest[0]], sep)] + more)
  {
  }

  ghost predicate PacksAs(items: seq<string>, sep: string, max: nat, cuts: seq<nat>) {
    Packing(items, 0, cuts, sep, max) && Greedy(items, cuts, sep, max) && Joined(items, cuts, sep, Pack(items, sep, max))
  }

  /** The chunks are the runs of a greedy packing. */
  lemma PackIsGreedy(items: seq<string>, sep: string, max: nat)
    requires NonEmpty(items) && sep != ""
    ensures exists cuts :: PacksAs(items, sep, max, cuts)
  {
    if items == [] {
      assert PacksAs(items, sep, max, [0]);
    } else {
      CutsGreedy(items, 0, 1, sep, max);
      CutsJoined(items, 0, 1, sep, max);
      assert items[0..1] == [items[0]];
      assert PacksAs(items, sep, max, Cuts(items, 0, 1, sep, max));
    }
  }

  // ----- greedy packing is minimal

  lemma {:induction false} JoinSuffix(ts: seq<string>, k: nat, sep: string)
    requires k < |ts|
    ensures |Join(ts[k..], sep)| <= |Join(ts, sep)|
    decreases k
  {
    if k == 0 {
      assert ts[0..] == ts;
    } else {
      JoinCons(ts[0], ts[1..], sep);
      assert ts == [ts[0]] + ts[1..] && ts[1..][k - 1..] == ts[k..];
      JoinSuffix(ts[1..], k - 1, sep);
    }
  }

  lemma {:induction false} JoinPrefix(ts: seq<string>, k: nat, sep: string)
    requires k <= |ts|
    ensures |Join(ts[..k], sep)| <= |Join(ts, sep)|
    decreases |ts| - k
  {
    if k == |ts| {
      assert ts[..k] == ts;
    } else {
      var n := |ts| - 1;
      assert ts[..n][..k] == ts[..k];
      JoinPrefix(ts[..n], k, sep);
    }
  }

  lemma FitsLater(items: seq<string>, a: nat, b: nat, d: nat, sep: string, max: nat)
    requires Fits(items, a, d, sep, max) && a <= b < d
    ensures Fits(items, b, d, sep, max)
  {
    var run := items[a..d];
    JoinSuffix(run, b - a, sep);
    assert run[b - a..] == items[b..d];
  }

  lemma FitsSooner(items: seq<string>, b: nat, c: nat, d: nat, sep: string, max: nat)
    requires Fits(items, b, d, sep, max) && b < c <= d
    ensures Fits(items, b, c, sep, max)
  {
    var run := items[b..d];
    JoinPrefix(run, c - b, sep);
    assert run[..c - b] == items[b..c];
  }

  /** A shorter run inside one that fits, fits. */
  lemma FitsWithin(items: seq<string>, a: nat, b: nat, c: nat, d: nat, sep: string, max: nat)
    requires Fits(items, a, d, sep, max) && a <= b < c <= d
    ensures Fits(items, b, c, sep, max)
  {
    FitsLater(items, a, b, d, sep, max);
    FitsSooner(items, b, c, d, sep, max);
  }

  /** After any number of chunks the greedy packing is at least as far as any other. */
  lemma {:induction false} GreedyIsAhead(items: seq<string>, g: seq<nat>, o: seq<nat>, sep: string, max: nat, i: nat)
    requires Packing(items, 0, g, sep, max) && Greedy(items, g, sep, max) && Packing(items, 0, o, sep, max)
    requires i < |g| && i < |o|
    ensures g[i] >= o[i]
  {
    if i > 0 {
      GreedyIsAhead(items, g, o, sep, max, i - 1);
      assert Fits(items, o[i - 1], o[i], sep, max) && Fits(items, g[i - 1], g[i], sep, max);
      if g[i] < o[i] {
        FitsWithin(items, o[i - 1], g[i - 1], g[i] + 1, o[i], sep, max);
        assert false;
      }
    }
  }

  /** No packing of the same items, in order, has fewer chunks. */
  lemma PackIsMinimal(items: seq<string>, sep: string, max: nat, o: seq<nat>)
    requires NonEmpty(items) && sep != "" && Packing(items, 0, o, sep, max)
    ensures |Pack(items, sep, max)| <= |o| - 1
  {
    PackIsGreedy(items, sep, max);
    var g :| PacksAs(items, sep, max, g);
    var n := |o|;
    assert n < |g| ==> Fits(items, g[n - 1], g[n], sep, max);
    if n < |g| { GreedyIsAhead(items, g, o, sep, max, n - 1); }
  }

  // ----- bounds

  /** Within the bound, or one word that is longer. */
  predicate Bounded(t: string, max: nat) { t != "" && (|t| <= max || IsWord(t)) }

  predicate AllBounded(ts: seq<string>, max: nat) { forall i :: 0 <= i < |ts| ==> Bounded(ts[i], max) }

  lemma {:induction false} PackBounded(items: seq<string>, current: string, sep: string, max: nat)
    requires AllBounded(items, max) && (current == "" || Bounded(current, max)) && sep != ""
    ensures AllBounded(PackFrom(items, current, sep, max), max)
    decreases |items|
  {
    if items != [] {
      var item := items[0];
      assert Bounded(item, max);
      PackBounded(items[1..], if current != "" && |current| + |sep| + |item| <= max then current + sep + item else item, sep, max);
    }
  }

  lemma {:induction false} UnitsBounded(paras: seq<string>, max: nat)
    ensures AllBounded(Units(paras, max), max)
  {
    if paras != [] {
      var t := Trim(paras[0]);
      WordsAreWords(t);
      PackBounded(Words(t), "", " ", max);
      UnitsBounded(paras[1..], max);
    }
  }

  /** Every packed chunk is within the bound or a single longer word. */
  lemma PackedBounded(content: string, max: nat)
    ensures AllBounded(Packed(content, max), max)
  {
    UnitsBounded(Paragraphs(content), max);
    PackBounded(Units(Paragraphs(content), max), "", "\n\n", max);
  }

  /** No word of the text is longer than the bound. */
  predicate NoLongWord(s: string, max: nat) { forall i :: 0 <= i < |Words(s)| ==> |Words(s)[i]| <= max }

  lemma {:induction false} WordAmong(ts: seq<string>, i: nat)
    requires i < |ts| && IsWord(ts[i])
    ensures ts[i] in AllWords(ts)
  {
    if i == 0 { WordsOfWord(ts[0]); } else { WordAmong(ts[1..], i - 1); }
  }

  lemma PackedWithin(content: string, max: nat, i: nat)
    requires NoLongWord(content, max) && i < |Packed(content, max)|
    ensures 0 < |Packed(content, max)[i]| <= max
  {
    var chunks := Packed(content, max);
    PackedBounded(content, max);
    PackedWords(content, max);
    assert Bounded(chunks[i], max);
    if IsWord(chunks[i]) { WordAmong(chunks, i); }
  }

  // ----- the overlap

  /** The tail fits, and no longer run of last words does. */
  lemma {:induction false} TailIsLongest(words: seq<string>, overlap: nat, n: nat)
    requires n <= |words|
    ensures |Join(words[|words| - n..], " ")| <= overlap <==> n <= TailCount(words, overlap)
    decreases |words|
  {
    if |Join(words, " ")| <= overlap {
      LongerJoin(words, |words| - n);
    } else if n == |words| {
      assert words[0..] == words;
      TailShorter(words, overlap);
    } else {
      assert words[|words| - n..] == words[1..][|words| - 1 - n..];
      TailIsLongest(words[1..], overlap, n);
    }
  }

  lemma TailShorter(words: seq<string>, overlap: nat)
    requires |Join(words, " ")| > overlap
    ensures TailCount(words, overlap) < |words|
  {
  }

  /** Whole last words, whose joined length stays within the overlap. */
  lemma TailFacts(s: string, overlap: nat)
    ensures AreWords(Tail(s, overlap)) && |Join(Tail(s, overlap), " ")| <= overlap
    ensures Tail(s, overlap) == [] <==> Join(Tail(s, overlap), " ") == ""
  {
    var words := Words(s);
    WordsAreWords(s);
    TailIsLongest(words, overlap, TailCount(words, overlap));
    var tail := Tail(s, overlap);
    if tail != [] { WordsOfJoin(tail); }
  }

  /** Each chunk after the first is the tail of the packed chunk before it, then its own words. */
  lemma OverlapWords(chunks: seq<string>, overlap: nat, i: nat)
    requires 0 < i < |chunks|
    ensures Words(OverlapAt(chunks, overlap, i)) == Tail(chunks[i - 1], overlap) + Words(chunks[i])
    ensures |OverlapAt(chunks, overlap, i)| <= |chunks[i]| + overlap + 1
  {
    var tail := Tail(chunks[i - 1], overlap);
    TailFacts(chunks[i - 1], overlap);
    if tail != [] {
      WordsOfJoin(tail);
      WordsSeparated(Join(tail, " "), " ", chunks[i]);
    }
  }

  /** The words of the first `k` chunks after dropping from each the words repeated from the one before. */
  function Recovered(texts: seq<string>, repeated: seq<nat>, k: nat): seq<string>
    requires |repeated| == |texts| && k <= |texts|
  {
    if k == 0 then []
    else Recovered(texts, repeated, k - 1) + WordsPast(texts[k - 1], repeated[k - 1])
  }

  function WordsPast(text: string, n: nat): seq<string> { if n <= |Words(text)| then Words(text)[n..] else [] }

  /** How many words each output chunk repeats. */
  function Repeats(chunks: seq<string>, overlap: nat): (r: seq<nat>)
    ensures |r| == |chunks|
    ensures forall i :: 0 <= i < |r| ==> r[i] == if i == 0 then 0 else |Tail(chunks[i - 1], overlap)|
  {
    seq(|chunks|, i requires 0 <= i < |chunks| => if i == 0 then 0 else |Tail(chunks[i - 1], overlap)|)
  }

  lemma AllWordsSnoc(chunks: seq<string>, k: nat)
    requires k < |chunks|
    ensures AllWords(chunks[..k + 1]) == AllWords(chunks[..k]) + Words(chunks[k])
  {
    assert chunks[..k + 1] == chunks[..k] + [chunks[k]];
    AllWordsAppend(chunks[..k], [chunks[k]]);
    assert AllWords([chunks[k]]) == Words(chunks[k]) + AllWords([]);
  }

  lemma OwnWords(chunks: seq<string>, overlap: nat, i: nat)
    requires i < |chunks|
    ensures WordsPast(Overlapped(chunks, overlap)[i], Repeats(chunks, overlap)[i]) == Words(chunks[i])
  {
    if i > 0 { OverlapWords(chunks, overlap, i); }
  }

  lemma {:induction false} RecoverPrefix(chunks: seq<string>, overlap: nat, k: nat)
    requires k <= |chunks|
    ensures Recovered(Overlapped(chunks, overlap), Repeats(chunks, overlap), k) == AllWords(chunks[..k])
  {
    if k > 0 {
      RecoverPrefix(chunks, overlap, k - 1);
      OwnWords(chunks, overlap, k - 1);
      AllWordsSnoc(chunks, k - 1);
    }
  }

  /** Dropping the repeated words recovers the document's words, all of them and in order. */
  lemma OverlapRecovers(c: Chunker, content: string)
    ensures |SplitText(c, content)| == |Repeats(Packed(content, c.max), c.overlap)|
    ensures Recovered(SplitText(c, content), Repeats(Packed(content, c.max), c.overlap), |SplitText(c, content)|) == Words(content)
  {
    var chunks := Packed(content, c.max);
    RecoverPrefix(chunks, c.overlap, |chunks|);
    assert chunks[..|chunks|] == chunks;
    PackedWords(content, c.max);
  }

  /** Without a word longer than the bound, no chunk exceeds it by more than the overlap and a space. */
  lemma OutputBounded(max: nat, overlap: nat, content: string, i: nat)
    requires NoLongWord(content, New(max, overlap).max) && i < |SplitText(New(max, overlap), content)|
    ensures var c := New(max, overlap);
      0 < |SplitText(c, content)[i]| <= c.max + c.overlap + 1 <= 2 * c.max
  {
    var c := New(max, overlap);
    PackedWithin(content, c.max, i);
    if i > 0 { OverlapWords(Packed(content, c.max), c.overlap, i); }
  }

  /** The chunks of a document are a greedy, and so a minimal, packing of its units. */
  lemma SplitIsMinimal(content: string, max: nat, o: seq<nat>)
    requires Packing(Units(Paragraphs(content), max), 0, o, "\n\n", max)
    ensures |Packed(content, max)| <= |o| - 1
  {
    UnitsBounded(Paragraphs(content), max);
    assert forall t :: Bounded(t, max) ==> t != "";
    PackIsMinimal(Units(Paragraphs(content), max), "\n\n", max, o);
  }

  lemma SplitIsGreedy(content: string, max: nat)
    ensures exists cuts :: PacksAs(Units(Paragraphs(content), max), "\n\n", max, cuts)
  {
    UnitsBounded(Paragraphs(content), max);
    assert forall t :: Bounded(t, max) ==> t != "";
    PackIsGreedy(Units(Paragraphs(content), max), "\n\n", max);
  }

  lemma {:induction false} WordsBegun(s: string, word: string)
    requires word != ""
    ensures WordsFrom(s, word) != []
    decreases |s|
  {
    if s != "" && !IsWhitespace(s[0]) { WordsBegun(s[1..], word + [s[0]]); }
  }

  lemma {:induction false} TrimStartIs(s: string)
    ensures TrimStart(s) == "" || !IsWhitespace(TrimStart(s)[0])
  {
    if s != "" && IsWhitespace(s[0]) { TrimStartIs(s[1..]); }
  }

  lemma NoWordsNoUnits(para: string, max: nat)
    requires Words(para) == []
    ensures UnitsOf(para, max) == []
  {
    var s := TrimStart(para);
    TrimStartIs(para);
    WordsTrimStart(para);
    if s != "" { WordsBegun(s[1..], "" + [s[0]]); }
  }

  lemma {:induction false} NoWordsNothing(paras: seq<string>, max: nat)
    requires AllWords(paras) == []
    ensures Units(paras, max) == []
  {
    if paras != [] {
      NoWordsNoUnits(paras[0], max);
      NoWordsNothing(paras[1..], max);
    }
  }

  /** A document without words gives no chunks, and any other gives some. */
  lemma EmptyIff(c: Chunker, content: string)
    ensures SplitText(c, content) == [] <==> Words(content) == []
  {
    PackedWords(content, c.max);
    if Words(content) == [] {
      SplitWords(content, "");
      assert "" + content == content;
      NoWordsNothing(Paragraphs(content), c.max);
    }
  }
}
