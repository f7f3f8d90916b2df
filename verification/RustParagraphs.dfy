/** Where the ingestion chunker divides a document: at its blank lines, and inside a paragraph only between words. */
module RustParagraphs {
  import opened RustChunker
  import opened RustChunkerTheorems

  // ----- blank lines

  predicate BlankLineAt(s: string, i: int) { 0 <= i < |s| - 1 && s[i] == '\n' && s[i + 1] == '\n' }

  ghost predicate NoBlankLine(s: string) { forall i :: !BlankLineAt(s, i) }

  predicate EndsLine(s: string) { s != "" && s[|s| - 1] == '\n' }

  /** No part has a blank line in it, and none before the last ends a line, so that each division is the earliest one. */
  ghost predicate Divided(parts: seq<string>) {
    && parts != []
    && (forall i :: 0 <= i < |parts| ==> NoBlankLine(parts[i]))
    && (forall i :: 0 <= i < |parts| - 1 ==> !EndsLine(parts[i]))
  }

  lemma NoBlankLineSnoc(part: string, c: char)
    requires NoBlankLine(part) && (EndsLine(part) ==> c != '\n')
    ensures NoBlankLine(part + [c])
  {
    forall i ensures !BlankLineAt(part + [c], i) { assert !BlankLineAt(part, i); }
  }

  lemma DividedCons(part: string, rest: seq<string>)
    requires Divided(rest) && NoBlankLine(part) && !EndsLine(part)
    ensures Divided([part] + rest)
  {
    var all := [part] + rest;
    forall i | 0 <= i < |all| ensures NoBlankLine(all[i]) && (i < |all| - 1 ==> !EndsLine(all[i])) {
      if i > 0 { assert all[i] == rest[i - 1]; }
    }
  }

  lemma {:induction false} SplitDivides(s: string, part: string)
    requires NoBlankLine(part) && (EndsLine(part) && s != "" ==> s[0] != '\n')
    ensures Divided(SplitFrom(s, part))
    decreases |s|
  {
    if s == "" {
    } else if |s| >= 2 && s[0] == '\n' && s[1] == '\n' {
      SplitDivides(s[2..], "");
      DividedCons(part, SplitFrom(s[2..], ""));
    } else {
      NoBlankLineSnoc(part, s[0]);
      SplitDivides(s[1..], part + [s[0]]);
    }
  }

  lemma ParagraphsDivide(s: string)
    ensures Divided(Paragraphs(s)) && Join(Paragraphs(s), "\n\n") == s
  {
    SplitDivides(s, "");
    SplitRejoins(s, "");
    assert "" + s == s;
  }

  /** The text of a division after its first part. */
  function Later(parts: seq<string>): string
    requires parts != []
  {
    if |parts| == 1 then "" else "\n\n" + Join(parts[1..], "\n\n")
  }

  lemma Reassociate(a: string, b: string, c: string)
    ensures a + b + c == a + (b + c)
  {
  }

  lemma FirstAndLater(parts: seq<string>, first: string, rest: seq<string>)
    requires parts == [first] + rest
    ensures Join(parts, "\n\n") == first + Later(parts)
  {
    JoinCons(first, rest, "\n\n");
    if rest != [] {
      assert parts[1..] == rest;
      Reassociate(first, "\n\n", Join(rest, "\n\n"));
    }
  }

  /** A part that reaches past another one, followed by a blank line, has a blank line in it or stops half-way through one. */
  lemma LongerFirst(p: string, x: string, q: string, y: string)
    requires p + x == q + y && (x != "" ==> |x| >= 2 && x[0] == '\n' && x[1] == '\n') && |p| < |q|
    ensures BlankLineAt(q, |p|) || (EndsLine(q) && y != "")
  {
    var s, n := p + x, |p|;
    assert s[n] == x[0] && s[n + 1] == x[1] && q[n] == s[n];
    if n + 1 < |q| { assert q[n + 1] == s[n + 1]; }
  }

  /** Two divisions of one text do not differ in their first part. */
  lemma FirstNotShorter(a: seq<string>, b: seq<string>)
    requires Divided(a) && Divided(b) && a[0] + Later(a) == b[0] + Later(b)
    ensures |a[0]| >= |b[0]|
  {
    if |a[0]| < |b[0]| { LongerFirst(a[0], Later(a), b[0], Later(b)); }
  }

  lemma DividedRest(parts: seq<string>)
    requires Divided(parts) && |parts| > 1
    ensures Divided(parts[1..])
  {
    var rest := parts[1..];
    forall i | 0 <= i < |rest| ensures NoBlankLine(rest[i]) && (i < |rest| - 1 ==> !EndsLine(rest[i])) {
      assert rest[i] == parts[i + 1];
    }
  }

  lemma SameCut(p: string, x: string, q: string, y: string)
    requires p + x == q + y && |p| == |q|
    ensures p == q && x == y
  {
    assert p == (p + x)[..|p|] && x == (p + x)[|p|..] && q == (q + y)[..|p|] && y == (q + y)[|p|..];
  }

  lemma SameFirst(a: seq<string>, b: seq<string>)
    requires Divided(a) && Divided(b) && Join(a, "\n\n") == Join(b, "\n\n")
    ensures a[0] == b[0] && Later(a) == Later(b)
  {
    assert a == [a[0]] + a[1..] && b == [b[0]] + b[1..];
    FirstAndLater(a, a[0], a[1..]);
    FirstAndLater(b, b[0], b[1..]);
    FirstNotShorter(a, b);
    FirstNotShorter(b, a);
    SameCut(a[0], Later(a), b[0], Later(b));
  }

  lemma SameLater(a: seq<string>, b: seq<string>)
    requires a != [] && b != [] && Later(a) == Later(b)
    ensures |a| == 1 <==> |b| == 1
    ensures |a| > 1 && |b| > 1 ==> Join(a[1..], "\n\n") == Join(b[1..], "\n\n")
  {
    if |a| > 1 && |b| > 1 { SameCut("\n\n", Join(a[1..], "\n\n"), "\n\n", Join(b[1..], "\n\n")); }
  }

  /** A text has one division at its blank lines. */
  lemma {:induction false} DivisionIsUnique(a: seq<string>, b: seq<string>)
    requires Divided(a) && Divided(b) && Join(a, "\n\n") == Join(b, "\n\n")
    ensures a == b
    decreases |a|
  {
    SameFirst(a, b);
    SameLater(a, b);
    if |a| > 1 {
      DividedRest(a);
      DividedRest(b);
      DivisionIsUnique(a[1..], b[1..]);
    }
    assert a == [a[0]] + a[1..] && b == [b[0]] + b[1..];
  }

  /** The paragraphs are the division of the document at its blank lines, the earliest first. */
  lemma ParagraphsIff(s: string, parts: seq<string>)
    ensures parts == Paragraphs(s) <==> Divided(parts) && Join(parts, "\n\n") == s
  {
    ParagraphsDivide(s);
    if Divided(parts) && Join(parts, "\n\n") == s { DivisionIsUnique(parts, Paragraphs(s)); }
  }

  // ----- trimming

  lemma {:induction false} TrimEndIs(s: string)
    ensures var t := TrimEnd(s); t <= s && Blank(s[|t|..]) && (t != "" ==> !IsWhitespace(t[|t| - 1]))
  {
    if s != "" && IsWhitespace(s[|s| - 1]) {
      var front := s[..|s| - 1];
      TrimEndIs(front);
      var t := TrimEnd(s);
      forall i | |t| <= i < |s| ensures IsWhitespace(s[i]) { if i < |front| { assert front[i] == front[|t|..][i - |t|]; } }
    }
  }

  lemma {:induction false} TrimStartCuts(s: string)
    ensures var t := TrimStart(s); |t| <= |s| && t == s[|s| - |t|..] && Blank(s[..|s| - |t|]) && (t != "" ==> !IsWhitespace(t[0]))
  {
    if s != "" && IsWhitespace(s[0]) {
      TrimStartCuts(s[1..]);
      var k := |s| - |TrimStart(s)|;
      forall i | 0 <= i < k ensures IsWhitespace(s[i]) { if i > 0 { assert s[1..][..k - 1][i - 1] == s[i]; } }
    }
  }

  /** `t` is what is left of `s` without the white space around it. */
  ghost predicate Trimmed(s: string, t: string) {
    && (exists a: string, b: string {:trigger a + t + b} :: Blank(a) && Blank(b) && a + t + b == s)
    && (t != "" ==> !IsWhitespace(t[0]) && !IsWhitespace(t[|t| - 1]))
  }

  lemma TrimmedBy(s: string, a: string, t: string, b: string)
    requires Blank(a) && Blank(b) && a + t + b == s
    requires t != "" ==> !IsWhitespace(t[0]) && !IsWhitespace(t[|t| - 1])
    ensures Trimmed(s, t)
  {
  }

  lemma TrimIs(s: string)
    ensures Trimmed(s, Trim(s))
  {
    var u, t := TrimStart(s), Trim(s);
    TrimStartCuts(s);
    TrimEndIs(u);
    var a, b := s[..|s| - |u|], u[|t|..];
    assert u == t + b && s == a + u;
    Reassociate(a, t, b);
    TrimmedBy(s, a, t, b);
  }

  // ----- units

  /** A unit is a whole trimmed paragraph that fits, or a run of words of one that does not. */
  ghost predicate UnitOf(unit: string, para: string, max: nat) {
    exists t :: Trimmed(para, t) && t != "" &&
      if |t| <= max then unit == t else WordRun(unit, Words(para))
  }

  ghost predicate WordRun(unit: string, words: seq<string>) {
    exists a: nat, b: nat :: a < b <= |words| && unit == Join(words[a..b], " ")
  }

  lemma PackedRun(words: seq<string>, max: nat, k: nat)
    requires AreWords(words) && k < |Pack(words, " ", max)|
    ensures WordRun(Pack(words, " ", max)[k], words)
  {
    PackIsGreedy(words, " ", max);
    var cuts :| PacksAs(words, " ", max, cuts);
    assert Fits(words, cuts[k], cuts[k + 1], " ", max);
    assert Pack(words, " ", max)[k] == Join(words[cuts[k]..cuts[k + 1]], " ");
  }

  lemma UnitFromParagraph(para: string, max: nat, k: nat)
    requires k < |UnitsOf(para, max)|
    ensures UnitOf(UnitsOf(para, max)[k], para, max)
  {
    var t := Trim(para);
    TrimIs(para);
    WordsTrim(para);
    WordsAreWords(para);
    if |t| > max { PackedRun(Words(t), max, k); }
    assert Trimmed(para, t);
  }

  /** Every unit comes from a single paragraph of the document. */
  lemma {:induction false} EachUnitIs(paras: seq<string>, max: nat, k: nat) returns (i: nat)
    requires k < |Units(paras, max)|
    ensures i < |paras| && UnitOf(Units(paras, max)[k], paras[i], max)
  {
    var units, first, rest := Units(paras, max), UnitsOf(paras[0], max), Units(paras[1..], max);
    assert units == first + rest;
    if k < |first| {
      assert units[k] == first[k];
      UnitFromParagraph(paras[0], max, k);
      return 0;
    }
    assert units[k] == rest[k - |first|];
    var j := EachUnitIs(paras[1..], max, k - |first|);
    assert paras[1..][j] == paras[j + 1];
    return j + 1;
  }
}
