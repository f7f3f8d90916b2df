/**
 * The .NET chunker: windows of at most `max` code units that prefer to end at a space and step back
 * by `overlap`. Text is a sequence of UTF-16 code units, as a .NET string is.
 */
module CsChunker {

  newtype CodeUnit = u: int | 0 <= u < 0x1_0000

  type Text = seq<CodeUnit>

  const Space: CodeUnit := 0x20

  datatype Failure = OverlapTooLarge | OutOfRange

  datatype Result = Ok(pieces: seq<Text>) | Err(failure: Failure)

  /** A window or a piece: the units from `from` up to `to`. */
  datatype Span = Span(from: nat, to: nat)

  /** The windows cut, and whether the cutting went through. */
  datatype Cuts = Cuts(windows: seq<Span>, ok: bool)

  predicate IsWhitespace(c: CodeUnit) {
    || 0x09 <= c <= 0x0D || c == 0x20 || c == 0x85 || c == 0xA0 || c == 0x1680
    || 0x2000 <= c <= 0x200A || c == 0x2028 || c == 0x2029 || c == 0x202F || c == 0x205F || c == 0x3000
  }

  // ----- trimming

  /** The first position in `[lo, hi)` that is not whitespace, or `hi`. */
  function SkipForward(s: Text, lo: nat, hi: nat): (r: nat)
    requires lo <= hi <= |s|
    ensures lo <= r <= hi
    ensures forall j :: lo <= j < r ==> IsWhitespace(s[j])
    ensures r < hi ==> !IsWhitespace(s[r])
    decreases hi - lo
  {
    if lo < hi && IsWhitespace(s[lo]) then SkipForward(s, lo + 1, hi) else lo
  }

  /** One past the last position in `[lo, hi)` that is not whitespace, or `lo`. */
  function SkipBack(s: Text, lo: nat, hi: nat): (r: nat)
    requires lo <= hi <= |s|
    ensures lo <= r <= hi
    ensures forall j :: r <= j < hi ==> IsWhitespace(s[j])
    ensures lo < r ==> !IsWhitespace(s[r - 1])
  {
    if lo < hi && IsWhitespace(s[hi - 1]) then SkipBack(s, lo, hi - 1) else hi
  }

  function TrimSpan(s: Text, w: Span): (r: Span)
    requires w.from <= w.to <= |s|
    ensures w.from <= r.from <= r.to <= w.to
    ensures forall j :: w.from <= j < w.to && !(r.from <= j < r.to) ==> IsWhitespace(s[j])
    ensures r.from < r.to ==> !IsWhitespace(s[r.from]) && !IsWhitespace(s[r.to - 1])
  {
    var a := SkipForward(s, w.from, w.to);
    Span(a, SkipBack(s, a, w.to))
  }

  function At(s: Text, w: Span): Text
    requires w.from <= w.to <= |s|
  {
    s[w.from..w.to]
  }

  function Trim(s: Text): Text { At(s, TrimSpan(s, Span(0, |s|))) }

  // ----- where a window ends

  /** The last space in `[lo, hi)`, or -1. */
  function LastSpace(s: Text, lo: nat, hi: nat): (r: int)
    requires lo <= hi <= |s|
    ensures r == -1 || (lo <= r < hi && s[r] == Space)
    ensures forall j :: lo <= j < hi && r < j ==> s[j] != Space
  {
    if lo == hi then -1 else if s[hi - 1] == Space then hi - 1 else LastSpace(s, lo, hi - 1)
  }

  /** There is a space at `i`, and none between it and `hi`. */
  predicate LastSpaceAt(s: Text, i: nat, hi: nat)
    requires i < hi <= |s|
  {
    s[i] == 0x20 && forall j :: i < j < hi ==> s[j] != 0x20
  }

  /** A window that reaches the end of the text stays; another ends at its last space past the overlap, if any. */
  function WindowEnd(s: Text, start: nat, max: nat, overlap: int): (end: int)
    requires start < |s| && max > 0
    ensures start + max >= |s| ==> end == |s|
    ensures start + max < |s| ==>
      || (start <= end < start + max && end > start + overlap && LastSpaceAt(s, end, start + max))
      || (end == start + max && forall j :: start <= j < start + max && start + overlap < j ==> s[j] != 0x20)
      || (end == -1 > start + overlap && forall j :: start <= j < start + max ==> s[j] != 0x20)
  {
    if start + max >= |s| then |s|
    else
      var space := LastSpace(s, start, start + max);
      if space > start + overlap then space else start + max
  }

  function NextStart(start: nat, end: int, overlap: int): int { if end - overlap > start then end - overlap else end }

  /** The windows cut from `start` on; `OutOfRange` where a window would end before it starts. */
  function Windows(s: Text, start: nat, max: nat, overlap: int): Cuts
    requires max > 0 && overlap < max
    decreases |s| - start
  {
    if start >= |s| then Cuts([], true)
    else
      var end := WindowEnd(s, start, max, overlap);
      if end < start then Cuts([], false)
      else if end >= |s| then Cuts([Span(start, end)], true)
      else
        var rest := Windows(s, NextStart(start, end, overlap), max, overlap);
        Cuts([Span(start, end)] + rest.windows, rest.ok)
  }

  /** The text of a window, trimmed. */
  function Piece(s: Text, w: Span): Text {
    if w.from <= w.to <= |s| then At(s, TrimSpan(s, w)) else []
  }

  /** The trimmed windows that are not blank, in order. */
  function Pieces(s: Text, ws: seq<Span>): seq<Text> {
    if ws == [] then []
    else
      var n := |ws| - 1;
      if Piece(s, ws[n]) == [] then Pieces(s, ws[..n]) else Pieces(s, ws[..n]) + [Piece(s, ws[n])]
  }

  /** What the chunker answers, for every input and every setting. */
  function Chunked(content: Text, max: int, overlap: int): Result {
    var s := Trim(content);
    if s == [] then Ok([])
    else if |s| <= max then Ok([s])
    else if overlap >= max then Err(OverlapTooLarge)
    else if max <= 0 then Err(OutOfRange)
    else
      var cuts := Windows(s, 0, max, overlap);
      if cuts.ok then Ok(Pieces(s, cuts.windows)) else Err(OutOfRange)
  }

  /** `done` windows and then those from `start` on are all the windows. */
  ghost predicate Reached(s: Text, max: nat, overlap: int, done: seq<Span>, start: nat)
    requires max > 0 && overlap < max
  {
    var all, left := Windows(s, 0, max, overlap), Windows(s, start, max, overlap);
    all.windows == done + left.windows && all.ok == left.ok
  }

  lemma Reach(s: Text, max: nat, overlap: int, done: seq<Span>, start: nat)
    requires max > 0 && overlap < max && start < |s| && Reached(s, max, overlap, done, start)
    ensures var end := WindowEnd(s, start, max, overlap);
      && (end < start ==> !Windows(s, 0, max, overlap).ok)
      && (end >= |s| ==> Windows(s, 0, max, overlap) == Cuts(done + [Span(start, end)], true))
      && (start <= end < |s| ==> start < NextStart(start, end, overlap))
      && (start <= end < |s| ==> Reached(s, max, overlap, done + [Span(start, end)], NextStart(start, end, overlap)))
  {
    var end := WindowEnd(s, start, max, overlap);
    if start <= end < |s| {
      var rest := Windows(s, NextStart(start, end, overlap), max, overlap).windows;
      assert done + ([Span(start, end)] + rest) == done + [Span(start, end)] + rest;
    }
  }

  lemma PiecesSnoc(s: Text, ws: seq<Span>, w: Span)
    ensures Pieces(s, ws + [w]) == if Piece(s, w) == [] then Pieces(s, ws) else Pieces(s, ws) + [Piece(s, w)]
  {
    assert (ws + [w])[..|ws|] == ws;
  }

  /** The windowing loop; `ok` is false when a window would end before it starts. */
  method CutWindows(text: Text, max: nat, overlap: int) returns (chunks: seq<Text>, ok: bool)
    requires max > 0 && overlap < max
    ensures ok == Windows(text, 0, max, overlap).ok
    ensures ok ==> chunks == Pieces(text, Windows(text, 0, max, overlap).windows)
  {
    chunks, ok := [], true;
    var start := 0;
    ghost var done: seq<Span> := [];
    while start < |text|
      invariant 0 <= start && Reached(text, max, overlap, done, start)
      invariant chunks == Pieces(text, done)
      decreases |text| - start
    {
      var end := if start + max < |text| then start + max else |text|;
      if end < |text| {
        var whitespace := LastSpace(text, start, end);
        if whitespace > start + overlap { end := whitespace; }
      }
      assert end == WindowEnd(text, start, max, overlap);
      Reach(text, max, overlap, done, start);
      if end < start { return [], false; }
      PiecesSnoc(text, done, Span(start, end));
      var piece := At(text, TrimSpan(text, Span(start, end)));
      if |piece| > 0 { chunks := chunks + [piece]; }
      done := done + [Span(start, end)];
      if end >= |text| { break; }
      var nextStart := end - overlap;
      ghost var next := NextStart(start, end, overlap);
      assert Reached(text, max, overlap, done, next);
      start := if nextStart > start then nextStart else end;
      assert start == next;
    }
    assert Windows(text, 0, max, overlap) == Cuts(done, true);
  }

  method Chunk(content: Text, max: int, overlap: int) returns (r: Result)
    ensures r == Chunked(content, max, overlap)
  {
    var text := Trim(content);
    if |text| == 0 { return Ok([]); }
    if |text| <= max { return Ok([text]); }
    if overlap >= max { return Err(OverlapTooLarge); }
    if max <= 0 { return Err(OutOfRange); }
    var chunks, ok := CutWindows(text, max, overlap);
    return if ok then Ok(chunks) else Err(OutOfRange);
  }
}
