/** What the .NET chunker guarantees: bounded pieces, nothing lost, steady progress, and for which settings. */
module CsChunkerTheorems {
  import opened CsChunker

  predicate Sound(max: int, overlap: int) { 0 <= overlap < max }

  // ----- one step

  /** A window is never empty nor longer than `max`, and one that is not the last ends past the overlap. */
  lemma EndAdvances(s: Text, start: nat, max: int, overlap: int)
    requires Sound(max, overlap) && start < |s|
    ensures start < WindowEnd(s, start, max, overlap) <= |s|
    ensures WindowEnd(s, start, max, overlap) <= start + max
    ensures WindowEnd(s, start, max, overlap) < |s| ==> start + overlap < WindowEnd(s, start, max, overlap)
  {
  }

  /** The fallback for a step that would not move forward is never taken. */
  lemma FallbackNeverTaken(s: Text, start: nat, max: int, overlap: int)
    requires Sound(max, overlap) && start < |s| && WindowEnd(s, start, max, overlap) < |s|
    ensures NextStart(start, WindowEnd(s, start, max, overlap), overlap) == WindowEnd(s, start, max, overlap) - overlap > start
  {
  }

  /** Two steps in a row move the start by at least `max - overlap`. */
  lemma TwoStepsAdvance(s: Text, start: nat, max: int, overlap: int)
    requires Sound(max, overlap) && start < |s|
    requires WindowEnd(s, start, max, overlap) < |s|
    requires 0 <= WindowEnd(s, start, max, overlap) - overlap < |s|
    requires WindowEnd(s, WindowEnd(s, start, max, overlap) - overlap, max, overlap) < |s|
    ensures WindowEnd(s, WindowEnd(s, start, max, overlap) - overlap, max, overlap) - overlap >= start + (max - overlap)
  {
    var end := WindowEnd(s, start, max, overlap);
    var next := end - overlap;
    var space := LastSpace(s, start, start + max);
    if space > start + overlap {
      var again := LastSpace(s, next, next + max);
      if again > next + overlap { assert again >= start + max; }
    }
  }

  // ----- the whole run

  predicate WindowOk(s: Text, w: Span, max: int, overlap: int) {
    w.from < w.to <= |s| && w.to - w.from <= max && max > 0 && w.to == WindowEnd(s, w.from, max, overlap)
  }

  predicate Linked(s: Text, v: Span, w: Span, overlap: int) {
    v.to < |s| && w.from == v.to - overlap && v.from < w.from && v.to < w.to
  }

  /** The windows start where asked, end with the text, and each begins `overlap` before the previous one's end. */
  predicate Chain(s: Text, ws: seq<Span>, start: nat, max: int, overlap: int) {
    && 0 < |ws| && ws[0].from == start && ws[|ws| - 1].to == |s|
    && (forall i :: 0 <= i < |ws| ==> WindowOk(s, ws[i], max, overlap))
    && (forall i :: 0 < i < |ws| ==> Linked(s, ws[i - 1], ws[i], overlap))
  }

  lemma ChainCons(s: Text, w: Span, ws: seq<Span>, next: nat, max: int, overlap: int)
    requires Chain(s, ws, next, max, overlap) && WindowOk(s, w, max, overlap) && Linked(s, w, ws[0], overlap)
    ensures Chain(s, [w] + ws, w.from, max, overlap)
  {
    var all := [w] + ws;
    forall i | 0 < i < |all| ensures Linked(s, all[i - 1], all[i], overlap) {
      if i > 1 { assert Linked(s, ws[i - 1 - 1], ws[i - 1], overlap); }
    }
  }

  lemma {:induction false} WindowsChain(s: Text, start: nat, max: int, overlap: int)
    requires Sound(max, overlap) && start < |s|
    ensures Windows(s, start, max, overlap).ok
    ensures Chain(s, Windows(s, start, max, overlap).windows, start, max, overlap)
    decreases |s| - start
  {
    var end := WindowEnd(s, start, max, overlap);
    EndAdvances(s, start, max, overlap);
    if end < |s| {
      var next := end - overlap;
      WindowsChain(s, next, max, overlap);
      EndAdvances(s, next, max, overlap);
      var rest := Windows(s, next, max, overlap);
      ChainCons(s, Span(start, end), rest.windows, next, max, overlap);
      assert Windows(s, start, max, overlap) == Cuts([Span(start, end)] + rest.windows, rest.ok);
    }
  }

  /** Every position from the start on lies in some window. */
  lemma {:induction false} ChainCovers(s: Text, ws: seq<Span>, start: nat, max: int, overlap: int, k: int)
    requires Sound(max, overlap) && Chain(s, ws, start, max, overlap) && start <= k < |s|
    ensures exists i :: 0 <= i < |ws| && ws[i].from <= k < ws[i].to
    decreases |ws|
  {
    if k >= ws[0].to {
      var rest := ws[1..];
      assert WindowOk(s, ws[0], max, overlap);
      assert Linked(s, ws[0], ws[1], overlap);
      assert forall i :: 0 < i < |rest| ==> Linked(s, ws[i], ws[i + 1], overlap);
      ChainCovers(s, rest, ws[1].from, max, overlap, k);
      var i :| 0 <= i < |rest| && rest[i].from <= k < rest[i].to;
      assert ws[i + 1] == rest[i];
    } else {
      assert ws[0].from <= k < ws[0].to;
    }
  }

  /** After `2 j` steps the start has moved by at least `j (max - overlap)`. */
  lemma {:induction false} Pace(s: Text, ws: seq<Span>, start: nat, max: int, overlap: int, j: nat)
    requires Sound(max, overlap) && Chain(s, ws, start, max, overlap) && 2 * j < |ws|
    ensures ws[2 * j].from >= start + j * (max - overlap)
  {
    if j > 0 {
      var i := 2 * j - 2;
      Pace(s, ws, start, max, overlap, j - 1);
      assert WindowOk(s, ws[i], max, overlap) && WindowOk(s, ws[i + 1], max, overlap);
      assert Linked(s, ws[i + 1 - 1], ws[i + 1], overlap) && Linked(s, ws[i + 2 - 1], ws[i + 2], overlap);
      TwoStepsAdvance(s, ws[i].from, max, overlap);
      assert (j - 1) * (max - overlap) + (max - overlap) == j * (max - overlap);
    }
  }

  /** `n / d`, rounded up. */
  function CeilDiv(n: nat, d: nat): nat
    requires d > 0
  {
    (n + d - 1) / d
  }

  lemma CeilDivAbove(n: nat, d: nat, j: nat)
    requires d > 0 && j * d < n
    ensures j + 1 <= CeilDiv(n, d)
  {
    var q := CeilDiv(n, d);
    assert n + d - 1 < (q + 1) * d;
    assert q < j + 1 ==> (q + 1) * d <= (j + 1) * d;
  }

  lemma WindowCount(s: Text, ws: seq<Span>, max: int, overlap: int)
    requires Sound(max, overlap) && Chain(s, ws, 0, max, overlap)
    ensures |ws| <= 2 * CeilDiv(|s|, max - overlap)
  {
    var j := (|ws| - 1) / 2;
    Pace(s, ws, 0, max, overlap, j);
    assert WindowOk(s, ws[2 * j], max, overlap);
    CeilDivAbove(|s|, max - overlap, j);
  }

  // ----- the pieces

  predicate PieceOk(p: Text, max: int) { 0 < |p| <= max && !IsWhitespace(p[0]) && !IsWhitespace(p[|p| - 1]) }

  /** `p` is the part of `s` at offset `a`. */
  predicate PartOf(s: Text, p: Text, a: nat) { a + |p| <= |s| && s[a..a + |p|] == p }

  /** The pieces are parts of `s` at the offsets `at`. */
  predicate Located(s: Text, ps: seq<Text>, at: seq<nat>, max: int) {
    |at| == |ps| && forall i :: 0 <= i < |ps| ==> PieceOk(ps[i], max) && PartOf(s, ps[i], at[i])
  }

  /** No piece starts or ends before an earlier one. */
  predicate Ordered(ps: seq<Text>, at: seq<nat>)
    requires |at| == |ps|
  {
    forall i, j :: 0 <= i < j < |ps| ==> at[i] <= at[j] && at[i] + |ps[i]| <= at[j] + |ps[j]|
  }

  ghost predicate Holds(ps: seq<Text>, at: seq<nat>, k: int) {
    exists i :: 0 <= i < |ps| && i < |at| && at[i] <= k < at[i] + |ps[i]|
  }

  /** Pieces of at most `max` units without blank ends, taken in order, that lose nothing but whitespace. */
  ghost predicate Keeps(s: Text, ps: seq<Text>, at: seq<nat>, max: int) {
    && Located(s, ps, at, max) && Ordered(ps, at)
    && forall k :: 0 <= k < |s| && !IsWhitespace(s[k]) ==> Holds(ps, at, k)
  }

  ghost predicate Faithful(s: Text, ps: seq<Text>, max: int) { exists at: seq<nat> :: Keeps(s, ps, at, max) }

  /** Where the pieces of the windows start. */
  function Offsets(s: Text, ws: seq<Span>): seq<nat> {
    if ws == [] then []
    else
      var n := |ws| - 1;
      if Piece(s, ws[n]) == [] then Offsets(s, ws[..n])
      else Offsets(s, ws[..n]) + [if ws[n].from <= ws[n].to <= |s| then TrimSpan(s, ws[n]).from else 0]
  }

  /** Windows of at most `max` units whose starts and ends never fall. */
  predicate Ascending(s: Text, ws: seq<Span>, max: int) {
    && (forall i :: 0 <= i < |ws| ==> ws[i].from < ws[i].to <= |s| && ws[i].to - ws[i].from <= max)
    && (forall i, j :: 0 <= i < j < |ws| ==> ws[i].from <= ws[j].from && ws[i].to <= ws[j].to)
  }

  lemma {:induction false} ChainAscends(s: Text, ws: seq<Span>, start: nat, max: int, overlap: int, i: int, j: int)
    requires Chain(s, ws, start, max, overlap) && 0 <= i < j < |ws|
    ensures ws[i].from <= ws[j].from && ws[i].to <= ws[j].to
    decreases j
  {
    assert Linked(s, ws[j - 1], ws[j], overlap);
    if i < j - 1 { ChainAscends(s, ws, start, max, overlap, i, j - 1); }
  }

  /** Every piece starts and ends within its window's reach, and no later window trims to an earlier place. */
  lemma TrimMonotone(s: Text, v: Span, w: Span)
    requires v.from <= v.to <= |s| && w.from <= w.to <= |s| && v.from <= w.from && v.to <= w.to
    requires TrimSpan(s, v).from < TrimSpan(s, v).to && TrimSpan(s, w).from < TrimSpan(s, w).to
    ensures TrimSpan(s, v).from <= TrimSpan(s, w).from && TrimSpan(s, v).to <= TrimSpan(s, w).to
  {
    var a, b := TrimSpan(s, v), TrimSpan(s, w);
    assert !IsWhitespace(s[b.from]) && !IsWhitespace(s[a.to - 1]);
  }

  /** The piece of a window, and the offset it is at. */
  lemma PieceIs(s: Text, w: Span, max: int)
    requires w.from < w.to <= |s| && w.to - w.from <= max
    ensures Piece(s, w) == s[TrimSpan(s, w).from..TrimSpan(s, w).to]
    ensures Piece(s, w) != [] ==> PieceOk(Piece(s, w), max) && PartOf(s, Piece(s, w), TrimSpan(s, w).from)
  {
  }

  lemma {:induction false} PiecesLocated(s: Text, ws: seq<Span>, max: int)
    requires Ascending(s, ws, max)
    ensures Located(s, Pieces(s, ws), Offsets(s, ws), max)
  {
    if ws != [] {
      PiecesLocated(s, ws[..|ws| - 1], max);
      PieceIs(s, ws[|ws| - 1], max);
    }
  }

  /** All the pieces start and end no later than the span. */
  predicate Below(ps: seq<Text>, at: seq<nat>, t: Span) {
    |at| == |ps| && forall i :: 0 <= i < |ps| ==> at[i] <= t.from && at[i] + |ps[i]| <= t.to
  }

  lemma BelowSnoc(ps: seq<Text>, at: seq<nat>, p: Text, a: nat, t: Span)
    requires Below(ps, at, t) && a <= t.from && a + |p| <= t.to
    ensures Below(ps + [p], at + [a], t)
  {
  }

  lemma {:induction false} PiecesBelow(s: Text, ws: seq<Span>, w: Span, max: int)
    requires Ascending(s, ws, max) && w.from <= w.to <= |s| && TrimSpan(s, w).from < TrimSpan(s, w).to
    requires forall i :: 0 <= i < |ws| ==> ws[i].from <= w.from && ws[i].to <= w.to
    ensures Below(Pieces(s, ws), Offsets(s, ws), TrimSpan(s, w))
  {
    if ws != [] {
      var front, v := ws[..|ws| - 1], ws[|ws| - 1];
      PiecesBelow(s, front, w, max);
      PieceIs(s, v, max);
      if Piece(s, v) != [] {
        TrimMonotone(s, v, w);
        BelowSnoc(Pieces(s, front), Offsets(s, front), Piece(s, v), TrimSpan(s, v).from, TrimSpan(s, w));
      }
    }
  }

  lemma OrderedSnoc(ps: seq<Text>, at: seq<nat>, p: Text, a: nat)
    requires |at| == |ps| && Ordered(ps, at)
    requires forall i :: 0 <= i < |ps| ==> at[i] <= a && at[i] + |ps[i]| <= a + |p|
    ensures Ordered(ps + [p], at + [a])
  {
  }

  lemma {:induction false} PiecesOrdered(s: Text, ws: seq<Span>, max: int)
    requires Ascending(s, ws, max)
    ensures |Offsets(s, ws)| == |Pieces(s, ws)| && Ordered(Pieces(s, ws), Offsets(s, ws))
  {
    if ws != [] {
      var front, w := ws[..|ws| - 1], ws[|ws| - 1];
      PiecesOrdered(s, front, max);
      PieceIs(s, w, max);
      if Piece(s, w) != [] {
        PiecesBelow(s, front, w, max);
        OrderedSnoc(Pieces(s, front), Offsets(s, front), Piece(s, w), TrimSpan(s, w).from);
      }
    }
  }

  lemma HoldsMore(ps: seq<Text>, at: seq<nat>, ps': seq<Text>, at': seq<nat>, k: int)
    requires |at| == |ps| && (Holds(ps, at, k) || Holds(ps', at', k))
    ensures Holds(ps + ps', at + at', k)
  {
    if Holds(ps, at, k) {
      var i :| 0 <= i < |ps| && i < |at| && at[i] <= k < at[i] + |ps[i]|;
      assert (at + at')[i] <= k < (at + at')[i] + |(ps + ps')[i]|;
    } else {
      var i :| 0 <= i < |ps'| && i < |at'| && at'[i] <= k < at'[i] + |ps'[i]|;
      var j := |ps| + i;
      assert (at + at')[j] <= k < (at + at')[j] + |(ps + ps')[j]|;
    }
  }

  lemma HoldsOne(p: Text, a: nat, k: int)
    requires a <= k < a + |p|
    ensures Holds([p], [a], k)
  {
    assert [a][0] <= k < [a][0] + |[p][0]|;
  }

  /** A position of a window that is not whitespace is in the window's piece. */
  lemma WindowHolds(s: Text, w: Span, max: int, k: int)
    requires w.from < w.to <= |s| && w.to - w.from <= max && w.from <= k < w.to && !IsWhitespace(s[k])
    ensures Piece(s, w) != [] && Holds([Piece(s, w)], [TrimSpan(s, w).from], k)
  {
    PieceIs(s, w, max);
    HoldsOne(Piece(s, w), TrimSpan(s, w).from, k);
  }

  /** A last window without a piece changes nothing; another adds its piece and takes away none. */
  lemma HoldsStep(s: Text, front: seq<Span>, w: Span, max: int, k: int)
    requires Ascending(s, front, max) && w.from < w.to <= |s| && w.to - w.from <= max && 0 <= k < |s| && !IsWhitespace(s[k])
    requires Holds(Pieces(s, front), Offsets(s, front), k) || w.from <= k < w.to
    ensures if Piece(s, w) == [] then Holds(Pieces(s, front), Offsets(s, front), k)
            else Holds(Pieces(s, front) + [Piece(s, w)], Offsets(s, front) + [TrimSpan(s, w).from], k)
  {
    PiecesLocated(s, front, max);
    if w.from <= k < w.to { WindowHolds(s, w, max, k); }
    if Piece(s, w) != [] { HoldsMore(Pieces(s, front), Offsets(s, front), [Piece(s, w)], [TrimSpan(s, w).from], k); }
  }

  lemma {:induction false} PiecesHold(s: Text, ws: seq<Span>, max: int, j: int, k: int)
    requires Ascending(s, ws, max) && 0 <= j < |ws| && ws[j].from <= k < ws[j].to && !IsWhitespace(s[k])
    ensures Holds(Pieces(s, ws), Offsets(s, ws), k)
  {
    var front, w := ws[..|ws| - 1], ws[|ws| - 1];
    if j < |ws| - 1 { PiecesHold(s, front, max, j, k); }
    HoldsStep(s, front, w, max, k);
  }

  lemma WindowsKeep(s: Text, max: int, overlap: int)
    requires Sound(max, overlap) && s != []
    ensures var ws := Windows(s, 0, max, overlap).windows; Keeps(s, Pieces(s, ws), Offsets(s, ws), max)
  {
    var ws := Windows(s, 0, max, overlap).windows;
    WindowsChain(s, 0, max, overlap);
    assert forall i :: 0 <= i < |ws| ==> WindowOk(s, ws[i], max, overlap);
    forall i, j | 0 <= i < j < |ws| ensures ws[i].from <= ws[j].from && ws[i].to <= ws[j].to {
      ChainAscends(s, ws, 0, max, overlap, i, j);
    }
    PiecesLocated(s, ws, max);
    PiecesOrdered(s, ws, max);
    forall k | 0 <= k < |s| && !IsWhitespace(s[k]) ensures Holds(Pieces(s, ws), Offsets(s, ws), k) {
      ChainCovers(s, ws, 0, max, overlap, k);
      var j :| 0 <= j < |ws| && ws[j].from <= k < ws[j].to;
      PiecesHold(s, ws, max, j, k);
    }
  }

  function Shift(at: seq<nat>, d: nat): (r: seq<nat>)
    ensures |r| == |at| && forall i :: 0 <= i < |at| ==> r[i] == at[i] + d
  {
    seq(|at|, i requires 0 <= i < |at| => at[i] + d)
  }

  lemma ShiftLocated(content: Text, t: Span, ps: seq<Text>, at: seq<nat>, max: int)
    requires t.from <= t.to <= |content| && Located(At(content, t), ps, at, max)
    ensures Located(content, ps, Shift(at, t.from), max)
  {
    var moved := Shift(at, t.from);
    forall i | 0 <= i < |ps| ensures PieceOk(ps[i], max) && PartOf(content, ps[i], moved[i]) {
      assert PartOf(At(content, t), ps[i], at[i]);
      assert content[moved[i]..moved[i] + |ps[i]|] == At(content, t)[at[i]..at[i] + |ps[i]|];
    }
  }

  lemma ShiftHolds(ps: seq<Text>, at: seq<nat>, d: nat, k: int)
    requires |at| == |ps| && Holds(ps, at, k)
    ensures Holds(ps, Shift(at, d), k + d)
  {
    var i :| 0 <= i < |ps| && i < |at| && at[i] <= k < at[i] + |ps[i]|;
    assert Shift(at, d)[i] <= k + d < Shift(at, d)[i] + |ps[i]|;
  }

  lemma TrimHolds(content: Text, ps: seq<Text>, at: seq<nat>, k: int)
    requires 0 <= k < |content| && !IsWhitespace(content[k]) && |at| == |ps|
    requires forall i :: 0 <= i < |Trim(content)| && !IsWhitespace(Trim(content)[i]) ==> Holds(ps, at, i)
    ensures Holds(ps, Shift(at, TrimSpan(content, Span(0, |content|)).from), k)
  {
    var t := TrimSpan(content, Span(0, |content|));
    assert Trim(content)[k - t.from] == content[k];
    ShiftHolds(ps, at, t.from, k - t.from);
  }

  /** What holds of the trimmed text holds of the text it was trimmed from. */
  lemma TrimKeeps(content: Text, ps: seq<Text>, at: seq<nat>, max: int)
    requires Keeps(Trim(content), ps, at, max)
    ensures Faithful(content, ps, max)
  {
    var t := TrimSpan(content, Span(0, |content|));
    var moved := Shift(at, t.from);
    ShiftLocated(content, t, ps, at, max);
    forall k | 0 <= k < |content| && !IsWhitespace(content[k]) ensures Holds(ps, moved, k) {
      TrimHolds(content, ps, at, k);
    }
    assert Keeps(content, ps, moved, max);
  }

  lemma WholeKeeps(s: Text, max: int)
    requires PieceOk(s, max)
    ensures Keeps(s, [s], [0], max)
  {
    assert s[0..|s|] == s;
    forall k | 0 <= k < |s| ensures Holds([s], [0], k) {
      assert [0][0] <= k < [0][0] + |[s][0]|;
    }
  }

  /** With a sound setting every text is chunked: pieces within the bound, nothing lost, and not too many of them. */
  lemma ChunkFaithful(content: Text, max: int, overlap: int)
    requires Sound(max, overlap)
    ensures Chunked(content, max, overlap).Ok? && Faithful(content, Chunked(content, max, overlap).pieces, max)
    ensures |Chunked(content, max, overlap).pieces| <= 2 * CeilDiv(|Trim(content)|, max - overlap)
  {
    var s := Trim(content);
    if s == [] {
      assert Keeps(s, [], [], max);
      TrimKeeps(content, [], [], max);
    } else if |s| <= max {
      WholeKeeps(s, max);
      TrimKeeps(content, [s], [0], max);
      CeilDivAbove(|s|, max - overlap, 0);
    } else {
      LongFaithful(content, max, overlap);
    }
  }

  lemma LongFaithful(content: Text, max: int, overlap: int)
    requires Sound(max, overlap) && |Trim(content)| > max
    ensures Chunked(content, max, overlap).Ok? && Faithful(content, Chunked(content, max, overlap).pieces, max)
    ensures |Chunked(content, max, overlap).pieces| <= 2 * CeilDiv(|Trim(content)|, max - overlap)
  {
    var s := Trim(content);
    var ws := Windows(s, 0, max, overlap).windows;
    WindowsChain(s, 0, max, overlap);
    assert Chunked(content, max, overlap) == Ok(Pieces(s, ws));
    WindowsKeep(s, max, overlap);
    TrimKeeps(content, Pieces(s, ws), Offsets(s, ws), max);
    WindowCount(s, ws, max, overlap);
    PiecesNoMore(s, ws);
  }

  lemma {:induction false} PiecesNoMore(s: Text, ws: seq<Span>)
    ensures |Pieces(s, ws)| <= |ws|
  {
    if ws != [] { PiecesNoMore(s, ws[..|ws| - 1]); }
  }

  // ----- for which settings

  ghost predicate AlwaysFaithful(max: int, overlap: int) {
    forall content :: Chunked(content, max, overlap).Ok? && Faithful(content, Chunked(content, max, overlap).pieces, max)
  }

  /** A run of letters, with no whitespace to trim or break at. */
  function Run(n: nat): (r: Text)
    ensures |r| == n && forall i :: 0 <= i < n ==> r[i] == 0x61
  {
    seq(n, _ => 0x61)
  }

  lemma RunIsTrimmed(n: nat)
    ensures Trim(Run(n)) == Run(n)
  {
    var s := Run(n);
    assert SkipForward(s, 0, n) == 0 && SkipBack(s, 0, n) == n;
    assert s[0..n] == s;
  }

  /** Pieces of `max` and 1 units cannot hold `max + 2` letters. */
  lemma TooShort(s: Text, ps: seq<Text>, at: seq<nat>, max: nat)
    requires max > 0 && s == Run(max + 2) && |ps| == 2 && |ps[0]| == max && |ps[1]| == 1
    ensures !Keeps(s, ps, at, max)
  {
    assert Keeps(s, ps, at, max) ==> Holds(ps, at, 0) && Holds(ps, at, max) && Holds(ps, at, max + 1);
  }

  /** An overlap of -1 skips a unit after the first window. */
  lemma SkipsOne(max: nat)
    requires max > 0
    ensures Chunked(Run(max + 2), max, -1).Ok? && |Chunked(Run(max + 2), max, -1).pieces| == 2
    ensures |Chunked(Run(max + 2), max, -1).pieces[0]| == max && |Chunked(Run(max + 2), max, -1).pieces[1]| == 1
  {
    var s := Run(max + 2);
    RunIsTrimmed(max + 2);
    var v, w := Span(0, max), Span(max + 1, max + 2);
    assert LastSpace(s, 0, max) == -1;
    assert WindowEnd(s, 0, max, -1) == max && WindowEnd(s, max + 1, max, -1) == max + 2;
    assert Windows(s, max + 1, max, -1) == Cuts([w], true);
    assert Windows(s, 0, max, -1) == Cuts([v, w], true);
    assert |Piece(s, v)| == max && |Piece(s, w)| == 1 by {
      assert SkipForward(s, 0, max) == 0 && SkipBack(s, 0, max) == max;
      assert SkipForward(s, max + 1, max + 2) == max + 1 && SkipBack(s, max + 1, max + 2) == max + 2;
    }
    PiecesSnoc(s, [], v);
    PiecesSnoc(s, [v], w);
    assert [] + [v] == [v] && [v] + [w] == [v, w] && Pieces(s, []) == [];
  }

  /** An unsound setting refuses, or loses part of, a run of letters longer than `max`. */
  lemma UnsoundLoses(max: int, overlap: int)
    requires !Sound(max, overlap)
    ensures !AlwaysFaithful(max, overlap)
  {
    var m := if max > 0 then max else 0;
    var s := Run(m + 2);
    RunIsTrimmed(m + 2);
    var r := Chunked(s, max, overlap);
    if overlap < max && max > 0 {
      if overlap == -1 {
        SkipsOne(max);
        forall at: seq<nat> ensures !Keeps(s, r.pieces, at, max) { TooShort(s, r.pieces, at, max); }
      } else {
        assert LastSpace(s, 0, max) == -1;
        assert WindowEnd(s, 0, max, overlap) == -1;
        assert !Windows(s, 0, max, overlap).ok;
      }
    }
    assert !(r.Ok? && Faithful(s, r.pieces, max));
  }

  /** The chunker keeps every text whole exactly for the settings with a non-negative overlap below the bound. */
  lemma FaithfulIff(max: int, overlap: int)
    ensures AlwaysFaithful(max, overlap) <==> 0 <= overlap < max
  {
    if Sound(max, overlap) {
      forall content ensures Chunked(content, max, overlap).Ok? && Faithful(content, Chunked(content, max, overlap).pieces, max) {
        ChunkFaithful(content, max, overlap);
      }
    } else {
      UnsoundLoses(max, overlap);
    }
  }
}
