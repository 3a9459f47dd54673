/** Wrapping one logical line: a partition of the line into chunks that fit.

    A grapheme is one character. Its width, what counts as white space, and where CJK text may
    break are left open. */
module WordWrap {
  import opened Options

  const CELL_WIDTH: char -> nat
  const IS_BLANK: string -> bool
  const BREAKS_CJK: string -> bool

  datatype Chunk = Chunk(text: string, start: nat, end: nat)

  function VisibleWidth(s: string): nat {
    if s == "" then 0 else VisibleWidth(s[..|s| - 1]) + CELL_WIDTH(s[|s| - 1])
  }

  lemma {:induction false} WidthJoins(a: string, b: string)
    ensures VisibleWidth(a + b) == VisibleWidth(a) + VisibleWidth(b)
  {
    if b == "" {
      assert a + b == a;
    } else {
      assert (a + b)[..|a + b| - 1] == a + b[..|b| - 1];
      WidthJoins(a, b[..|b| - 1]);
    }
  }

  lemma WidthSplits(line: string, i: nat, j: nat, k: nat)
    requires i <= j <= k <= |line|
    ensures VisibleWidth(line[i..k]) == VisibleWidth(line[i..j]) + VisibleWidth(line[j..k])
  {
    assert line[i..k] == line[i..j] + line[j..k];
    WidthJoins(line[i..j], line[j..k]);
  }

  // ----- what chunks must be -----

  /** The chunks are non-empty slices that cover the first `n` characters without a gap. */
  ghost predicate Covers(chunks: seq<Chunk>, line: string, n: nat) {
    if chunks == [] then n == 0
    else
      var last := chunks[|chunks| - 1];
      && last.start < last.end == n && n <= |line| && last.text == line[last.start..last.end]
      && Covers(chunks[..|chunks| - 1], line, last.start)
  }

  /** No wider than the width, unless it is a single grapheme. */
  ghost predicate Fits(text: string, width: nat) {
    VisibleWidth(text) <= width || |text| == 1
  }

  ghost predicate AllFit(chunks: seq<Chunk>, width: nat) {
    forall i :: 0 <= i < |chunks| ==> Fits(chunks[i].text, width)
  }

  /** No two neighbours would have fitted into one chunk. */
  ghost predicate Tight(chunks: seq<Chunk>, width: nat) {
    forall i :: 0 < i < |chunks| ==> VisibleWidth(chunks[i - 1].text) + VisibleWidth(chunks[i].text) > width
  }

  lemma CoversOneMore(chunks: seq<Chunk>, line: string, start: nat, end: nat)
    requires Covers(chunks, line, start) && start < end <= |line|
    ensures Covers(chunks + [Chunk(line[start..end], start, end)], line, end)
  {
    var more := chunks + [Chunk(line[start..end], start, end)];
    assert more[..|more| - 1] == chunks;
  }

  lemma FitsOneMore(chunks: seq<Chunk>, c: Chunk, width: nat)
    requires AllFit(chunks, width) && Fits(c.text, width)
    ensures AllFit(chunks + [c], width)
  {
  }

  lemma TightOneMore(chunks: seq<Chunk>, c: Chunk, width: nat)
    requires Tight(chunks, width)
    requires chunks != [] ==> VisibleWidth(chunks[|chunks| - 1].text) + VisibleWidth(c.text) > width
    ensures Tight(chunks + [c], width)
  {
    hide VisibleWidth;
  }

  function Spelled(chunks: seq<Chunk>): string {
    if chunks == [] then "" else Spelled(chunks[..|chunks| - 1]) + chunks[|chunks| - 1].text
  }

  /** The texts of the chunks, one after the other, are the line. */
  lemma {:induction false} ChunksSpellLine(chunks: seq<Chunk>, line: string, n: nat)
    requires Covers(chunks, line, n)
    ensures n <= |line| && Spelled(chunks) == line[..n]
    decreases |chunks|
  {
    if chunks != [] {
      var last := chunks[|chunks| - 1];
      ChunksSpellLine(chunks[..|chunks| - 1], line, last.start);
      assert line[..n] == line[..last.start] + line[last.start..n];
    }
  }

  // ----- units -----

  function Joined(units: seq<string>): string {
    if units == [] then "" else Joined(units[..|units| - 1]) + units[|units| - 1]
  }

  /** Where unit `i` starts. */
  function IndexOf(units: seq<string>, i: nat): nat
    requires i <= |units|
  {
    |Joined(units[..i])|
  }

  function Graphemes(s: string): (units: seq<string>)
    ensures |units| == |s| && forall i :: 0 <= i < |units| ==> units[i] == [s[i]]
  {
    seq(|s|, i requires 0 <= i < |s| => [s[i]])
  }

  lemma {:induction false} GraphemesJoin(s: string)
    ensures Joined(Graphemes(s)) == s
  {
    if s != "" {
      var front := s[..|s| - 1];
      GraphemesJoin(front);
      assert Graphemes(s)[..|s| - 1] == Graphemes(front);
      assert s == front + [s[|s| - 1]];
    }
  }

  lemma {:induction false} JoinedParts(a: seq<string>, b: seq<string>)
    ensures Joined(a + b) == Joined(a) + Joined(b)
  {
    if b == [] {
      assert a + b == a;
    } else {
      assert (a + b)[..|a + b| - 1] == a + b[..|b| - 1];
      JoinedParts(a, b[..|b| - 1]);
      assert Joined(a) + (Joined(b[..|b| - 1]) + b[|b| - 1]) == Joined(a) + Joined(b[..|b| - 1]) + b[|b| - 1];
    }
  }

  lemma UnitInLine(units: seq<string>, i: nat)
    requires i < |units|
    ensures IndexOf(units, i + 1) == IndexOf(units, i) + |units[i]| <= |Joined(units)|
    ensures Joined(units)[IndexOf(units, i)..IndexOf(units, i + 1)] == units[i]
  {
    assert units[..i + 1][..i] == units[..i];
    assert units == units[..i + 1] + units[i + 1..];
    JoinedParts(units[..i + 1], units[i + 1..]);
    assert Joined(units)[..IndexOf(units, i + 1)] == Joined(units[..i]) + units[i];
    assert Joined(units)[IndexOf(units, i)..IndexOf(units, i + 1)]
      == Joined(units)[..IndexOf(units, i + 1)][IndexOf(units, i)..];
  }

  lemma IndexEnds(units: seq<string>)
    ensures IndexOf(units, 0) == 0 && IndexOf(units, |units|) == |Joined(units)|
  {
    assert units[..0] == [] && units[..|units|] == units;
  }

  // ----- the loop -----

  /** What holds before each unit: `at` is where the unit starts. */
  ghost predicate Wrapping(
    line: string, width: nat, result: seq<Chunk>, chunkStart: nat, currentWidth: nat, at: nat)
  {
    && chunkStart <= at <= |line| && Covers(result, line, chunkStart) && AllFit(result, width)
    && currentWidth == VisibleWidth(line[chunkStart..at]) && Fits(line[chunkStart..at], width)
  }

  /** A place to break, if one is known: after the chunk's start, and not past the unit. */
  ghost predicate BreakOk(line: string, chunkStart: nat, at: nat, breakIndex: int, widthAtBreak: nat) {
    breakIndex >= 0 ==>
      chunkStart < breakIndex <= at <= |line| && widthAtBreak == VisibleWidth(line[chunkStart..breakIndex])
  }

  /** Without atomic units: what lies after the last chunk would not have fitted into it. */
  ghost predicate TightSoFar(result: seq<Chunk>, width: nat, currentWidth: nat, breakIndex: int, widthAtBreak: nat) {
    && Tight(result, width)
    && (result != [] ==> VisibleWidth(result[|result| - 1].text) + currentWidth > width)
    && (result != [] && breakIndex >= 0 ==> VisibleWidth(result[|result| - 1].text) + widthAtBreak > width)
  }

  lemma PushSlice(line: string, width: nat, result: seq<Chunk>, start: nat, end: nat)
    requires Covers(result, line, start) && AllFit(result, width) && start < end <= |line|
    requires Fits(line[start..end], width)
    ensures var more := result + [Chunk(line[start..end], start, end)];
      Covers(more, line, end) && AllFit(more, width)
  {
    CoversOneMore(result, line, start, end);
    FitsOneMore(result, Chunk(line[start..end], start, end), width);
  }

  function Moved(c: Chunk, d: nat): Chunk {
    Chunk(c.text, d + c.start, d + c.end)
  }

  function MovedAll(chunks: seq<Chunk>, d: nat): (r: seq<Chunk>)
    ensures |r| == |chunks| && forall i :: 0 <= i < |r| ==> r[i] == Moved(chunks[i], d)
  {
    seq(|chunks|, i requires 0 <= i < |chunks| => Moved(chunks[i], d))
  }

  lemma SliceOfSlice(line: string, at: nat, end: nat, i: nat, j: nat)
    requires at <= end <= |line| && i <= j <= end - at
    ensures line[at..end][i..j] == line[at + i..at + j]
  {
    assert forall k :: 0 <= k < j - i ==> line[at..end][i..j][k] == line[at + i..at + j][k];
  }

  /** Chunks of a unit, moved to where the unit lies, continue the chunks before it. */
  lemma {:induction false} PiecesContinue(
    result: seq<Chunk>, line: string, at: nat, end: nat, pieces: seq<Chunk>, n: nat, width: nat)
    requires Covers(result, line, at) && AllFit(result, width) && at <= end <= |line|
    requires Covers(pieces, line[at..end], n) && AllFit(pieces, width)
    ensures Covers(result + MovedAll(pieces, at), line, at + n) && AllFit(result + MovedAll(pieces, at), width)
    decreases |pieces|
  {
    hide VisibleWidth, Fits, Covers, AllFit, MovedAll;
    if pieces == [] {
      NothingCovered(line[at..end], n);
      NothingMoved(pieces, at, result);
    } else {
      var front, last := pieces[..|pieces| - 1], pieces[|pieces| - 1];
      FrontCovers(pieces, line[at..end], n);
      FrontFits(pieces, width);
      PiecesContinue(result, line, at, end, front, last.start, width);
      MovedFront(result, pieces, at);
      SliceOfSlice(line, at, end, last.start, last.end);
      PushSlice(line, width, result + MovedAll(front, at), at + last.start, at + last.end);
    }
  }

  lemma NothingCovered(text: string, n: nat)
    requires Covers([], text, n)
    ensures n == 0
  {
  }

  lemma FrontCovers(pieces: seq<Chunk>, text: string, n: nat)
    requires Covers(pieces, text, n) && pieces != []
    ensures var last := pieces[|pieces| - 1];
      && Covers(pieces[..|pieces| - 1], text, last.start)
      && last.start < last.end == n <= |text| && last.text == text[last.start..last.end]
  {
  }

  lemma MovedFront(result: seq<Chunk>, pieces: seq<Chunk>, at: nat)
    requires pieces != []
    ensures result + MovedAll(pieces, at)
      == result + MovedAll(pieces[..|pieces| - 1], at) + [Moved(pieces[|pieces| - 1], at)]
  {
  }

  lemma LastPiece(pieces: seq<Chunk>, text: string, width: nat)
    requires Covers(pieces, text, |text|) && text != "" && AllFit(pieces, width)
    ensures pieces != []
    ensures var tail := pieces[|pieces| - 1];
      && Covers(pieces[..|pieces| - 1], text, tail.start) && AllFit(pieces[..|pieces| - 1], width)
      && tail.start < tail.end == |text| && tail.text == text[tail.start..] && Fits(tail.text, width)
  {
    hide Fits, VisibleWidth, AllFit, Covers;
    LastCovers(pieces, text);
    FrontFits(pieces, width);
  }

  lemma LastCovers(pieces: seq<Chunk>, text: string)
    requires Covers(pieces, text, |text|) && text != ""
    ensures pieces != []
    ensures var tail := pieces[|pieces| - 1];
      && Covers(pieces[..|pieces| - 1], text, tail.start)
      && tail.start < tail.end == |text| && tail.text == text[tail.start..]
  {
    hide VisibleWidth;
    assert pieces != [];
    SuffixIs(text, pieces[|pieces| - 1].start);
  }

  lemma SuffixIs(text: string, i: nat)
    requires i <= |text|
    ensures text[i..|text|] == text[i..]
  {
  }

  lemma FrontFits(pieces: seq<Chunk>, width: nat)
    requires pieces != [] && AllFit(pieces, width)
    ensures AllFit(pieces[..|pieces| - 1], width) && Fits(pieces[|pieces| - 1].text, width)
  {
    hide Fits;
  }

  /** Ends a chunk at the known break if the unit then fits, and otherwise where the unit starts. */
  method MakeRoom(
    line: string, width: nat, before: seq<Chunk>, start: nat, used: nat, breakIndex: int, widthAtBreak: nat,
    at: nat, unitWidth: nat, ghost plain: bool) returns (result: seq<Chunk>, chunkStart: nat, currentWidth: nat)
    requires Wrapping(line, width, before, start, used, at) && BreakOk(line, start, at, breakIndex, widthAtBreak)
    requires plain ==> TightSoFar(before, width, used, breakIndex, widthAtBreak)
    requires used + unitWidth > width
    ensures Wrapping(line, width, result, chunkStart, currentWidth, at)
    ensures plain ==> Tight(result, width)
    ensures plain && result != [] ==> VisibleWidth(result[|result| - 1].text) + currentWidth + unitWidth > width
    ensures currentWidth + unitWidth <= width || chunkStart == at
  {
    hide Covers, AllFit, VisibleWidth, Tight, Fits;
    result, chunkStart, currentWidth := before, start, used;
    EmptySlice(line, at);
    if breakIndex >= 0 && currentWidth - widthAtBreak + unitWidth <= width {
      WidthSplits(line, start, breakIndex, at);
      ShorterFits(line, start, breakIndex, at, width);
      NarrowFits(line, breakIndex, at, width);
      PushSlice(line, width, before, start, breakIndex);
      PushTight(before, Chunk(line[start..breakIndex], start, breakIndex), width, plain);
      result := before + [Chunk(line[start..breakIndex], start, breakIndex)];
      chunkStart, currentWidth := breakIndex, used - widthAtBreak;
    } else if start < at {
      PushSlice(line, width, before, start, at);
      PushTight(before, Chunk(line[start..at], start, at), width, plain);
      NarrowFits(line, at, at, width);
      result := before + [Chunk(line[start..at], start, at)];
      chunkStart, currentWidth := at, 0;
    }
  }

  /** Takes over all pieces of a wide unit but the last, which stays open. */
  method PlacePieces(line: string, width: nat, before: seq<Chunk>, at: nat, next: nat, pieces: seq<Chunk>)
    returns (result: seq<Chunk>, chunkStart: nat, currentWidth: nat)
    requires at < next <= |line| && Covers(before, line, at) && AllFit(before, width)
    requires Covers(pieces, line[at..next], next - at) && AllFit(pieces, width)
    ensures Wrapping(line, width, result, chunkStart, currentWidth, next) && chunkStart < next
    ensures |pieces| == 1 ==> result == before && chunkStart == at && currentWidth == VisibleWidth(line[at..next])
  {
    hide Covers, AllFit, VisibleWidth, Fits;
    LastPiece(pieces, line[at..next], width);
    FirstPiece(pieces, line[at..next]);
    var tail := pieces[|pieces| - 1];
    PiecesContinue(before, line, at, next, pieces[..|pieces| - 1], tail.start, width);
    TailSlice(line, at, next, tail);
    NothingMoved(pieces[..|pieces| - 1], at, before);
    result := before + MovedAll(pieces[..|pieces| - 1], at);
    chunkStart := at + tail.start;
    currentWidth := VisibleWidth(tail.text);
  }

  lemma FirstPiece(pieces: seq<Chunk>, text: string)
    requires Covers(pieces, text, |text|) && text != ""
    ensures |pieces| == 1 ==> pieces[0].start == 0
  {
  }

  lemma NothingMoved(pieces: seq<Chunk>, at: nat, before: seq<Chunk>)
    ensures pieces == [] ==> before + MovedAll(pieces, at) == before
  {
  }

  /** Wraps a line. The units are its graphemes, or atomic segments given by the caller; a
      segment that is wider than the line is itself wrapped, grapheme by grapheme. */
  method WordWrapLine(line: string, maxWidth: int, preSegmented: Option<seq<string>>) returns (result: seq<Chunk>)
    requires preSegmented.Some? ==>
      Joined(preSegmented.value) == line && forall i :: 0 <= i < |preSegmented.value| ==> preSegmented.value[i] != ""
    ensures line == "" || maxWidth <= 0 ==> result == [Chunk("", 0, 0)]
    ensures line != "" && maxWidth > 0 ==> Covers(result, line, |line|) && AllFit(result, maxWidth)
    ensures line != "" && maxWidth > 0 && preSegmented.None? ==> Tight(result, maxWidth)
    decreases if preSegmented.Some? then 1 else 0
  {
    hide Covers, AllFit, VisibleWidth, Joined, IndexOf, Tight, Fits, Graphemes, MovedAll;
    if line == "" || maxWidth <= 0 {
      return [Chunk("", 0, 0)];
    }
    var width: nat := maxWidth;
    if VisibleWidth(line) <= width {
      WholeLine(line, width);
      return [Chunk(line, 0, |line|)];
    }
    GraphemesJoin(line);
    var units := if preSegmented.Some? then preSegmented.value else Graphemes(line);
    result := [];
    var chunkStart: nat, currentWidth: nat, breakIndex: int, widthAtBreak: nat, at: nat := 0, 0, -1, 0, 0;
    IndexEnds(units);
    NothingYet(line, width);
    for index := 0 to |units|
      invariant at == IndexOf(units, index) && Wrapping(line, width, result, chunkStart, currentWidth, at)
      invariant BreakOk(line, chunkStart, at, breakIndex, widthAtBreak)
      invariant preSegmented.None? ==> TightSoFar(result, width, currentWidth, breakIndex, widthAtBreak)
      invariant chunkStart < at || index == 0
    {
      var unit := units[index];
      UnitInLine(units, index);
      var next := at + |unit|;
      var unitWidth := VisibleWidth(unit);
      WidthSplits(line, chunkStart, at, next);
      if currentWidth + unitWidth > width {
        result, chunkStart, currentWidth := MakeRoom(
          line, width, result, chunkStart, currentWidth, breakIndex, widthAtBreak, at, unitWidth, preSegmented.None?);
        breakIndex := -1;
      }
      WidthSplits(line, chunkStart, at, next);
      EmptySlice(line, at);
      if unitWidth > width {
        assert chunkStart == at;
        var pieces := [Chunk(unit, 0, |unit|)];
        if |unit| > 1 {
          pieces := WordWrapLine(unit, maxWidth, None);
        } else {
          OnePiece(unit, width);
        }
        OneGrapheme(units, index, line, preSegmented, pieces);
        result, chunkStart, currentWidth := PlacePieces(line, width, result, at, next, pieces);
        breakIndex := -1;
      } else {
        currentWidth := currentWidth + unitWidth;
        NarrowFits(line, chunkStart, next, width);
        if index + 1 < |units| {
          var following := units[index + 1];
          var atomic, nextAtomic := |unit| > 1, |following| > 1;
          var blank := !atomic && IS_BLANK(unit);
          if blank && (nextAtomic || !IS_BLANK(following)) {
            breakIndex, widthAtBreak := next, currentWidth;
          } else if !blank && !IS_BLANK(following)
            && ((!atomic && BREAKS_CJK(unit)) || (!nextAtomic && BREAKS_CJK(following)))
          {
            breakIndex, widthAtBreak := next, currentWidth;
          }
        }
      }
      at := next;
    }
    IndexEnds(units);
    assert at == |line|;
    if chunkStart < |line| {
      assert line[chunkStart..] == line[chunkStart..|line|];
      PushSlice(line, width, result, chunkStart, |line|);
      PushTight(result, Chunk(line[chunkStart..], chunkStart, |line|), width, preSegmented.None?);
      result := result + [Chunk(line[chunkStart..], chunkStart, |line|)];
    }
  }

  lemma WholeLine(line: string, width: nat)
    requires line != "" && VisibleWidth(line) <= width
    ensures var result := [Chunk(line, 0, |line|)];
      Covers(result, line, |line|) && AllFit(result, width) && Tight(result, width)
  {
    assert line[0..|line|] == line;
    assert [Chunk(line, 0, |line|)][..0] == [];
  }

  lemma NothingYet(line: string, width: nat)
    ensures Wrapping(line, width, [], 0, 0, 0) && BreakOk(line, 0, 0, -1, 0) && TightSoFar([], width, 0, -1, 0)
  {
  }

  lemma ShorterFits(line: string, start: nat, middle: nat, end: nat, width: nat)
    requires start < middle <= end <= |line| && Fits(line[start..end], width)
    ensures Fits(line[start..middle], width)
  {
    WidthSplits(line, start, middle, end);
  }

  lemma PushTight(result: seq<Chunk>, c: Chunk, width: nat, plain: bool)
    requires plain ==> Tight(result, width)
    requires plain && result != [] ==> VisibleWidth(result[|result| - 1].text) + VisibleWidth(c.text) > width
    ensures plain ==> Tight(result + [c], width) && (result + [c])[|result|] == c
  {
    if plain {
      TightOneMore(result, c, width);
    }
  }

  lemma EmptySlice(line: string, at: nat)
    requires at <= |line|
    ensures VisibleWidth(line[at..at]) == 0
  {
  }

  lemma OnePiece(unit: string, width: nat)
    requires |unit| == 1
    ensures Covers([Chunk(unit, 0, 1)], unit, 1) && AllFit([Chunk(unit, 0, 1)], width)
  {
    assert unit[0..1] == unit;
    assert [Chunk(unit, 0, 1)][..0] == [];
  }

  lemma NarrowFits(line: string, start: nat, end: nat, width: nat)
    requires start <= end <= |line| && VisibleWidth(line[start..end]) <= width
    ensures Fits(line[start..end], width)
  {
  }

  lemma TailSlice(line: string, at: nat, next: nat, tail: Chunk)
    requires at <= next <= |line| && tail.start < tail.end == next - at && tail.text == line[at..next][tail.start..]
    ensures line[at + tail.start..next] == tail.text
  {
  }

  /** A grapheme on its own is one piece. */
  lemma OneGrapheme(units: seq<string>, index: nat, line: string, pre: Option<seq<string>>, pieces: seq<Chunk>)
    requires index < |units| && (pre.None? ==> units == Graphemes(line))
    requires |units[index]| <= 1 ==> |pieces| == 1
    ensures pre.None? ==> |pieces| == 1
  {
  }
}
