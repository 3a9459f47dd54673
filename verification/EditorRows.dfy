/** Moving up and down over the rows that a wrapped text is shown in.

    The column that such moves try to keep is remembered between them, and so is the place from
    which a move snapped to the start of a marker; both are parameters here, and may be anything. */
module EditorRows {
  import opened Options
  import opened EditorText
  import opened EditorMarks
  import opened EditorWords
  import opened WordWrap
  import opened Editor

  /** One row on the screen, and the line of the text that it is part of. */
  datatype Row = Row(start: nat, end: nat, lineStart: nat, lineEnd: nat)

  // ----- the rows of a text -----

  /** The next row continues the line, or begins the line after it. */
  ghost predicate Follows(a: Row, b: Row) {
    || (b.lineStart == a.lineStart && b.lineEnd == a.lineEnd && a.start < a.end == b.start < b.end)
    || (a.end == a.lineEnd && b.start == b.lineStart == a.lineEnd + 1)
  }

  /** Rows that cover a text up to `n`: none is left out, and none is covered twice. */
  ghost predicate RowsCover(rows: seq<Row>, n: nat) {
    && rows != [] && rows[0].start == rows[0].lineStart == 0
    && rows[|rows| - 1].end == rows[|rows| - 1].lineEnd == n
    && (forall i :: 0 <= i < |rows| ==>
          rows[i].lineStart <= rows[i].start <= rows[i].end <= rows[i].lineEnd <= n)
    && (forall i :: 0 < i < |rows| ==> Follows(rows[i - 1], rows[i]))
  }

  predicate IsLast(rows: seq<Row>, r: nat)
    requires r < |rows|
  {
    r + 1 == |rows| || rows[r + 1].lineStart != rows[r].lineStart
  }

  /** Where a position is shown: the end of a row is part of the next one if the line goes on. */
  predicate Holds(rows: seq<Row>, r: nat, position: nat)
    requires r < |rows|
  {
    rows[r].start <= position && (position < rows[r].end || (IsLast(rows, r) && position == rows[r].end))
  }

  lemma {:induction false} RowsAscend(rows: seq<Row>, n: nat, i: nat, j: nat)
    requires RowsCover(rows, n) && i < j < |rows|
    ensures rows[i].end <= rows[j].start && rows[i].start < rows[j].start
    ensures IsLast(rows, i) ==> rows[i].end < rows[j].start
    decreases j
  {
    assert Follows(rows[j - 1], rows[j]);
    if i + 1 < j {
      RowsAscend(rows, n, i, j - 1);
    }
  }

  /** Every position is in one row, and in one only. */
  lemma OnlyRow(rows: seq<Row>, n: nat, position: nat, i: nat, j: nat)
    requires RowsCover(rows, n) && i < |rows| && j < |rows| && Holds(rows, i, position) && Holds(rows, j, position)
    ensures i == j
  {
    if i < j {
      RowsAscend(rows, n, i, j);
    } else if j < i {
      RowsAscend(rows, n, j, i);
    }
  }

  lemma {:induction false} SomeRow(rows: seq<Row>, n: nat, position: nat, r: nat) returns (k: nat)
    requires RowsCover(rows, n) && r < |rows| && position <= n
    requires position <= rows[r].end && (position == rows[r].end ==> IsLast(rows, r))
    ensures k < |rows| && Holds(rows, k, position)
    decreases r
  {
    k := r;
    if position < rows[r].start {
      assert r > 0;
      assert Follows(rows[r - 1], rows[r]);
      k := SomeRow(rows, n, position, r - 1);
    }
  }

  // ----- wrapping -----

  /** Some rows of the text so far: whole lines, up to the one that starts at `next`. */
  ghost predicate RowsBefore(rows: seq<Row>, next: nat) {
    if next == 0 then rows == [] else RowsCover(rows, next - 1)
  }

  lemma {:induction false} CoversInOrder(chunks: seq<Chunk>, line: string, n: nat)
    requires Covers(chunks, line, n) && n > 0
    ensures chunks != [] && chunks[0].start == 0 && chunks[|chunks| - 1].end == n
    ensures forall i :: 0 <= i < |chunks| ==>
      chunks[i].start < chunks[i].end <= n <= |line| && chunks[i].text == line[chunks[i].start..chunks[i].end]
    ensures forall i :: 0 < i < |chunks| ==> chunks[i - 1].end == chunks[i].start
    decreases |chunks|
  {
    var front, last := chunks[..|chunks| - 1], chunks[|chunks| - 1];
    if last.start > 0 {
      CoversInOrder(front, line, last.start);
      assert forall i :: 0 <= i < |front| ==> chunks[i] == front[i];
    } else {
      assert Covers(front, line, 0);
    }
  }

  function RowOf(c: Chunk, lineStart: nat, lineEnd: nat): Row {
    Row(lineStart + c.start, lineStart + c.end, lineStart, lineEnd)
  }

  function RowsOf(chunks: seq<Chunk>, lineStart: nat, lineEnd: nat): (rows: seq<Row>)
    ensures |rows| == |chunks| && forall i :: 0 <= i < |rows| ==> rows[i] == RowOf(chunks[i], lineStart, lineEnd)
  {
    seq(|chunks|, i requires 0 <= i < |chunks| => RowOf(chunks[i], lineStart, lineEnd))
  }

  /** A row is part of a line between line feeds, and as wide as a row may be. */
  ghost predicate ShowsRow(g: string, row: Row, width: nat) {
    && row.lineStart <= row.start <= row.end <= row.lineEnd <= |g|
    && (forall i :: row.lineStart <= i < row.lineEnd ==> g[i] != '\n')
    && (row.lineEnd == |g| || g[row.lineEnd] == '\n')
    && Fits(g[row.start..row.end], width)
  }

  ghost predicate ShowRows(g: string, rows: seq<Row>, width: nat) {
    forall i :: 0 <= i < |rows| ==> ShowsRow(g, rows[i], width)
  }

  lemma MoreRowsShow(g: string, rows: seq<Row>, more: seq<Row>, width: nat)
    requires ShowRows(g, rows, width) && ShowRows(g, more, width)
    ensures ShowRows(g, rows + more, width)
  {
    hide ShowsRow;
  }

  lemma WrappedRowsShow(g: string, chunks: seq<Chunk>, lineStart: nat, lineEnd: nat, width: nat)
    requires lineStart < lineEnd <= |g| && Covers(chunks, g[lineStart..lineEnd], lineEnd - lineStart)
    requires AllFit(chunks, width)
    requires (forall i :: lineStart <= i < lineEnd ==> g[i] != '\n') && (lineEnd == |g| || g[lineEnd] == '\n')
    ensures ShowRows(g, RowsOf(chunks, lineStart, lineEnd), width)
  {
    hide Fits, Covers;
    CoversInOrder(chunks, g[lineStart..lineEnd], lineEnd - lineStart);
    forall i | 0 <= i < |chunks| ensures ShowsRow(g, RowOf(chunks[i], lineStart, lineEnd), width) {
      SliceOfSlice(g, lineStart, lineEnd, chunks[i].start, chunks[i].end);
    }
  }

  lemma EmptyRowShows(g: string, at: nat, width: nat)
    requires at <= |g| && (at == |g| || g[at] == '\n')
    ensures ShowRows(g, [Row(at, at, at, at)], width)
  {
    EmptySlice(g, at);
  }

  lemma LineAdded(rows: seq<Row>, more: seq<Row>, lineStart: nat, lineEnd: nat)
    requires RowsBefore(rows, lineStart) && lineStart <= lineEnd && more != []
    requires more[0].start == lineStart && more[|more| - 1].end == lineEnd
    requires forall i :: 0 <= i < |more| ==>
      && more[i].lineStart == lineStart && more[i].lineEnd == lineEnd
      && lineStart <= more[i].start <= more[i].end <= lineEnd
    requires forall i :: 0 < i < |more| ==> Follows(more[i - 1], more[i])
    ensures RowsCover(rows + more, lineEnd)
  {
    var all := rows + more;
    forall i | 0 < i < |all| ensures Follows(all[i - 1], all[i]) {
      if i < |rows| {
        assert all[i - 1] == rows[i - 1] && all[i] == rows[i];
      } else if i > |rows| {
        assert all[i - 1] == more[i - 1 - |rows|] && all[i] == more[i - |rows|];
      }
    }
  }

  lemma WrappedLine(rows: seq<Row>, chunks: seq<Chunk>, line: string, lineStart: nat, lineEnd: nat)
    requires RowsBefore(rows, lineStart) && lineStart < lineEnd == lineStart + |line|
    requires Covers(chunks, line, |line|)
    ensures RowsCover(rows + RowsOf(chunks, lineStart, lineEnd), lineEnd)
  {
    hide Covers, RowsBefore, RowsCover;
    CoversInOrder(chunks, line, |line|);
    LineAdded(rows, RowsOf(chunks, lineStart, lineEnd), lineStart, lineEnd);
  }

  lemma EmptyLine(rows: seq<Row>, lineStart: nat)
    requires RowsBefore(rows, lineStart)
    ensures RowsCover(rows + [Row(lineStart, lineStart, lineStart, lineStart)], lineStart)
  {
    hide RowsBefore, RowsCover;
    LineAdded(rows, [Row(lineStart, lineStart, lineStart, lineStart)], lineStart, lineStart);
  }

  function MarkerFrom(ms: seq<Marker>, p: int, limit: int): (m: Option<Marker>)
    ensures m.Some? ==> m.value in ms && m.value.start == p && m.value.end <= limit
  {
    if ms == [] then None
    else if ms[0].start == p && ms[0].end <= limit then Some(ms[0])
    else MarkerFrom(ms[1..], p, limit)
  }

  /** The segments of a line: markers are atomic, other graphemes are on their own. */
  method Segments(g: string, pastes: seq<Marker>, lineStart: nat, lineEnd: nat) returns (units: seq<string>)
    requires lineStart <= lineEnd <= |g| && forall m :: m in pastes ==> m.start < m.end
    ensures Joined(units) == g[lineStart..lineEnd] && forall i :: 0 <= i < |units| ==> units[i] != ""
  {
    units := [];
    var index := lineStart;
    while index < lineEnd
      invariant lineStart <= index <= lineEnd
      invariant Joined(units) == g[lineStart..index] && forall i :: 0 <= i < |units| ==> units[i] != ""
      decreases lineEnd - index
    {
      var paste := MarkerFrom(pastes, index, lineEnd);
      var end := if paste.Some? then paste.value.end else index + 1;
      assert (units + [g[index..end]])[..|units|] == units;
      assert g[lineStart..end] == g[lineStart..index] + g[index..end];
      units := units + [g[index..end]];
      index := end;
    }
  }

  /** The rows of a text of some width. */
  method VisualLines(g: string, pastes: seq<Marker>, width: int) returns (rows: seq<Row>)
    requires forall m :: m in pastes ==> m.start < m.end
    ensures RowsCover(rows, |g|) && ShowRows(g, rows, if width < 1 then 1 else width)
  {
    hide RowsCover, Covers, AllFit, Tight, Joined, ShowRows;
    var columns := if width < 1 then 1 else width;
    rows := [];
    var lineStart: nat := 0;
    NoRows(g, columns);
    while true
      invariant lineStart <= |g| && RowsBefore(rows, lineStart) && ShowRows(g, rows, columns)
      decreases |g| - lineStart
    {
      var lineEnd := lineStart;
      while lineEnd < |g| && g[lineEnd] != '\n'
        invariant lineStart <= lineEnd <= |g| && forall i :: lineStart <= i < lineEnd ==> g[i] != '\n'
      {
        lineEnd := lineEnd + 1;
      }
      if lineEnd == lineStart {
        EmptyLine(rows, lineStart);
        EmptyRowShows(g, lineStart, columns);
        MoreRowsShow(g, rows, [Row(lineStart, lineStart, lineStart, lineStart)], columns);
        rows := rows + [Row(lineStart, lineStart, lineStart, lineStart)];
      } else {
        var line := g[lineStart..lineEnd];
        var units := Segments(g, pastes, lineStart, lineEnd);
        var chunks := WordWrapLine(line, columns, Some(units));
        WrappedLine(rows, chunks, line, lineStart, lineEnd);
        WrappedRowsShow(g, chunks, lineStart, lineEnd, columns);
        MoreRowsShow(g, rows, RowsOf(chunks, lineStart, lineEnd), columns);
        rows := rows + RowsOf(chunks, lineStart, lineEnd);
      }
      if lineEnd >= |g| {
        return;
      }
      lineStart := lineEnd + 1;
    }
  }

  lemma NoRows(g: string, width: nat)
    ensures RowsBefore([], 0) && ShowRows(g, [], width)
  {
  }

  /** The row of a position; of one behind the text, the last row. */
  method FindVisualLine(rows: seq<Row>, position: nat, ghost n: nat) returns (r: nat)
    requires RowsCover(rows, n)
    ensures r < |rows| && rows[r].start <= position
    ensures position <= n ==> Holds(rows, r, position)
  {
    hide RowsCover;
    LastRow(rows, n);
    for index := 0 to |rows|
      invariant forall i :: 0 <= i < index ==> !Holds(rows, i, position)
    {
      if Holds(rows, index, position) {
        return index;
      }
    }
    if position <= n {
      var k := SomeRow(rows, n, position, |rows| - 1);
      assert false;
    }
    r := |rows| - 1;
  }

  lemma LastRow(rows: seq<Row>, n: nat)
    requires RowsCover(rows, n)
    ensures rows != [] && rows[|rows| - 1].start <= rows[|rows| - 1].end == n && IsLast(rows, |rows| - 1)
  {
  }

  // ----- columns -----

  /** The last column of a row that the cursor can be in. */
  function LastColumn(rows: seq<Row>, r: nat): nat
    requires r < |rows| && rows[r].start <= rows[r].end
  {
    var length := rows[r].end - rows[r].start;
    if IsLast(rows, r) then length else if length > 0 then length - 1 else 0
  }

  /** The column in the target row, and the column to remember. */
  function ChooseColumn(preferred: Option<nat>, column: nat, sourceMaximum: nat, targetMaximum: nat)
    : (nat, Option<nat>)
  {
    if preferred.None? || column < sourceMaximum then
      if targetMaximum < column then (targetMaximum, Some(column)) else (column, None)
    else if targetMaximum < column || targetMaximum < preferred.value then (targetMaximum, preferred)
    else (preferred.value, None)
  }

  /** A column is found again on the way back, however short the row in between is. */
  lemma ColumnReturns(column: nat, sourceMaximum: nat, targetMaximum: nat)
    requires column <= sourceMaximum
    ensures var (c, preferred) := ChooseColumn(None, column, sourceMaximum, targetMaximum);
      ChooseColumn(preferred, c, targetMaximum, sourceMaximum) == (column, None)
  {
  }

  // ----- moving -----

  /** Strictly inside a marker. */
  predicate Inside(pastes: seq<Marker>, p: int) {
    PasteAt(pastes, p).Some? && PasteAt(pastes, p).value.start < p
  }

  /** A position in a row, and where the cursor goes: there, or to the start of the marker that the
      position is inside, in which case it is remembered. */
  ghost predicate Lands(
    rows: seq<Row>, pastes: seq<Marker>, row: nat, p: nat, cursor: int, snapped: Option<nat>)
  {
    && row < |rows| && rows[row].start <= p <= rows[row].end
    && if Inside(pastes, p) then cursor == PasteAt(pastes, p).value.start && snapped == Some(p)
       else cursor == p && snapped == None
  }

  ghost predicate LandsBehind(
    rows: seq<Row>, pastes: seq<Marker>, target: nat, cursor: int, snapped: Option<nat>)
  {
    exists row, p :: target <= row && Lands(rows, pastes, row, p, cursor, snapped)
  }

  /** The end of the line of place `n` that is on one side. */
  ghost predicate AtLineEnd(ts: seq<Token>, n: nat, up: bool, m: nat) {
    exists i: nat, j: nat :: IsLine(ts, i, n, j) && m == if up then i else j
  }

  /** Where a column is in a row. */
  function PlaceIn(row: Row, column: nat): nat {
    if row.start + column < row.end then row.start + column else row.end
  }

  /** A position that is not inside a marker lies between tokens, and so does a marker's start. */
  lemma BetweenTokens(ts: seq<Token>, p: nat) returns (k: nat)
    requires Titled(ts) && p <= |Text(ts)|
    ensures k <= |ts|
    ensures At(ts, k) == if Inside(Marks(ts, 0), p) then PasteAt(Marks(ts, 0), p).value.start else p
  {
    hide Text, Marks, Titled, PasteAt, At;
    AtEnds(ts);
    if p == |Text(ts)| {
      PasteAtEnd(ts, p);
      k := |ts|;
    } else {
      k := TokenAt(ts, p);
      PasteAtToken(ts, k, p);
      AtNext(ts, k);
    }
  }

  /** The row that the move goes on to, over the rows that a marker continues in. */
  method RowBehind(rows: seq<Row>, target: nat, end: int) returns (next: nat)
    requires target < |rows|
    ensures target < next <= |rows|
    ensures forall i :: target < i < next ==> rows[i].lineStart == rows[target].lineStart && rows[i].start < end
    ensures next < |rows| ==> rows[next].lineStart != rows[target].lineStart || rows[next].start >= end
  {
    next := target + 1;
    while next < |rows| && rows[next].lineStart == rows[target].lineStart && rows[next].start < end
      invariant target < next <= |rows|
      invariant forall i :: target < i < next ==> rows[i].lineStart == rows[target].lineStart && rows[i].start < end
    {
      next := next + 1;
    }
  }

  /** Moves to a row, or, downwards, on to a later one while the place is inside a marker that began
      in an earlier row; so the moves end. The cursor never stays inside a marker. */
  method MoveToVisualLine(
    e: MultilineEditor, rows: seq<Row>, current: nat, target: nat, preferred: Option<nat>, snapped: Option<nat>)
    returns (changed: bool, nextPreferred: Option<nat>, nextSnapped: Option<nat>)
    requires e.Valid() && e.lastAction.NoAction? && RowsCover(rows, |e.graphemes|)
    requires current < |rows| && target < |rows| && rows[current].start <= e.cursor
    modifies e`cursor, e`left, e`right
    ensures e.Valid() && e.Tokens() == old(e.Tokens()) && (changed <==> e.cursor != old(e.cursor))
    ensures LandsBehind(rows, e.pastes, target, e.cursor, nextSnapped)
    ensures snapped.None? ==>
      var (column, remembered) := ChooseColumn(
        preferred, old(e.cursor) - rows[current].start, LastColumn(rows, current), LastColumn(rows, target));
      !Inside(e.pastes, PlaceIn(rows[target], column)) ==>
        e.cursor == PlaceIn(rows[target], column) && nextPreferred == remembered && nextSnapped == None
    decreases |rows| - target
  {
    hide *;
    e.ValidParts();
    e.SettledParts();
    RowIs(rows, |e.graphemes|, current);
    RowIs(rows, |e.graphemes|, target);
    var column := e.cursor - rows[current].start;
    if snapped.Some? {
      var resolved := FindVisualLine(rows, snapped.value, |e.graphemes|);
      column := snapped.value - rows[resolved].start;
    }
    var (selected, remembered) := ChooseColumn(
      preferred, column, LastColumn(rows, current), LastColumn(rows, target));
    var p := PlaceIn(rows[target], selected);
    PlaceIsIn(rows[target], selected);
    nextPreferred := remembered;
    var paste := PasteAt(e.pastes, p);
    InsideIs(e.pastes, p);
    ghost var k := BetweenTokens(e.Tokens(), p);
    if paste.Some? && paste.value.start < p {
      if paste.value.start < rows[target].start && target > current {
        var next := RowBehind(rows, target, paste.value.end);
        if next < |rows| {
          changed, nextPreferred, nextSnapped := MoveToVisualLine(
            e, rows, current, next, remembered, snapped);
          LandsFarther(rows, e.pastes, next, target, e.cursor, nextSnapped);
          return;
        }
      }
      changed, nextSnapped := e.cursor != paste.value.start, Some(p);
      e.MoveTo(paste.value.start, k);
    } else {
      changed, nextSnapped := e.cursor != p, None;
      e.MoveTo(p, k);
    }
    LandsThere(rows, e.pastes, target, p, e.cursor, nextSnapped);
    e.SettledIsValid();
  }

  lemma RowIs(rows: seq<Row>, n: nat, r: nat)
    requires RowsCover(rows, n) && r < |rows|
    ensures rows[r].start <= rows[r].end <= n
  {
  }

  lemma PlaceIsIn(row: Row, column: nat)
    requires row.start <= row.end
    ensures row.start <= PlaceIn(row, column) <= row.end
  {
  }

  lemma InsideIs(pastes: seq<Marker>, p: int)
    ensures Inside(pastes, p) <==> PasteAt(pastes, p).Some? && PasteAt(pastes, p).value.start < p
  {
  }

  lemma LandsThere(rows: seq<Row>, pastes: seq<Marker>, row: nat, p: nat, cursor: int, snapped: Option<nat>)
    requires row < |rows| && rows[row].start <= p <= rows[row].end
    requires if Inside(pastes, p) then cursor == PasteAt(pastes, p).value.start && snapped == Some(p)
      else cursor == p && snapped == None
    ensures LandsBehind(rows, pastes, row, cursor, snapped)
  {
    assert Lands(rows, pastes, row, p, cursor, snapped);
  }

  lemma LandsFarther(
    rows: seq<Row>, pastes: seq<Marker>, next: nat, target: nat, cursor: int, snapped: Option<nat>)
    requires LandsBehind(rows, pastes, next, cursor, snapped) && target <= next
    ensures LandsBehind(rows, pastes, target, cursor, snapped)
  {
    hide Lands;
  }

  lemma LineEndIs(ts: seq<Token>, i: nat, n: nat, j: nat, up: bool)
    requires IsLine(ts, i, n, j)
    ensures AtLineEnd(ts, n, up, if up then i else j)
  {
    hide IsLine;
  }

  function RowAway(current: nat, up: bool, distance: nat, count: nat): (target: nat)
    requires current < count
    ensures target < count
  {
    if up then if current < distance then 0 else current - distance
    else if current + distance < count then current + distance else count - 1
  }

  /** Moves by some rows, or, when there is no row to go to, to the end of the line on that side. */
  method MoveVertical(
    e: MultilineEditor, up: bool, width: int, distance: nat, preferred: Option<nat>, snapped: Option<nat>)
    returns (changed: bool, nextPreferred: Option<nat>, nextSnapped: Option<nat>, current: nat, rows: seq<Row>)
    requires e.Valid()
    modifies e`cursor, e`left, e`right, e`lastAction, e`lastYank
    ensures e.Valid() && e.Tokens() == old(e.Tokens()) && (changed <==> e.cursor != old(e.cursor))
    ensures RowsCover(rows, |e.graphemes|) && ShowRows(e.graphemes, rows, if width < 1 then 1 else width)
    ensures current < |rows| && old(e.cursor) >= 0 && Holds(rows, current, old(e.cursor))
    ensures
      if RowAway(current, up, distance, |rows|) != current
      then LandsBehind(rows, e.pastes, RowAway(current, up, distance, |rows|), e.cursor, nextSnapped)
      else AtLineEnd(e.Tokens(), |old(e.left)|, up, |e.left|)
  {
    hide *;
    e.ValidParts();
    e.SettledParts();
    e.BreakAction();
    e.SettledIsValid();
    ghost var n := |e.graphemes|;
    MarkersAreSome(e.Tokens());
    rows := VisualLines(e.graphemes, e.pastes, width);
    current := FindVisualLine(rows, e.cursor, n);
    var target := RowAway(current, up, distance, |rows|);
    if target == current {
      var start, end, i, j := e.LineBounds();
      LineEndIs(e.Tokens(), i, |e.left|, j, up);
      changed := (if up then start else end) != e.cursor;
      e.MoveTo(if up then start else end, if up then i else j);
      e.SettledIsValid();
      nextPreferred, nextSnapped := None, None;
    } else {
      changed, nextPreferred, nextSnapped := MoveToVisualLine(e, rows, current, target, preferred, snapped);
    }
  }

  lemma MarkersAreSome(ts: seq<Token>)
    requires Titled(ts)
    ensures forall m :: m in Marks(ts, 0) ==> m.start < m.end
  {
    MarksInside(ts, 0);
  }

  /** A move to another row and back again leads back, however short that row is, unless the first
      move falls into a marker. */
  method ThereAndBack(e: MultilineEditor, rows: seq<Row>, current: nat, target: nat)
    requires e.Valid() && e.lastAction.NoAction? && RowsCover(rows, |e.graphemes|)
    requires current < |rows| && target < |rows| && Holds(rows, current, e.cursor)
    requires var column := e.cursor - rows[current].start;
      !Inside(e.pastes, PlaceIn(rows[target], ChooseColumn(
        None, column, LastColumn(rows, current), LastColumn(rows, target)).0))
    modifies e`cursor, e`left, e`right
    ensures e.Valid() && e.Tokens() == old(e.Tokens()) && |e.left| == |old(e.left)| && e.cursor == old(e.cursor)
  {
    hide *;
    ghost var ts, n := e.Tokens(), |e.left|;
    e.ValidParts();
    e.SettledParts();
    RowIs(rows, |e.graphemes|, current);
    RowIs(rows, |e.graphemes|, target);
    HeldColumn(rows, |e.graphemes|, current, e.cursor);
    ChosenColumn(e.cursor - rows[current].start, LastColumn(rows, current), LastColumn(rows, target));
    ColumnHolds(rows, |e.graphemes|, target, ChooseColumn(
      None, e.cursor - rows[current].start, LastColumn(rows, current), LastColumn(rows, target)).0);
    ColumnReturns(e.cursor - rows[current].start, LastColumn(rows, current), LastColumn(rows, target));
    NotInside(ts, n);
    var _, preferred, snapped := MoveToVisualLine(e, rows, current, target, None, None);
    e.ValidParts();
    e.SettledParts();
    var row := FindVisualLine(rows, e.cursor, |e.graphemes|);
    OnlyRow(rows, |e.graphemes|, e.cursor, row, target);
    var _, _, _ := MoveToVisualLine(e, rows, row, current, preferred, snapped);
    e.ValidParts();
    e.SettledParts();
    OnePlace(ts, |e.left|, n);
  }

  lemma HeldColumn(rows: seq<Row>, n: nat, r: nat, p: nat)
    requires RowsCover(rows, n) && r < |rows| && Holds(rows, r, p)
    ensures rows[r].start <= p && p - rows[r].start <= LastColumn(rows, r)
    ensures PlaceIn(rows[r], p - rows[r].start) == p
  {
  }

  lemma ColumnHolds(rows: seq<Row>, n: nat, r: nat, column: nat)
    requires RowsCover(rows, n) && r < |rows| && column <= LastColumn(rows, r)
    ensures Holds(rows, r, PlaceIn(rows[r], column)) && PlaceIn(rows[r], column) == rows[r].start + column <= n
  {
    assert r + 1 < |rows| ==> Follows(rows[r + 1 - 1], rows[r + 1]);
  }

  lemma ChosenColumn(column: nat, sourceMaximum: nat, targetMaximum: nat)
    ensures ChooseColumn(None, column, sourceMaximum, targetMaximum).0 <= targetMaximum
  {
  }

  lemma NotInside(ts: seq<Token>, n: nat)
    requires Titled(ts) && n <= |ts|
    ensures !Inside(Marks(ts, 0), At(ts, n))
  {
    hide Text, Marks, Titled, PasteAt, At;
    AtEnds(ts);
    if n == |ts| {
      PasteAtEnd(ts, At(ts, n));
    } else {
      AtOrder(ts, n, n + 1);
      PasteAtToken(ts, n, At(ts, n));
    }
  }

  lemma OnePlace(ts: seq<Token>, i: nat, j: nat)
    requires Titled(ts) && i <= |ts| && j <= |ts| && At(ts, i) == At(ts, j)
    ensures i == j
  {
    hide At, Titled;
    AtOrder(ts, i, j);
    AtOrder(ts, j, i);
  }
}
