/** Positions in the editor's text and the markers that lie there. */
module EditorMarks {
  import opened Options
  import opened JsonLines
  import opened EditorText

  /** Where token `k` starts. */
  function At(ts: seq<Token>, k: nat): nat
    requires k <= |ts|
  {
    |Text(ts[..k])|
  }

  /** A position between two tokens. */
  ghost predicate Boundary(ts: seq<Token>, p: int) {
    exists k :: 0 <= k <= |ts| && At(ts, k) == p
  }

  lemma TextParts(ts: seq<Token>, k: nat)
    requires k <= |ts|
    ensures Text(ts) == Text(ts[..k]) + Text(ts[k..])
    ensures Text(ts)[..At(ts, k)] == Text(ts[..k]) && Text(ts)[At(ts, k)..] == Text(ts[k..])
  {
    assert ts == ts[..k] + ts[k..];
    TextJoin(ts[..k], ts[k..]);
  }

  lemma TextOne(t: Token)
    ensures Text([t]) == Shown(t) && Count([t]) == (if t.Paste? then 1 else 0)
  {
    assert Shown(t) + Text([]) == Shown(t);
    assert [t][1..] == [];
  }

  lemma AtNext(ts: seq<Token>, k: nat)
    requires k < |ts|
    ensures At(ts, k + 1) == At(ts, k) + |Shown(ts[k])|
  {
    assert ts[..k + 1] == ts[..k] + [ts[k]];
    TextJoin(ts[..k], [ts[k]]);
    TextOne(ts[k]);
  }

  lemma {:induction false} AtGrows(ts: seq<Token>, j: nat, k: nat)
    requires j <= k <= |ts|
    ensures At(ts, j) <= At(ts, k)
    decreases k - j
  {
    if j < k {
      AtGrows(ts, j, k - 1);
      AtNext(ts, k - 1);
    }
  }

  lemma AtEnds(ts: seq<Token>)
    ensures At(ts, 0) == 0 && At(ts, |ts|) == |Text(ts)|
  {
    assert ts[..0] == [] && ts[..|ts|] == ts;
  }

  lemma ShownIsSome(ts: seq<Token>, k: nat)
    requires Titled(ts) && k < |ts|
    ensures |Shown(ts[k])| > 0 && At(ts, k) < At(ts, k + 1)
  {
    AtNext(ts, k);
  }

  lemma AtOrder(ts: seq<Token>, j: nat, k: nat)
    requires Titled(ts) && j <= |ts| && k <= |ts|
    ensures j <= k <==> At(ts, j) <= At(ts, k)
    ensures j < k <==> At(ts, j) < At(ts, k)
  {
    if j < k {
      ShownIsSome(ts, j);
      AtGrows(ts, j + 1, k);
    } else if k < j {
      ShownIsSome(ts, k);
      AtGrows(ts, k + 1, j);
    }
  }

  /** The token that shows position `p`. */
  lemma TokenAt(ts: seq<Token>, p: nat) returns (k: nat)
    requires p < |Text(ts)|
    ensures k < |ts| && At(ts, k) <= p < At(ts, k + 1)
  {
    AtEnds(ts);
    k := 0;
    while At(ts, k + 1) <= p
      invariant k < |ts| && At(ts, k) <= p
      decreases |ts| - k
    {
      k := k + 1;
    }
  }

  lemma SliceIsText(ts: seq<Token>, i: nat, j: nat)
    requires i <= j <= |ts|
    ensures At(ts, i) <= At(ts, j) <= |Text(ts)|
    ensures Text(ts)[At(ts, i)..At(ts, j)] == Text(ts[i..j])
    ensures |Text(ts[i..j])| == At(ts, j) - At(ts, i)
  {
    AtGrows(ts, i, j);
    TextParts(ts, j);
    TextParts(ts[..j], i);
    assert ts[..j][..i] == ts[..i] && ts[..j][i..] == ts[i..j];
    assert Text(ts)[At(ts, i)..At(ts, j)] == Text(ts)[..At(ts, j)][At(ts, i)..];
  }

  lemma ShownAt(ts: seq<Token>, k: nat)
    requires k < |ts|
    ensures At(ts, k) <= At(ts, k + 1) <= |Text(ts)|
    ensures Text(ts)[At(ts, k)..At(ts, k + 1)] == Shown(ts[k])
  {
    SliceIsText(ts, k, k + 1);
    TextOne(ts[k]);
    assert ts[k..k + 1] == [ts[k]];
  }

  // ----- markers -----

  function Move(m: Marker, d: int): Marker {
    m.(start := m.start + d, end := m.end + d)
  }

  function MoveAll(ms: seq<Marker>, d: int): (r: seq<Marker>)
    ensures |r| == |ms|
  {
    if ms == [] then [] else [Move(ms[0], d)] + MoveAll(ms[1..], d)
  }

  lemma {:induction false} MoveAllJoin(a: seq<Marker>, b: seq<Marker>, d: int)
    ensures MoveAll(a + b, d) == MoveAll(a, d) + MoveAll(b, d)
  {
    if a == [] {
      assert a + b == b;
    } else {
      assert (a + b)[0] == a[0] && (a + b)[1..] == a[1..] + b;
      MoveAllJoin(a[1..], b, d);
    }
  }

  lemma MoveOne(t: Token, at: int, d: int)
    ensures MoveAll(MarkOf(t, at), d) == MarkOf(t, at + d)
  {
    if t.Paste? {
      assert MarkOf(t, at)[1..] == [];
    }
  }

  lemma {:induction false} MarksMove(ts: seq<Token>, at: int, d: int)
    ensures Marks(ts, at + d) == MoveAll(Marks(ts, at), d)
  {
    hide MarkOf, MoveAll, Shown;
    if ts != [] {
      MarksMove(ts[1..], at + |Shown(ts[0])|, d);
      MoveOne(ts[0], at, d);
      MoveAllJoin(MarkOf(ts[0], at), Marks(ts[1..], at + |Shown(ts[0])|), d);
    } else {
      NothingMoves(d);
    }
  }

  lemma NothingMoves(d: int)
    ensures MoveAll([], d) == []
  {
  }

  lemma {:induction false} MarksInside(ts: seq<Token>, at: int)
    requires Titled(ts)
    ensures |Marks(ts, at)| == Count(ts)
    ensures forall i :: 0 <= i < |Marks(ts, at)| ==>
      at <= Marks(ts, at)[i].start < Marks(ts, at)[i].end <= at + |Text(ts)|
  {
    if ts != [] {
      MarksInside(ts[1..], at + |Shown(ts[0])|);
    }
  }

  lemma MarksOne(t: Token, at: int)
    ensures Marks([t], at) == MarkOf(t, at)
  {
    assert [t][1..] == [] && MarkOf(t, at) + [] == MarkOf(t, at);
  }

  lemma SplitAtToken<T>(ts: seq<T>, k: nat)
    requires k < |ts|
    ensures ts == ts[..k + 1] + ts[k + 1..] && ts[..k + 1] == ts[..k] + [ts[k]]
  {
  }

  /** The markers before, at and after token `k`. */
  lemma MarksAround(ts: seq<Token>, k: nat)
    requires k < |ts|
    ensures Marks(ts, 0) == Marks(ts[..k], 0) + MarkOf(ts[k], At(ts, k)) + Marks(ts[k + 1..], At(ts, k + 1))
  {
    hide Marks, MarkOf, Shown, Text;
    SplitAtToken(ts, k);
    MarksJoin(ts[..k + 1], ts[k + 1..], 0);
    MarksJoin(ts[..k], [ts[k]], 0);
    MarksOne(ts[k], At(ts, k));
  }

  function PasteAt(ms: seq<Marker>, p: int): Option<Marker> {
    if ms == [] then None
    else if ms[0].start <= p < ms[0].end then Some(ms[0])
    else PasteAt(ms[1..], p)
  }

  lemma {:induction false} PasteAtSkips(a: seq<Marker>, b: seq<Marker>, p: int)
    requires forall i :: 0 <= i < |a| ==> !(a[i].start <= p < a[i].end)
    ensures PasteAt(a + b, p) == PasteAt(b, p)
  {
    if a == [] {
      assert a + b == b;
    } else {
      assert (a + b)[0] == a[0] && (a + b)[1..] == a[1..] + b;
      PasteAtSkips(a[1..], b, p);
    }
  }

  lemma NoPasteAt(ms: seq<Marker>, p: int)
    requires forall i :: 0 <= i < |ms| ==> !(ms[i].start <= p < ms[i].end)
    ensures PasteAt(ms, p) == None
  {
    PasteAtSkips(ms, [], p);
    assert ms + [] == ms;
  }

  function MarkerOf(t: Token, at: int): Option<Marker> {
    match t
    case Char(_) => None
    case Paste(payload, title, ordinal) => Some(Marker(at, at + |title|, payload, title, ordinal))
  }

  lemma PasteAtOne(t: Token, at: int, p: int, more: seq<Marker>)
    requires at <= p < at + |Shown(t)|
    ensures PasteAt(MarkOf(t, at) + more, p) == if t.Paste? then MarkerOf(t, at) else PasteAt(more, p)
  {
    if t.Char? {
      assert MarkOf(t, at) + more == more;
    }
  }

  /** The marker at a position is the token that shows it, if that is a marker. */
  lemma PasteAtToken(ts: seq<Token>, k: nat, p: int)
    requires Titled(ts) && k < |ts| && At(ts, k) <= p < At(ts, k + 1)
    ensures PasteAt(Marks(ts, 0), p) == MarkerOf(ts[k], At(ts, k))
  {
    hide Marks, MarkOf, Shown, Text, PasteAt, Titled, Count;
    TitledPart(ts, 0, k);
    TitledPart(ts, k + 1, |ts|);
    MarksInside(ts[..k], 0);
    MarksInside(ts[k + 1..], At(ts, k + 1));
    AtNext(ts, k);
    MarksAround(ts, k);
    var before, one, after := Marks(ts[..k], 0), MarkOf(ts[k], At(ts, k)), Marks(ts[k + 1..], At(ts, k + 1));
    assert before + one + after == before + (one + after);
    PasteAtSkips(before, one + after, p);
    PasteAtOne(ts[k], At(ts, k), p, after);
    NoPasteAt(after, p);
  }

  lemma PasteAtEnd(ts: seq<Token>, p: int)
    requires Titled(ts) && (p < 0 || p >= |Text(ts)|)
    ensures PasteAt(Marks(ts, 0), p) == None
  {
    MarksInside(ts, 0);
    NoPasteAt(Marks(ts, 0), p);
  }

  // ----- taking a range out -----

  /** The markers that do not overlap `start..end`, moved to where they are after its removal. */
  function Remaining(ms: seq<Marker>, start: int, end: int): seq<Marker> {
    if ms == [] then []
    else
      var m := ms[0];
      (if m.start < end && m.end > start then []
       else [m.(
         start := if m.start >= end then m.start - (end - start) else m.start,
         end := if m.end >= end then m.end - (end - start) else m.end)])
      + Remaining(ms[1..], start, end)
  }

  datatype FragmentMarker = FragmentMarker(start: int, end: int, payload: string)

  /** The markers inside `start..end`, relative to `start`. */
  function Inside(ms: seq<Marker>, start: int, end: int): seq<FragmentMarker> {
    if ms == [] then []
    else
      (if ms[0].start >= start && ms[0].end <= end
       then [FragmentMarker(ms[0].start - start, ms[0].end - start, ms[0].payload)] else [])
      + Inside(ms[1..], start, end)
  }

  function FragmentMark(t: Token, at: int): seq<FragmentMarker> {
    match t
    case Char(_) => []
    case Paste(payload, title, _) => [FragmentMarker(at, at + |title|, payload)]
  }

  function FragmentMarks(ts: seq<Token>, at: int): seq<FragmentMarker> {
    if ts == [] then [] else FragmentMark(ts[0], at) + FragmentMarks(ts[1..], at + |Shown(ts[0])|)
  }

  lemma {:induction false} RemainingJoin(a: seq<Marker>, b: seq<Marker>, start: int, end: int)
    ensures Remaining(a + b, start, end) == Remaining(a, start, end) + Remaining(b, start, end)
  {
    if a == [] {
      assert a + b == b;
    } else {
      assert (a + b)[0] == a[0] && (a + b)[1..] == a[1..] + b;
      RemainingJoin(a[1..], b, start, end);
    }
  }

  lemma {:induction false} InsideJoin(a: seq<Marker>, b: seq<Marker>, start: int, end: int)
    ensures Inside(a + b, start, end) == Inside(a, start, end) + Inside(b, start, end)
  {
    if a == [] {
      assert a + b == b;
    } else {
      assert (a + b)[0] == a[0] && (a + b)[1..] == a[1..] + b;
      InsideJoin(a[1..], b, start, end);
    }
  }

  ghost predicate AllWithin(ms: seq<Marker>, low: int, high: int) {
    forall i :: 0 <= i < |ms| ==> low <= ms[i].start < ms[i].end <= high
  }

  lemma {:induction false} RemainingBefore(ms: seq<Marker>, low: int, start: int, end: int)
    requires AllWithin(ms, low, start) && start < end
    ensures Remaining(ms, start, end) == ms && Inside(ms, start, end) == []
  {
    if ms != [] {
      assert forall i :: 0 <= i < |ms[1..]| ==> ms[1..][i] == ms[i + 1];
      RemainingBefore(ms[1..], low, start, end);
      assert ms == [ms[0]] + ms[1..];
    }
  }

  lemma {:induction false} RemainingWithin(ms: seq<Marker>, start: int, end: int)
    requires AllWithin(ms, start, end)
    ensures Remaining(ms, start, end) == []
  {
    if ms != [] {
      assert forall i :: 0 <= i < |ms[1..]| ==> ms[1..][i] == ms[i + 1];
      RemainingWithin(ms[1..], start, end);
    }
  }

  lemma {:induction false} RemainingAfter(ms: seq<Marker>, start: int, end: int, high: int)
    requires AllWithin(ms, end, high) && start < end
    ensures Remaining(ms, start, end) == MoveAll(ms, start - end) && Inside(ms, start, end) == []
  {
    if ms != [] {
      assert forall i :: 0 <= i < |ms[1..]| ==> ms[1..][i] == ms[i + 1];
      RemainingAfter(ms[1..], start, end, high);
    }
  }

  lemma InsideOne(t: Token, at: int, start: int, end: int)
    requires start <= at && at + |Shown(t)| <= end
    ensures Inside(MarkOf(t, at), start, end) == FragmentMark(t, at - start)
  {
    if t.Paste? {
      assert MarkOf(t, at)[1..] == [];
    }
  }

  lemma {:induction false} InsideAll(ts: seq<Token>, at: int, start: int, end: int)
    requires start <= at && at + |Text(ts)| <= end
    ensures Inside(Marks(ts, at), start, end) == FragmentMarks(ts, at - start)
  {
    hide MarkOf, Inside, Shown, FragmentMark;
    if ts != [] {
      var next := at + |Shown(ts[0])|;
      InsideAll(ts[1..], next, start, end);
      InsideOne(ts[0], at, start, end);
      InsideJoin(MarkOf(ts[0], at), Marks(ts[1..], next), start, end);
    } else {
      NothingInside(start, end);
    }
  }

  lemma NothingInside(start: int, end: int)
    ensures Inside([], start, end) == []
  {
  }

  lemma MarksAreWithin(ts: seq<Token>, at: int)
    requires Titled(ts)
    ensures AllWithin(Marks(ts, at), at, at + |Text(ts)|)
  {
    MarksInside(ts, at);
  }

  lemma TitledPart(ts: seq<Token>, i: nat, j: nat)
    requires Titled(ts) && i <= j <= |ts|
    ensures Titled(ts[i..j]) && Titled(ts[i..]) && Titled(ts[..j])
  {
  }

  lemma TitledJoin(a: seq<Token>, b: seq<Token>)
    requires Titled(a) && Titled(b)
    ensures Titled(a + b)
  {
  }

  /** Cutting tokens `m` out of the middle. */
  lemma CutMarks(l: seq<Token>, m: seq<Token>, r: seq<Token>)
    requires Titled(l) && Titled(m) && Titled(r) && m != []
    ensures var start, end := |Text(l)|, |Text(l)| + |Text(m)|;
      && start < end
      && Remaining(Marks(l + m + r, 0), start, end) == Marks(l + r, 0)
      && Inside(Marks(l + m + r, 0), start, end) == FragmentMarks(m, 0)
  {
    hide AllWithin, Marks, Remaining, Inside, Text, Titled, MoveAll, FragmentMarks;
    var start, end := |Text(l)|, |Text(l)| + |Text(m)|;
    TextSome(m);
    MarksJoin(l + m, r, 0);
    MarksJoin(l, m, 0);
    MarksJoin(l, r, 0);
    TextJoin(l, m);
    MarksAreWithin(l, 0);
    MarksAreWithin(m, start);
    MarksAreWithin(r, end);
    RemainingJoin(Marks(l, 0) + Marks(m, start), Marks(r, end), start, end);
    RemainingJoin(Marks(l, 0), Marks(m, start), start, end);
    InsideJoin(Marks(l, 0) + Marks(m, start), Marks(r, end), start, end);
    InsideJoin(Marks(l, 0), Marks(m, start), start, end);
    RemainingBefore(Marks(l, 0), 0, start, end);
    RemainingWithin(Marks(m, start), start, end);
    RemainingAfter(Marks(r, end), start, end, end + |Text(r)|);
    InsideAll(m, start, start, end);
    MarksMove(r, end, start - end);
  }

  lemma TextSome(ts: seq<Token>)
    requires Titled(ts) && ts != []
    ensures Text(ts) != ""
  {
    assert |Shown(ts[0])| > 0;
  }

  // ----- putting tokens in -----

  /** Markers at or after a position, moved by some amount. */
  function Shifted(ms: seq<Marker>, p: int, d: int): seq<Marker> {
    if ms == [] then []
    else [if ms[0].start >= p then Move(ms[0], d) else ms[0]] + Shifted(ms[1..], p, d)
  }

  lemma {:induction false} ShiftedJoin(a: seq<Marker>, b: seq<Marker>, p: int, d: int)
    ensures Shifted(a + b, p, d) == Shifted(a, p, d) + Shifted(b, p, d)
  {
    if a == [] {
      assert a + b == b;
    } else {
      assert (a + b)[0] == a[0] && (a + b)[1..] == a[1..] + b;
      ShiftedJoin(a[1..], b, p, d);
    }
  }

  lemma {:induction false} ShiftedBefore(ms: seq<Marker>, low: int, p: int, d: int)
    requires AllWithin(ms, low, p)
    ensures Shifted(ms, p, d) == ms
  {
    if ms != [] {
      assert forall i :: 0 <= i < |ms[1..]| ==> ms[1..][i] == ms[i + 1];
      ShiftedBefore(ms[1..], low, p, d);
      assert ms == [ms[0]] + ms[1..];
    }
  }

  lemma {:induction false} ShiftedAfter(ms: seq<Marker>, p: int, high: int, d: int)
    requires AllWithin(ms, p, high)
    ensures Shifted(ms, p, d) == MoveAll(ms, d)
  {
    if ms != [] {
      assert forall i :: 0 <= i < |ms[1..]| ==> ms[1..][i] == ms[i + 1];
      ShiftedAfter(ms[1..], p, high, d);
    }
  }

  /** Making room for `d` characters between `l` and `r`. */
  lemma ShiftMarks(l: seq<Token>, r: seq<Token>, d: nat)
    requires Titled(l) && Titled(r)
    ensures Shifted(Marks(l + r, 0), |Text(l)|, d) == Marks(l, 0) + Marks(r, |Text(l)| + d)
  {
    hide AllWithin, Marks, Text, Titled, MoveAll, Shifted;
    var p := |Text(l)|;
    MarksJoin(l, r, 0);
    MarksAreWithin(l, 0);
    MarksAreWithin(r, p);
    ShiftedJoin(Marks(l, 0), Marks(r, p), p, d);
    ShiftedBefore(Marks(l, 0), 0, p, d);
    ShiftedAfter(Marks(r, p), p, p + |Text(r)|, d);
    MarksMove(r, p, d);
  }

  // ----- sorting markers -----

  function InsertByStart(m: Marker, ms: seq<Marker>): seq<Marker> {
    if ms == [] || m.start < ms[0].start then [m] + ms else [ms[0]] + InsertByStart(m, ms[1..])
  }

  /** A stable sort by start. */
  function SortByStart(ms: seq<Marker>): seq<Marker> {
    if ms == [] then [] else InsertByStart(ms[|ms| - 1], SortByStart(ms[..|ms| - 1]))
  }

  lemma {:induction false} InsertBetween(a: seq<Marker>, m: Marker, b: seq<Marker>)
    requires forall i :: 0 <= i < |a| ==> a[i].start <= m.start
    requires b != [] ==> m.start < b[0].start
    ensures InsertByStart(m, a + b) == a + [m] + b
  {
    if a == [] {
      assert a + b == b;
      assert a + [m] + b == [m] + b;
    } else {
      assert (a + b)[0] == a[0] && (a + b)[1..] == a[1..] + b;
      InsertBetween(a[1..], m, b);
      assert [a[0]] + (a[1..] + [m] + b) == a + [m] + b;
    }
  }

  ghost predicate Ascending(ms: seq<Marker>) {
    forall i, j :: 0 <= i < j < |ms| ==> ms[i].start < ms[j].start
  }

  lemma FrontAndLast(ms: seq<Marker>)
    requires ms != []
    ensures var front, last := ms[..|ms| - 1], ms[|ms| - 1]; front + [] == front && front + [last] + [] == ms
  {
  }

  lemma {:induction false} SortedAlready(ms: seq<Marker>)
    requires Ascending(ms)
    ensures SortByStart(ms) == ms
  {
    hide InsertByStart;
    if ms != [] {
      var front, last := ms[..|ms| - 1], ms[|ms| - 1];
      SortedAlready(front);
      InsertBetween(front, last, []);
      FrontAndLast(ms);
    }
  }

  /** Markers pushed at the end are sorted in between. */
  lemma {:induction false} SortedIn(a: seq<Marker>, b: seq<Marker>, more: seq<Marker>)
    requires Ascending(a + more + b)
    ensures SortByStart(a + b + more) == a + more + b
    decreases |more|
  {
    hide InsertByStart, Ascending;
    if more == [] {
      NothingBetween(a, b, more);
      SortedAlready(a + b);
    } else {
      var front, last := more[..|more| - 1], more[|more| - 1];
      LastBetween(a, more, b);
      AscendingWithout(a + front, last, b);
      SortedIn(a, b, front);
      AscendingAround(a + front, last, b);
      InsertBetween(a + front, last, b);
    }
  }

  lemma NothingBetween<T>(a: seq<T>, b: seq<T>, more: seq<T>)
    requires more == []
    ensures a + b + more == a + b && a + more + b == a + b
  {
  }

  lemma LastBetween<T>(a: seq<T>, more: seq<T>, b: seq<T>)
    requires more != []
    ensures var front, last := more[..|more| - 1], more[|more| - 1];
      && a + more + b == a + front + [last] + b
      && (a + b + more)[..|a + b + more| - 1] == a + b + front && (a + b + more)[|a + b + more| - 1] == last
  {
  }

  lemma AscendingAround(a: seq<Marker>, m: Marker, b: seq<Marker>)
    requires Ascending(a + [m] + b)
    ensures forall i :: 0 <= i < |a| ==> a[i].start <= m.start
    ensures b != [] ==> m.start < b[0].start
  {
    var all := a + [m] + b;
    assert all[|a|] == m && (b != [] ==> all[|a| + 1] == b[0]);
    assert forall i :: 0 <= i < |a| ==> all[i] == a[i];
  }

  lemma AscendingWithout(a: seq<Marker>, m: Marker, b: seq<Marker>)
    requires Ascending(a + [m] + b)
    ensures Ascending(a + b)
  {
    var all := a + [m] + b;
    forall i, j | 0 <= i < j < |a + b| ensures (a + b)[i].start < (a + b)[j].start {
      assert (a + b)[i] == all[if i < |a| then i else i + 1];
      assert (a + b)[j] == all[if j < |a| then j else j + 1];
    }
  }

  lemma {:induction false} MarksAscend(ts: seq<Token>, at: int)
    requires Titled(ts)
    ensures Ascending(Marks(ts, at))
  {
    if ts != [] {
      var next := at + |Shown(ts[0])|;
      MarksAscend(ts[1..], next);
      MarksInside(ts[1..], next);
    }
  }
}
