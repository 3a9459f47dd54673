/** Killed text: fragments with their own markers, and what they are when they come back. */
module EditorFragments {
  import opened Options
  import opened JsonLines
  import opened EditorText
  import opened EditorMarks

  datatype Fragment = Fragment(graphemes: string, pastes: seq<FragmentMarker>)

  function FragmentOf(ts: seq<Token>): Fragment {
    Fragment(Text(ts), FragmentMarks(ts, 0))
  }

  function MoveFragmentMarks(ms: seq<FragmentMarker>, d: int): seq<FragmentMarker> {
    if ms == [] then []
    else [ms[0].(start := ms[0].start + d, end := ms[0].end + d)] + MoveFragmentMarks(ms[1..], d)
  }

  function ConcatFragments(a: Fragment, b: Fragment): Fragment {
    Fragment(a.graphemes + b.graphemes, a.pastes + MoveFragmentMarks(b.pastes, |a.graphemes|))
  }

  lemma {:induction false} FragmentMarksMove(ts: seq<Token>, at: int, d: int)
    ensures FragmentMarks(ts, at + d) == MoveFragmentMarks(FragmentMarks(ts, at), d)
  {
    hide Shown;
    if ts != [] {
      FragmentMarksMove(ts[1..], at + |Shown(ts[0])|, d);
      if ts[0].Paste? {
        assert FragmentMarks(ts, at)[1..] == FragmentMarks(ts[1..], at + |Shown(ts[0])|);
      } else {
        assert FragmentMarks(ts, at) == FragmentMarks(ts[1..], at + |Shown(ts[0])|);
      }
    }
  }

  lemma {:induction false} FragmentMarksJoin(a: seq<Token>, b: seq<Token>, at: int)
    ensures FragmentMarks(a + b, at) == FragmentMarks(a, at) + FragmentMarks(b, at + |Text(a)|)
  {
    hide FragmentMark, Shown;
    if a == [] {
      assert a + b == b;
    } else {
      assert (a + b)[0] == a[0] && (a + b)[1..] == a[1..] + b;
      FragmentMarksJoin(a[1..], b, at + |Shown(a[0])|);
    }
  }

  /** Fragments of neighbouring tokens join to the fragment of both. */
  lemma ConcatIsJoin(a: seq<Token>, b: seq<Token>)
    ensures ConcatFragments(FragmentOf(a), FragmentOf(b)) == FragmentOf(a + b)
  {
    TextJoin(a, b);
    FragmentMarksJoin(a, b, 0);
    FragmentMarksMove(b, 0, |Text(a)|);
  }

  lemma {:induction false} FragmentMarksInside(ts: seq<Token>, at: int)
    ensures |FragmentMarks(ts, at)| == Count(ts)
    ensures forall i :: 0 <= i < |FragmentMarks(ts, at)| ==>
      at <= FragmentMarks(ts, at)[i].start <= FragmentMarks(ts, at)[i].end <= at + |Text(ts)|
  {
    if ts != [] {
      FragmentMarksInside(ts[1..], at + |Shown(ts[0])|);
    }
  }

  // ----- expanded bytes -----

  function Slice(g: string, i: int, j: int): string {
    if 0 <= i <= j <= |g| then g[i..j] else ""
  }

  /** Payload bytes in place of label bytes, over some markers of a fragment. */
  function Gains(g: string, ms: seq<FragmentMarker>): int {
    if ms == [] then 0
    else Bytes(ms[0].payload) - Bytes(Slice(g, ms[0].start, ms[0].end)) + Gains(g, ms[1..])
  }

  /** The bytes of a fragment when its markers are expanded. */
  function FragmentBytes(f: Fragment): int {
    Bytes(f.graphemes) + Gains(f.graphemes, f.pastes)
  }

  lemma {:induction false} GainsJoin(g: string, a: seq<FragmentMarker>, b: seq<FragmentMarker>)
    ensures Gains(g, a + b) == Gains(g, a) + Gains(g, b)
  {
    hide Bytes, Slice;
    if a == [] {
      assert a + b == b;
    } else {
      assert (a + b)[0] == a[0] && (a + b)[1..] == a[1..] + b;
      GainsJoin(g, a[1..], b);
    }
  }

  function Expanded(t: Token): string {
    match t
    case Char(c) => [c]
    case Paste(payload, _, _) => payload
  }

  lemma GainOne(before: string, t: Token, after: string)
    ensures Gains(before + Shown(t) + after, FragmentMark(t, |before|)) == Bytes(Expanded(t)) - Bytes(Shown(t))
  {
    hide Bytes;
    var g := before + Shown(t) + after;
    if t.Paste? {
      assert Slice(g, |before|, |before| + |t.title|) == t.title;
      assert FragmentMark(t, |before|)[1..] == [];
      assert Gains(g, []) == 0;
    }
  }

  lemma ExpandUnfolds(ts: seq<Token>)
    requires ts != []
    ensures Expand(ts) == Expanded(ts[0]) + Expand(ts[1..]) && Text(ts) == Shown(ts[0]) + Text(ts[1..])
    ensures Bytes(Expand(ts)) == Bytes(Expanded(ts[0])) + Bytes(Expand(ts[1..]))
    ensures Bytes(Text(ts)) == Bytes(Shown(ts[0])) + Bytes(Text(ts[1..]))
  {
    BytesJoin(Expanded(ts[0]), Expand(ts[1..]));
    BytesJoin(Shown(ts[0]), Text(ts[1..]));
  }

  lemma JoinedOn(before: string, first: string, rest: string)
    ensures before + (first + rest) == before + first + rest && |before + first| == |before| + |first|
  {
  }

  lemma {:induction false} GainsAre(before: string, ts: seq<Token>)
    ensures Gains(before + Text(ts), FragmentMarks(ts, |before|)) == Bytes(Expand(ts)) - Bytes(Text(ts))
    decreases |ts|
  {
    hide Shown, Expanded, Expand, Text, Bytes, FragmentMark, Gains;
    if ts != [] {
      ExpandUnfolds(ts);
      JoinedOn(before, Shown(ts[0]), Text(ts[1..]));
      GainsAre(before + Shown(ts[0]), ts[1..]);
      GainOne(before, ts[0], Text(ts[1..]));
      GainsJoin(before + Text(ts), FragmentMark(ts[0], |before|), FragmentMarks(ts[1..], |before + Shown(ts[0])|));
    } else {
      NoGains(before);
    }
  }

  lemma NoGains(g: string)
    ensures Gains(g + Text([]), []) == 0 && Bytes(Expand([])) == 0 && Bytes(Text([])) == 0
  {
  }

  lemma FragmentBytesAre(ts: seq<Token>)
    ensures FragmentBytes(FragmentOf(ts)) == Bytes(Expand(ts))
  {
    hide Gains, Bytes, Expand, Text, FragmentMarks;
    GainsAre("", ts);
    assert "" + Text(ts) == Text(ts);
  }

  /** The text with payloads in place of markers, from some offset on. */
  function ExpandFrom(g: string, ms: seq<Marker>, offset: nat): string
    requires offset <= |g|
    requires forall i :: 0 <= i < |ms| ==> offset <= ms[i].start <= ms[i].end <= |g|
    requires forall i, j :: 0 <= i < j < |ms| ==> ms[i].end <= ms[j].start
  {
    if ms == [] then g[offset..]
    else g[offset..ms[0].start] + ms[0].payload + ExpandFrom(g, ms[1..], ms[0].end)
  }

  lemma {:induction false} MarksInOrder(ts: seq<Token>, at: int)
    requires Titled(ts)
    ensures forall i, j :: 0 <= i < j < |Marks(ts, at)| ==> Marks(ts, at)[i].end <= Marks(ts, at)[j].start
  {
    if ts != [] {
      MarksInOrder(ts[1..], at + |Shown(ts[0])|);
      MarksInside(ts[1..], at + |Shown(ts[0])|);
    }
  }

  /** Runs of characters before the next marker. */
  ghost predicate AllChars(ts: seq<Token>) {
    forall i :: 0 <= i < |ts| ==> ts[i].Char?
  }

  lemma {:induction false} CharsShow(ts: seq<Token>)
    requires AllChars(ts)
    ensures Expand(ts) == Text(ts) && Count(ts) == 0 && |Text(ts)| == |ts|
    ensures forall at :: Marks(ts, at) == [] && FragmentMarks(ts, at) == []
    ensures forall n :: Canonical(ts, n) == ts
  {
    if ts != [] {
      var rest := ts[1..];
      CharsShow(rest);
      forall at ensures Marks(ts, at) == [] && FragmentMarks(ts, at) == [] {
        assert Marks(rest, at + 1) == [] && FragmentMarks(rest, at + 1) == [];
      }
      forall n ensures Canonical(ts, n) == ts {
        assert Canonical(rest, n) == rest && ts == [ts[0]] + rest;
      }
    }
  }

  /** The first marker of some tokens, if there is one. */
  lemma {:induction false} FirstPaste(ts: seq<Token>) returns (k: nat)
    requires Count(ts) > 0
    ensures k < |ts| && ts[k].Paste? && AllChars(ts[..k]) && Count(ts[k + 1..]) == Count(ts) - 1
  {
    if ts[0].Paste? {
      k := 0;
    } else {
      k := FirstPaste(ts[1..]);
      assert ts[1..][k + 1..] == ts[k + 2..];
      assert forall i :: 0 < i <= k ==> ts[i] == ts[1..][..k][i - 1];
      k := k + 1;
    }
  }
}
