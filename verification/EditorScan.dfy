/** Walking a token list from marker to marker. */
module EditorScan {
  import opened Options
  import opened JsonLines
  import opened EditorText
  import opened EditorMarks
  import opened EditorFragments

  /** `ts[j]` is the first marker at or after token `k`. */
  ghost predicate NextPaste(ts: seq<Token>, k: nat, j: nat) {
    k <= j < |ts| && ts[j].Paste? && AllChars(ts[k..j])
  }

  lemma SplitThree(ts: seq<Token>, k: nat, j: nat)
    requires k <= j < |ts|
    ensures ts[..j + 1] == ts[..k] + (ts[k..j] + [ts[j]])
    ensures ts[k..] == ts[k..j] + ([ts[j]] + ts[j + 1..])
    ensures ts[..j] == ts[..k] + ts[k..j]
  {
  }

  lemma FindPaste(ts: seq<Token>, k: nat) returns (j: nat)
    requires k <= |ts| && Count(ts[k..]) > 0
    ensures NextPaste(ts, k, j)
  {
    var i := FirstPaste(ts[k..]);
    j := k + i;
    assert ts[k..][..i] == ts[k..j];
  }

  lemma ScanMarks(ts: seq<Token>, k: nat, j: nat)
    requires NextPaste(ts, k, j)
    ensures Marks(ts[k..], At(ts, k)) == MarkOf(ts[j], At(ts, j)) + Marks(ts[j + 1..], At(ts, j + 1))
    ensures FragmentMarks(ts[k..], At(ts, k))
      == FragmentMark(ts[j], At(ts, j)) + FragmentMarks(ts[j + 1..], At(ts, j + 1))
  {
    hide Marks, FragmentMarks, MarkOf, FragmentMark, Shown, AllChars, Text;
    SplitThree(ts, k, j);
    SliceIsText(ts, k, j);
    AtNext(ts, j);
    CharsShow(ts[k..j]);
    MarksJoin(ts[k..j], [ts[j]] + ts[j + 1..], At(ts, k));
    MarksJoin([ts[j]], ts[j + 1..], At(ts, j));
    MarksOne(ts[j], At(ts, j));
    FragmentMarksJoin(ts[k..j], [ts[j]] + ts[j + 1..], At(ts, k));
    FragmentMarksJoin([ts[j]], ts[j + 1..], At(ts, j));
    FragmentMarksOne(ts[j], At(ts, j));
    TextOne(ts[j]);
    DropEmpty(MarkOf(ts[j], At(ts, j)) + Marks(ts[j + 1..], At(ts, j + 1)));
    DropEmpty(FragmentMark(ts[j], At(ts, j)) + FragmentMarks(ts[j + 1..], At(ts, j + 1)));
  }

  lemma DropEmpty<T>(s: seq<T>)
    ensures [] + s == s
  {
  }

  lemma FragmentMarksOne(t: Token, at: int)
    ensures FragmentMarks([t], at) == FragmentMark(t, at)
  {
    assert [t][1..] == [] && FragmentMark(t, at) + [] == FragmentMark(t, at);
  }

  lemma ScanText(ts: seq<Token>, k: nat, j: nat)
    requires NextPaste(ts, k, j)
    ensures At(ts, k) <= At(ts, j) <= At(ts, j + 1) <= |Text(ts)|
    ensures Text(ts)[At(ts, k)..At(ts, j)] == Text(ts[k..j])
    ensures Text(ts)[At(ts, j)..At(ts, j + 1)] == ts[j].title && At(ts, j + 1) == At(ts, j) + |ts[j].title|
    ensures At(ts, j) - At(ts, k) == j - k
  {
    SliceIsText(ts, k, j);
    ShownAt(ts, j);
    AtNext(ts, j);
    CharsShow(ts[k..j]);
  }

  lemma ScanCount(ts: seq<Token>, k: nat, j: nat)
    requires NextPaste(ts, k, j)
    ensures Count(ts[..j]) == Count(ts[..k]) && Count(ts[..j + 1]) == Count(ts[..k]) + 1
  {
    hide Count, AllChars;
    SplitThree(ts, k, j);
    CharsShow(ts[k..j]);
    CountJoin(ts[..k], ts[k..j]);
    CountJoin(ts[..j], [ts[j]]);
    TextOne(ts[j]);
    assert ts[..j + 1] == ts[..j] + [ts[j]];
  }

  lemma ScanExpand(ts: seq<Token>, k: nat, j: nat)
    requires NextPaste(ts, k, j)
    ensures Expand(ts[..j + 1]) == Expand(ts[..k]) + Text(ts[k..j]) + ts[j].payload
  {
    hide Expand, Text, AllChars;
    SplitThree(ts, k, j);
    CharsShow(ts[k..j]);
    ExpandJoin(ts[..k], ts[k..j]);
    ExpandJoin(ts[..j], [ts[j]]);
    ExpandOne(ts[j]);
    assert ts[..j + 1] == ts[..j] + [ts[j]];
  }

  lemma ExpandOne(t: Token)
    ensures Expand([t]) == Expanded(t)
  {
    assert [t][1..] == [] && Expanded(t) + Expand([]) == Expanded(t);
  }

  lemma ScanCanonical(ts: seq<Token>, k: nat, j: nat, n: nat)
    requires NextPaste(ts, k, j)
    ensures Canonical(ts[..j + 1], n) == Canonical(ts[..k], n) + ts[k..j] + [Numbered(ts[j], n + Count(ts[..k]))]
  {
    hide Canonical, AllChars, Numbered, Count;
    SplitThree(ts, k, j);
    CharsShow(ts[k..j]);
    ScanCount(ts, k, j);
    CanonicalJoin(ts[..k], ts[k..j], n);
    CanonicalJoin(ts[..j], [ts[j]], n);
    CanonicalOne(ts[j], n + Count(ts[..j]));
    assert ts[..j + 1] == ts[..j] + [ts[j]];
  }

  lemma CanonicalOne(t: Token, n: nat)
    ensures Canonical([t], n) == [Numbered(t, n)]
  {
    hide Numbered;
    assert [t][1..] == [];
    assert Canonical([t], n) == [Numbered(t, n)] + Canonical([], Following(t, n));
  }

  lemma {:induction false} NoPasteLeft(ts: seq<Token>)
    requires Count(ts) == 0
    ensures AllChars(ts)
  {
    if ts != [] {
      NoPasteLeft(ts[1..]);
      assert forall i :: 0 < i < |ts| ==> ts[i] == ts[1..][i - 1];
    }
  }

  /** After the last marker there are only characters. */
  lemma ScanEnd(ts: seq<Token>, k: nat, n: nat)
    requires k <= |ts| && Count(ts[k..]) == 0
    ensures At(ts, k) <= |Text(ts)| && Text(ts)[At(ts, k)..] == Text(ts[k..])
    ensures Expand(ts) == Expand(ts[..k]) + Text(ts[k..])
    ensures Canonical(ts, n) == Canonical(ts[..k], n) + ts[k..]
    ensures Marks(ts[k..], At(ts, k)) == [] && FragmentMarks(ts[k..], At(ts, k)) == []
  {
    hide Expand, Canonical, Marks, FragmentMarks, Text, AllChars;
    NoPasteLeft(ts[k..]);
    CharsShow(ts[k..]);
    TextParts(ts, k);
    assert ts == ts[..k] + ts[k..];
    ExpandJoin(ts[..k], ts[k..]);
    CanonicalJoin(ts[..k], ts[k..], n);
  }

  // ----- giving one marker another label -----

  function Relabel(ts: seq<Token>, j: nat, title: string, ordinal: nat): seq<Token>
    requires j < |ts| && ts[j].Paste?
  {
    ts[j := Paste(ts[j].payload, title, ordinal)]
  }

  lemma RelabelParts(ts: seq<Token>, j: nat, title: string, ordinal: nat)
    requires j < |ts| && ts[j].Paste?
    ensures Relabel(ts, j, title, ordinal)[..j] == ts[..j]
    ensures Relabel(ts, j, title, ordinal)[j + 1..] == ts[j + 1..]
  {
  }

  lemma RelabelText(ts: seq<Token>, j: nat, title: string, ordinal: nat)
    requires j < |ts| && ts[j].Paste?
    ensures At(ts, j) <= At(ts, j + 1) <= |Text(ts)|
    ensures Text(Relabel(ts, j, title, ordinal)) == Text(ts)[..At(ts, j)] + title + Text(ts)[At(ts, j + 1)..]
  {
    hide Text;
    var us := Relabel(ts, j, title, ordinal);
    RelabelParts(ts, j, title, ordinal);
    ShownAt(ts, j);
    TextParts(ts, j);
    TextParts(ts, j + 1);
    TextParts(us, j);
    TextParts(us[j..], 1);
    assert us[j..][..1] == [us[j]] && us[j..][1..] == us[j + 1..];
    TextOne(us[j]);
    assert Text(us) == Text(ts[..j]) + (title + Text(ts[j + 1..]));
  }

  lemma RelabelAt(ts: seq<Token>, j: nat, title: string, ordinal: nat, m: nat)
    requires j < |ts| && ts[j].Paste? && m <= |ts|
    ensures At(Relabel(ts, j, title, ordinal), m)
      == if m <= j then At(ts, m) else At(ts, m) + |title| - |ts[j].title|
  {
    var us := Relabel(ts, j, title, ordinal);
    if m <= j {
      assert us[..m] == ts[..m];
    } else {
      assert us[..m] == Relabel(ts[..m], j, title, ordinal);
      assert ts[..m][..j] == ts[..j] && ts[..m][..j + 1] == ts[..j + 1];
      RelabelText(ts[..m], j, title, ordinal);
      AtNext(ts, j);
    }
  }

  lemma RelabelMarks(ts: seq<Token>, j: nat, title: string, ordinal: nat)
    requires j < |ts| && ts[j].Paste? && Titled(ts)
    ensures var ms, i := Marks(ts, 0), Count(ts[..j]);
      && i < |ms| && ms[i] == Marker(At(ts, j), At(ts, j + 1), ts[j].payload, ts[j].title, ts[j].ordinal)
      && Marks(Relabel(ts, j, title, ordinal), 0)
        == ms[..i] + [Marker(At(ts, j), At(ts, j) + |title|, ts[j].payload, title, ordinal)]
           + MoveAll(ms[i + 1..], |title| - |ts[j].title|)
  {
    hide Marks, MoveAll, Text, Count, Titled, At, Shown;
    var us, ms, i := Relabel(ts, j, title, ordinal), Marks(ts, 0), Count(ts[..j]);
    TitledPart(ts, 0, j);
    MarksInside(ts[..j], 0);
    ShownIs(ts[j]);
    RelabelParts(ts, j, title, ordinal);
    RelabelAt(ts, j, title, ordinal, j);
    RelabelAt(ts, j, title, ordinal, j + 1);
    MarksAround(ts, j);
    MarksAround(us, j);
    AtNext(ts, j);
    var before, after := Marks(ts[..j], 0), Marks(ts[j + 1..], At(ts, j + 1));
    Middle(before, MarkOf(ts[j], At(ts, j)), after);
    MarksMove(ts[j + 1..], At(ts, j + 1), |title| - |ts[j].title|);
    Middle(before, MarkOf(us[j], At(us, j)), Marks(us[j + 1..], At(us, j + 1)));
  }

  lemma ShownIs(t: Token)
    requires t.Paste?
    ensures Shown(t) == t.title
  {
  }

  lemma Middle<T>(a: seq<T>, one: seq<T>, b: seq<T>)
    requires |one| == 1
    ensures var all := a + one + b;
      |a| < |all| && all[|a|] == one[0] && all[..|a|] == a && all[|a| + 1..] == b
  {
  }

  lemma RelabelIsTitled(ts: seq<Token>, j: nat, title: string, ordinal: nat)
    requires j < |ts| && ts[j].Paste? && Titled(ts) && title != ""
    ensures Titled(Relabel(ts, j, title, ordinal))
  {
  }

  lemma {:induction false} MoveByNothing(ms: seq<Marker>)
    ensures MoveAll(ms, 0) == ms
  {
    if ms != [] {
      MoveByNothing(ms[1..]);
      assert ms == [ms[0]] + ms[1..];
    }
  }
}
