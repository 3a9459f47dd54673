/** Word boundaries, and why they never lie inside a paste marker. */
module EditorWords {
  import opened Options
  import opened JsonLines
  import opened EditorText
  import opened EditorMarks

  /** Which characters beyond ASCII are spaces or parts of words is left open. */
  const OTHER_SPACE: char -> bool
  const OTHER_WORD: char -> bool

  predicate IsSpace(c: char) {
    c == ' ' || '\t' <= c <= '\r' || (c as int >= 0x80 && OTHER_SPACE(c))
  }

  predicate IsWord(c: char) {
    'a' <= c <= 'z' || 'A' <= c <= 'Z' || '0' <= c <= '9' || c == '_' || (c as int >= 0x80 && OTHER_WORD(c))
  }

  ghost predicate Spaces(s: string, from: int, to: int)
    requires 0 <= from <= to <= |s|
  {
    forall i :: from <= i < to ==> IsSpace(s[i])
  }

  ghost predicate Words(s: string, from: int, to: int)
    requires 0 <= from <= to <= |s|
  {
    forall i :: from <= i < to ==> IsWord(s[i])
  }

  /** Going left from `offset`: over spaces to `edge`, then over one word or one other character. */
  ghost predicate WordLeft(s: string, offset: nat, edge: nat, r: nat)
    requires offset <= |s|
  {
    && r <= edge <= offset && Spaces(s, edge, offset)
    && (edge == 0 ==> r == 0)
    && (edge > 0 ==> !IsSpace(s[edge - 1]))
    && (edge > 0 ==>
          if IsWord(s[edge - 1]) then r < edge && Words(s, r, edge) && (r > 0 ==> !IsWord(s[r - 1])) else r == edge - 1)
  }

  method FindWordBackward(s: string, offset: nat) returns (r: nat, ghost edge: nat)
    requires offset <= |s|
    ensures WordLeft(s, offset, edge, r)
  {
    r := offset;
    while r > 0 && IsSpace(s[r - 1])
      invariant r <= offset && Spaces(s, r, offset)
    {
      r := r - 1;
    }
    edge := r;
    if r == 0 {
      return;
    }
    if !IsWord(s[r - 1]) {
      r := r - 1;
      return;
    }
    r := r - 1;
    while r > 0 && IsWord(s[r - 1])
      invariant r < edge && Words(s, r, edge)
    {
      r := r - 1;
    }
  }

  /** Going right from `offset`: over spaces to `edge`, then over one word or one other character. */
  ghost predicate WordRight(s: string, offset: nat, edge: nat, r: nat)
    requires offset <= |s|
  {
    && offset <= edge <= r <= |s| && Spaces(s, offset, edge)
    && (edge == |s| ==> r == |s|)
    && (edge < |s| ==> !IsSpace(s[edge]))
    && (edge < |s| ==>
          if IsWord(s[edge]) then edge < r && Words(s, edge, r) && (r < |s| ==> !IsWord(s[r])) else r == edge + 1)
  }

  method FindWordForward(s: string, offset: nat) returns (r: nat, ghost edge: nat)
    requires offset <= |s|
    ensures WordRight(s, offset, edge, r)
  {
    var index := offset;
    while index < |s| && IsSpace(s[index])
      invariant offset <= index <= |s| && Spaces(s, offset, index)
    {
      index := index + 1;
    }
    edge := index;
    if index == |s| {
      return |s|, edge;
    }
    r := index + 1;
    if !IsWord(s[index]) {
      return;
    }
    while r < |s| && IsWord(s[r])
      invariant edge < r <= |s| && Words(s, edge, r)
    {
      r := r + 1;
    }
  }

  // ----- words end outside markers -----

  lemma PlainLabel(title: string, n: nat, payload: string)
    requires title == PasteLabel(n, payload)
    ensures |title| > 0 && !IsWord(title[0]) && !IsWord(title[|title| - 1])
    ensures forall i :: 0 <= i < |title| ==> title[i] != '\n'
  {
    hide PasteLabel, Detail, IsWord;
    LabelLength(n, payload);
    LabelSome(n, payload);
    LabelEnds(n, payload);
    BracketsAreNoWords();
  }

  lemma BracketsAreNoWords()
    ensures !IsWord('[') && !IsWord(']')
  {
  }

  lemma LabelSome(n: nat, payload: string)
    ensures PasteLabel(n, payload) != ""
  {
  }

  lemma SliceShows(s: string, i: nat, j: nat, title: string)
    requires i < j <= |s| && s[i..j] == title
    ensures |title| == j - i && s[i] == title[0] && s[j - 1] == title[|title| - 1]
    ensures forall p :: i <= p < j ==> s[p] == title[p - i]
  {
    forall p | i <= p < j ensures s[p] == title[p - i] {
      assert s[i..j][p - i] == s[p];
    }
  }

  lemma LabelShows(ts: seq<Token>, k: nat)
    requires Labelled(ts) && k < |ts| && ts[k].Paste?
    ensures At(ts, k) < At(ts, k + 1) <= |Text(ts)|
    ensures !IsWord(Text(ts)[At(ts, k)]) && !IsWord(Text(ts)[At(ts, k + 1) - 1])
    ensures forall p :: At(ts, k) <= p < At(ts, k + 1) ==> Text(ts)[p] != '\n'
  {
    hide Text, PasteLabel, IsWord;
    ShownAt(ts, k);
    AtNext(ts, k);
    PlainLabel(ts[k].title, ts[k].ordinal, ts[k].payload);
    SliceShows(Text(ts), At(ts, k), At(ts, k + 1), ts[k].title);
  }

  lemma LabelledIsTitled(ts: seq<Token>)
    requires Labelled(ts)
    ensures Titled(ts)
  {
    forall i | 0 <= i < |ts| && ts[i].Paste? ensures ts[i].title != "" {
      LabelLength(ts[i].ordinal, ts[i].payload);
    }
  }

  lemma CharIsAt(ts: seq<Token>, k: nat)
    requires k < |ts| && ts[k].Char?
    ensures At(ts, k) + 1 == At(ts, k + 1) <= |Text(ts)| && Text(ts)[At(ts, k)] == ts[k].c
  {
    ShownAt(ts, k);
    AtNext(ts, k);
    assert Text(ts)[At(ts, k)..At(ts, k + 1)][0] == ts[k].c;
  }

  /** A line feed in the text is a token of its own. */
  lemma NewlineIsToken(ts: seq<Token>, p: nat) returns (k: nat)
    requires Labelled(ts) && p < |Text(ts)| && Text(ts)[p] == '\n'
    ensures k < |ts| && At(ts, k) == p && At(ts, k + 1) == p + 1 && ts[k] == Char('\n')
  {
    k := TokenAt(ts, p);
    if ts[k].Paste? {
      LabelShows(ts, k);
      assert false;
    } else {
      CharIsAt(ts, k);
    }
  }

  /** A run of word characters that ends between tokens begins between tokens. */
  lemma WordBeginsOutside(ts: seq<Token>, r: nat, m: nat)
    requires Labelled(ts) && m <= |ts| && r < At(ts, m) <= |Text(ts)| && Words(Text(ts), r, At(ts, m))
    ensures Boundary(ts, r)
  {
    var k := TokenAt(ts, r);
    LabelledIsTitled(ts);
    if k + 1 > m {
      AtOrder(ts, m, k);
      assert false;
    } else if ts[k].Paste? {
      AtOrder(ts, k + 1, m);
      LabelShows(ts, k);
      assert false;
    } else {
      CharIsAt(ts, k);
    }
  }

  /** A run of word characters that begins between tokens ends between tokens. */
  lemma WordEndsOutside(ts: seq<Token>, m: nat, r: nat)
    requires Labelled(ts) && m <= |ts| && At(ts, m) < r <= |Text(ts)| && Words(Text(ts), At(ts, m), r)
    ensures Boundary(ts, r)
  {
    var k := TokenAt(ts, r - 1);
    LabelledIsTitled(ts);
    if k < m {
      AtOrder(ts, k + 1, m);
      assert false;
    } else if ts[k].Paste? {
      AtOrder(ts, m, k);
      LabelShows(ts, k);
      assert false;
    } else {
      CharIsAt(ts, k);
    }
  }

  lemma BoundaryAt(ts: seq<Token>, k: nat)
    requires k <= |ts|
    ensures Boundary(ts, At(ts, k))
  {
  }

  /** The left end of a word search is a boundary, if what stands before the spaces is no marker. */
  lemma WordLeftIsBoundary(ts: seq<Token>, m: nat, n: nat, edge: nat, r: nat)
    requires Labelled(ts) && m <= n <= |ts| && At(ts, n) <= |Text(ts)| && WordLeft(Text(ts), At(ts, n), edge, r)
    requires forall i :: m <= i < n ==> ts[i].Char? && IsSpace(ts[i].c)
    requires m > 0 ==> ts[m - 1].Char? && !IsSpace(ts[m - 1].c)
    ensures Boundary(ts, r) && edge == At(ts, m)
  {
    SpacesEnd(ts, m, n);
    AtGrows(ts, m, n);
    AtEnds(ts);
    if m > 0 {
      CharIsAt(ts, m - 1);
    }
    EdgeLeft(Text(ts), At(ts, n), edge, At(ts, m), r);
    if m == 0 {
      BoundaryAt(ts, 0);
    } else if IsWord(Text(ts)[edge - 1]) {
      WordBeginsOutside(ts, r, m);
    } else {
      BoundaryAt(ts, m - 1);
    }
  }

  lemma EdgeLeft(s: string, offset: nat, edge: nat, other: nat, r: nat)
    requires offset <= |s| && WordLeft(s, offset, edge, r)
    requires other <= offset && Spaces(s, other, offset) && (other > 0 ==> !IsSpace(s[other - 1]))
    ensures edge == other
  {
  }

  lemma SpacesEnd(ts: seq<Token>, m: nat, n: nat)
    requires m <= n <= |ts|
    requires forall i :: m <= i < n ==> ts[i].Char? && IsSpace(ts[i].c)
    ensures At(ts, m) <= At(ts, n) <= |Text(ts)| && Spaces(Text(ts), At(ts, m), At(ts, n))
    decreases n - m
  {
    AtGrows(ts, m, n);
    AtGrows(ts, n, |ts|);
    AtEnds(ts);
    if m < n {
      SpacesEnd(ts, m + 1, n);
      CharIsAt(ts, m);
    }
  }

  lemma WordRightIsBoundary(ts: seq<Token>, n: nat, m: nat, edge: nat, r: nat)
    requires Labelled(ts) && n <= m <= |ts| && At(ts, n) <= |Text(ts)| && WordRight(Text(ts), At(ts, n), edge, r)
    requires forall i :: n <= i < m ==> ts[i].Char? && IsSpace(ts[i].c)
    requires m < |ts| ==> ts[m].Char? && !IsSpace(ts[m].c)
    ensures Boundary(ts, r) && edge == At(ts, m)
  {
    SpacesEnd(ts, n, m);
    AtEnds(ts);
    if m < |ts| {
      CharIsAt(ts, m);
    }
    EdgeRight(Text(ts), At(ts, n), edge, At(ts, m), r);
    if m == |ts| {
      BoundaryAt(ts, |ts|);
    } else if IsWord(Text(ts)[edge]) {
      WordEndsOutside(ts, m, r);
    } else {
      BoundaryAt(ts, m + 1);
    }
  }

  lemma EdgeRight(s: string, offset: nat, edge: nat, other: nat, r: nat)
    requires offset <= |s| && WordRight(s, offset, edge, r)
    requires offset <= other <= |s| && Spaces(s, offset, other) && (other < |s| ==> !IsSpace(s[other]))
    ensures edge == other
  {
  }
}
