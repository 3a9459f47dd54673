/** Restoring a snapshot: which of its markers come back, and when all of them do. */
module EditorRestore {
  import opened Decimal
  import opened JsonLines
  import opened Options
  import opened EditorText
  import opened EditorLabels
  import opened EditorMarks
  import opened EditorFragments
  import opened EditorScan
  import opened EditorWords

  /** The ordinals of a snapshot's markers are not looked at. */
  datatype Snapshot = Snapshot(text: string, cursor: int, pastes: seq<Marker>)

  function PasteSnapshots(ms: seq<Marker>): seq<Marker> {
    if ms == [] then [] else [ms[0].(ordinal := 0)] + PasteSnapshots(ms[1..])
  }

  /** The markers chosen so far, where the last one ends, and what text with them comes to. */
  datatype Choice = Choice(chosen: seq<Marker>, from: nat, expanded: int, displayed: int)

  function Start(g: string): Choice {
    Choice([], 0, Bytes(g), Bytes(g))
  }

  /** One candidate: chosen if it is well placed, labelled as the text says, and in budget with the
      candidates chosen before it. */
  function Consider(g: string, s: Choice, c: Marker, maximum: nat): (t: Choice)
  {
    if c.start < s.from || c.start < 0 || c.end <= c.start || c.end > |g| then s
    else
      var title := Sanitize(c.title);
      var payload := ByteTruncate(Sanitize(c.payload), maximum);
      if !LabelAccepted(title, payload) || g[c.start..c.end] != title then s
      else
        var n := |s.chosen| + 1;
        var expanded := s.expanded - Bytes(title) + Bytes(payload);
        var displayed := s.displayed - Bytes(title) + Bytes(PasteLabel(n, payload));
        if expanded > maximum || displayed > maximum then s
        else Choice(s.chosen + [Marker(c.start, c.end, payload, title, n)], c.end, expanded, displayed)
  }

  function ConsiderAll(g: string, s: Choice, cs: seq<Marker>, maximum: nat): Choice
    decreases |cs|
  {
    if cs == [] then s else ConsiderAll(g, Consider(g, s, cs[0], maximum), cs[1..], maximum)
  }

  // ----- what is chosen makes tokens -----

  /** The chosen markers are those of `done`, which shows the text up to `from`. */
  ghost predicate Chosen(g: string, s: Choice, done: seq<Token>, maximum: nat) {
    && s.from <= |g| && g[..s.from] == Text(done) && Titled(done) && s.chosen == Marks(done, 0)
    && s.expanded == Bytes(Expand(done)) + Bytes(g[s.from..]) <= maximum
    && s.displayed == Bytes(Text(Canonical(done, 1))) + Bytes(g[s.from..]) <= maximum
  }

  lemma StartsChosen(g: string, maximum: nat)
    requires Bytes(g) <= maximum
    ensures Chosen(g, Start(g), [], maximum)
  {
    assert g[..0] == "" && g[0..] == g;
  }

  lemma {:induction false} CharsOf(s: string)
    ensures Text(Chars(s)) == s && AllChars(Chars(s)) && Expand(Chars(s)) == s && Count(Chars(s)) == 0
    ensures Titled(Chars(s)) && (forall n: nat :: Canonical(Chars(s), n) == Chars(s))
    ensures forall at: int :: Marks(Chars(s), at) == []
  {
    TextOfChars(s);
    CharsShow(Chars(s));
  }

  lemma {:induction false} TextOfChars(s: string)
    ensures Text(Chars(s)) == s && AllChars(Chars(s))
  {
    if s != "" {
      TextOfChars(s[1..]);
      assert Chars(s)[1..] == Chars(s[1..]);
    }
  }

  /** Appending characters and one marker to tokens. */
  lemma AppendMarker(done: seq<Token>, gap: string, t: Token)
    requires t.Paste? && Titled(done) && t.title != ""
    ensures var more := done + Chars(gap) + [t];
      var n := Count(done) + 1;
      && Titled(more) && Text(more) == Text(done) + gap + t.title
      && Marks(more, 0)
           == Marks(done, 0)
              + [Marker(|Text(done)| + |gap|, |Text(done)| + |gap| + |t.title|, t.payload, t.title, t.ordinal)]
      && Bytes(Expand(more)) == Bytes(Expand(done)) + Bytes(gap) + Bytes(t.payload)
      && Bytes(Text(Canonical(more, 1)))
           == Bytes(Text(Canonical(done, 1))) + Bytes(gap) + Bytes(PasteLabel(n, t.payload))
  {
    hide Text, Marks, Canonical, Count, Bytes, Expand, Chars, PasteLabel, Titled, AllChars;
    var cs := Chars(gap);
    CharsOf(gap);
    TitledJoin(done, cs);
    TitledOne(t);
    TitledJoin(done + cs, [t]);
    AppendText(done, cs, t);
    AppendMarks(done, cs, t);
    AppendExpand(done, cs, t);
    AppendCanonical(done, cs, t);
  }

  lemma TitledOne(t: Token)
    requires t.Paste? && t.title != ""
    ensures Titled([t])
  {
  }

  lemma AppendText(done: seq<Token>, cs: seq<Token>, t: Token)
    requires t.Paste?
    ensures Text(done + cs + [t]) == Text(done) + Text(cs) + t.title
  {
    TextJoin(done + cs, [t]);
    TextJoin(done, cs);
    TextOne(t);
  }

  lemma AppendMarks(done: seq<Token>, cs: seq<Token>, t: Token)
    requires t.Paste? && forall at: int :: Marks(cs, at) == []
    ensures var p := |Text(done)| + |Text(cs)|;
      Marks(done + cs + [t], 0) == Marks(done, 0) + [Marker(p, p + |t.title|, t.payload, t.title, t.ordinal)]
  {
    hide Marks, Text;
    MarksJoin(done + cs, [t], 0);
    MarksJoin(done, cs, 0);
    TextJoin(done, cs);
    MarksOne(t, |Text(done)| + |Text(cs)|);
    assert Marks(done, 0) + [] == Marks(done, 0);
  }

  lemma AppendExpand(done: seq<Token>, cs: seq<Token>, t: Token)
    requires t.Paste?
    ensures Bytes(Expand(done + cs + [t])) == Bytes(Expand(done)) + Bytes(Expand(cs)) + Bytes(t.payload)
  {
    hide Bytes, Expand;
    ExpandJoin(done + cs, [t]);
    ExpandJoin(done, cs);
    ExpandOne(t);
    BytesJoin(Expand(done + cs), t.payload);
    BytesJoin(Expand(done), Expand(cs));
  }

  lemma AppendCanonical(done: seq<Token>, cs: seq<Token>, t: Token)
    requires t.Paste? && Count(cs) == 0 && forall n: nat :: Canonical(cs, n) == cs
    ensures Bytes(Text(Canonical(done + cs + [t], 1)))
      == Bytes(Text(Canonical(done, 1))) + Bytes(Text(cs)) + Bytes(PasteLabel(Count(done) + 1, t.payload))
  {
    hide Bytes, Canonical, Count, Text, PasteLabel;
    CanonicalJoin(done + cs, [t], 1);
    CanonicalJoin(done, cs, 1);
    CountJoin(done, cs);
    CanonicalOne(t, Count(done) + 1);
    var u := Numbered(t, Count(done) + 1);
    TextJoin(Canonical(done, 1) + cs, [u]);
    TextJoin(Canonical(done, 1), cs);
    TextOne(u);
    BytesJoin(Text(Canonical(done, 1)) + Text(cs), Shown(u));
    BytesJoin(Text(Canonical(done, 1)), Text(cs));
  }

  lemma CutText(g: string, from: nat, start: nat, end: nat)
    requires from <= start < end <= |g|
    ensures g[..end] == g[..from] + g[from..start] + g[start..end]
    ensures Bytes(g[from..]) == Bytes(g[from..start]) + Bytes(g[start..end]) + Bytes(g[end..])
  {
    hide Bytes;
    assert g[from..] == g[from..start] + g[start..];
    assert g[start..] == g[start..end] + g[end..];
    BytesJoin(g[from..start], g[start..]);
    BytesJoin(g[start..end], g[end..]);
  }

  lemma ConsiderKeeps(g: string, s: Choice, done: seq<Token>, c: Marker, maximum: nat) returns (more: seq<Token>)
    requires Chosen(g, s, done, maximum)
    ensures Chosen(g, Consider(g, s, c, maximum), more, maximum) && |more| >= |done|
    ensures Count(more) <= Count(done) + 1
  {
    hide Consider, Text, Marks, Bytes, Expand, Canonical, Count, Titled, PasteLabel, Sanitize, ByteTruncate, Chars;
    more := done;
    var t := Consider(g, s, c, maximum);
    if t != s {
      ConsiderIs(g, s, c, maximum);
      var m := t.chosen[|s.chosen|];
      MarksInside(done, 0);
      CutText(g, s.from, m.start, m.end);
      var gap := g[s.from..m.start];
      var n := Paste(m.payload, m.title, m.ordinal);
      AppendMarker(done, gap, n);
      more := done + Chars(gap) + [n];
      CountJoin(done + Chars(gap), [n]);
      CountJoin(done, Chars(gap));
      CharsOf(gap);
      TextOne(n);
    }
  }

  lemma ConsiderIs(g: string, s: Choice, c: Marker, maximum: nat)
    requires Consider(g, s, c, maximum) != s
    ensures var t := Consider(g, s, c, maximum);
      && |t.chosen| == |s.chosen| + 1 && t.chosen[..|s.chosen|] == s.chosen
      && var m := t.chosen[|s.chosen|];
         && s.from <= m.start < m.end <= |g| && m.title == g[m.start..m.end] && m.title != ""
         && m.ordinal == |s.chosen| + 1 && t.from == m.end
         && t.expanded == s.expanded - Bytes(m.title) + Bytes(m.payload) <= maximum
         && t.displayed == s.displayed - Bytes(m.title) + Bytes(PasteLabel(|s.chosen| + 1, m.payload)) <= maximum
         && t.chosen == s.chosen + [m]
  {
    hide Bytes, PasteLabel, Sanitize, ByteTruncate;
  }

  lemma {:induction false} ConsiderAllKeeps(g: string, s: Choice, done: seq<Token>, cs: seq<Marker>, maximum: nat)
    returns (more: seq<Token>)
    requires Chosen(g, s, done, maximum)
    ensures Chosen(g, ConsiderAll(g, s, cs, maximum), more, maximum) && Count(more) <= Count(done) + |cs|
    decreases |cs|
  {
    hide Chosen, Consider, Count;
    more := done;
    if cs != [] {
      var next := ConsiderKeeps(g, s, done, cs[0], maximum);
      more := ConsiderAllKeeps(g, Consider(g, s, cs[0], maximum), next, cs[1..], maximum);
    }
  }

  /** The tokens of a text with its chosen markers. */
  lemma ChosenTokens(g: string, s: Choice, done: seq<Token>, maximum: nat) returns (ts: seq<Token>)
    requires Chosen(g, s, done, maximum) && Count(done) <= MAX_PASTE_MARKERS
    ensures ts == done + Chars(g[s.from..])
    ensures Titled(ts) && Text(ts) == g && Marks(ts, 0) == s.chosen && InBudget(ts, maximum)
  {
    hide Text, Marks, Bytes, Expand, Canonical, Count, Titled, Chars, Fixed, OrdinalDigits, AllChars;
    var rest := g[s.from..];
    ts := done + Chars(rest);
    CharsOf(rest);
    TitledJoin(done, Chars(rest));
    CutEnd(g, s.from);
    TextJoin(done, Chars(rest));
    MarksJoin(done, Chars(rest), 0);
    assert Marks(done, 0) + [] == Marks(done, 0);
    RestExpand(done, rest);
    RestCanonical(done, rest);
    CountJoin(done, Chars(rest));
    CanonicalBytes(ts, 1);
  }

  lemma CutEnd(g: string, from: nat)
    requires from <= |g|
    ensures g == g[..from] + g[from..]
  {
  }

  lemma RestExpand(done: seq<Token>, rest: string)
    ensures Bytes(Expand(done + Chars(rest))) == Bytes(Expand(done)) + Bytes(rest)
  {
    hide Bytes, Expand, Chars;
    CharsOf(rest);
    ExpandJoin(done, Chars(rest));
    BytesJoin(Expand(done), rest);
  }

  lemma RestCanonical(done: seq<Token>, rest: string)
    ensures Bytes(Text(Canonical(done + Chars(rest), 1))) == Bytes(Text(Canonical(done, 1))) + Bytes(rest)
  {
    hide Bytes, Canonical, Text, Chars, Count;
    CharsOf(rest);
    CanonicalJoin(done, Chars(rest), 1);
    TextJoin(Canonical(done, 1), Chars(rest));
    BytesJoin(Text(Canonical(done, 1)), rest);
  }

  // ----- when a snapshot comes back whole -----

  /** The bytes of the text with the markers among the first `k` tokens expanded. */
  function PartlyExpanded(ts: seq<Token>, k: nat): nat
    requires k <= |ts|
  {
    Bytes(Expand(ts[..k])) + Bytes(Text(ts[k..]))
  }

  ghost predicate PayloadsShow(ts: seq<Token>) {
    forall i :: 0 <= i < |ts| && ts[i].Paste? ==> Printable(ts[i].payload)
  }

  lemma CanonicalAt(ts: seq<Token>, j: nat)
    requires ts == Canonical(ts, 1) && j < |ts|
    ensures ts[j] == Numbered(ts[j], 1 + Count(ts[..j]))
  {
    hide Canonical, Numbered, Count;
    CutsAt(ts, j);
    NumberedAfter(ts[..j], ts[j..]);
  }

  lemma CutsAt<T>(ts: seq<T>, j: nat)
    requires j < |ts|
    ensures ts == ts[..j] + ts[j..] && ts[j..] != [] && ts[j..][0] == ts[j] && |ts[..j]| == j
  {
  }

  lemma NumberedAfter(a: seq<Token>, b: seq<Token>)
    requires b != []
    ensures |a| < |Canonical(a + b, 1)| && Canonical(a + b, 1)[|a|] == Numbered(b[0], 1 + Count(a))
  {
    hide Canonical, Numbered, Count, Alike;
    CanonicalJoin(a, b, 1);
    CanonicalIsAlike(a, 1);
    LengthOf(a, Canonical(a, 1));
    FirstNumbered(b, 1 + Count(a));
    FirstAfter(Canonical(a, 1), Canonical(b, 1 + Count(a)));
  }

  lemma FirstAfter<T>(a: seq<T>, b: seq<T>)
    requires b != []
    ensures |a| < |a + b| && (a + b)[|a|] == b[0]
  {
  }

  lemma LengthOf(ts: seq<Token>, us: seq<Token>)
    requires Alike(ts, us)
    ensures |ts| == |us|
  {
  }

  lemma FirstNumbered(ts: seq<Token>, n: nat)
    requires ts != []
    ensures Canonical(ts, n) != [] && Canonical(ts, n)[0] == Numbered(ts[0], n)
  {
  }

  lemma {:induction false} ChosenCount(g: string, s: Choice, cs: seq<Marker>, maximum: nat)
    ensures |ConsiderAll(g, s, cs, maximum).chosen| <= |s.chosen| + |cs|
    decreases |cs|
  {
    if cs != [] {
      ChosenCount(g, Consider(g, s, cs[0], maximum), cs[1..], maximum);
    }
  }

  lemma {:induction false} SnapshotCount(ms: seq<Marker>)
    ensures |PasteSnapshots(ms)| == |ms|
  {
    if ms != [] {
      SnapshotCount(ms[1..]);
    }
  }

  lemma OneSnapshot(m: Marker, ms: seq<Marker>)
    ensures PasteSnapshots([m] + ms) == [m.(ordinal := 0)] + PasteSnapshots(ms)
  {
    assert ([m] + ms)[1..] == ms;
  }

  /** Over a run of characters, expanding more of the tokens changes nothing. */
  lemma CharsDoNotExpand(ts: seq<Token>, k: nat, j: nat)
    requires k <= j <= |ts| && AllChars(ts[k..j])
    ensures PartlyExpanded(ts, j) == PartlyExpanded(ts, k)
  {
    hide Bytes, Expand, Text, AllChars;
    CharsShow(ts[k..j]);
    assert ts[..j] == ts[..k] + ts[k..j] && ts[k..] == ts[k..j] + ts[j..];
    ExpandJoin(ts[..k], ts[k..j]);
    TextJoin(ts[k..j], ts[j..]);
    BytesJoin(Expand(ts[..k]), Expand(ts[k..j]));
    BytesJoin(Text(ts[k..j]), Text(ts[j..]));
  }

  lemma MarkerExpands(ts: seq<Token>, j: nat)
    requires j < |ts| && ts[j].Paste?
    ensures PartlyExpanded(ts, j + 1) == PartlyExpanded(ts, j) - Bytes(ts[j].title) + Bytes(ts[j].payload)
  {
    hide Bytes, Expand, Text;
    assert ts[..j + 1] == ts[..j] + [ts[j]] && ts[j..] == [ts[j]] + ts[j + 1..];
    ExpandJoin(ts[..j], [ts[j]]);
    ExpandOne(ts[j]);
    TextJoin([ts[j]], ts[j + 1..]);
    TextOne(ts[j]);
    BytesJoin(Expand(ts[..j]), Expanded(ts[j]));
    BytesJoin(Shown(ts[j]), Text(ts[j + 1..]));
  }

  /** All markers among the first `k` tokens have been chosen. */
  ghost predicate OnTrack(ts: seq<Token>, k: nat, s: Choice) {
    && k <= |ts| && s.chosen == Marks(ts[..k], 0) && s.from <= At(ts, k)
    && s.expanded == PartlyExpanded(ts, k) && s.displayed == Bytes(Text(ts))
  }

  ghost predicate FitsFrom(ts: seq<Token>, k: nat, maximum: nat) {
    forall i :: k <= i <= |ts| ==> PartlyExpanded(ts, i) <= maximum
  }

  lemma PrintableStays(s: string, maximum: nat)
    requires Printable(s) && Bytes(s) <= maximum
    ensures ByteTruncate(Sanitize(s), maximum) == s
  {
    hide Bytes;
  }

  lemma PayloadFits(ts: seq<Token>, j: nat, maximum: nat)
    requires j < |ts| && ts[j].Paste? && Bytes(Expand(ts)) <= maximum
    ensures Bytes(ts[j].payload) <= maximum
  {
    hide Bytes, Expand;
    assert ts == ts[..j] + ([ts[j]] + ts[j + 1..]);
    ExpandJoin(ts[..j], [ts[j]] + ts[j + 1..]);
    ExpandJoin([ts[j]], ts[j + 1..]);
    ExpandOne(ts[j]);
    BytesJoin(Expand(ts[..j]), Expand([ts[j]] + ts[j + 1..]));
    BytesJoin(Expand([ts[j]]), Expand(ts[j + 1..]));
  }

  /** Considering the marker `j` of a numbered buffer. */
  lemma ConsiderOwn(ts: seq<Token>, k: nat, j: nat, s: Choice, maximum: nat)
    requires ts == Canonical(ts, 1) && PayloadsShow(ts) && InBudget(ts, maximum)
    requires OnTrack(ts, k, s) && NextPaste(ts, k, j)
    ensures var m := Marker(At(ts, j), At(ts, j + 1), ts[j].payload, ts[j].title, 0);
      var t := Consider(Text(ts), s, m, maximum);
      if PartlyExpanded(ts, j + 1) <= maximum then OnTrack(ts, j + 1, t) else t == s
  {
    hide *;
    TrackIs(ts, k, s);
    NextPasteIs(ts, k, j);
    TitledCanonical(ts, maximum);
    var n := 1 + Count(ts[..k]);
    var m := Marker(At(ts, j), At(ts, j + 1), ts[j].payload, ts[j].title, 0);
    ScanText(ts, k, j);
    ScanCount(ts, k, j);
    CanonicalAt(ts, j);
    NumberedPaste(ts[j], n);
    LabelLength(n, ts[j].payload);
    OwnLabelAccepted(n, ts[j].payload);
    PlainIsPrintable(ts[j].title);
    PayloadFits(ts, j, maximum);
    CharsDoNotExpand(ts, k, j);
    MarkerExpands(ts, j);
    TitledPart(ts, 0, k);
    MarksInside(ts[..k], 0);
    NextMarks(ts, k, j);
    ShownIsSome(ts, j);
    ShownAt(ts, j);
    AtNext(ts, j);
    PayloadShows(ts, j);
    PrintableStays(ts[j].payload, maximum);
    ConsiderLabelled(Text(ts), s, m, maximum);
    TrackIs(ts, j + 1, Consider(Text(ts), s, m, maximum));
  }

  lemma TrackIs(ts: seq<Token>, k: nat, s: Choice)
    ensures OnTrack(ts, k, s) <==>
      && k <= |ts| && s.chosen == Marks(ts[..k], 0) && s.from <= At(ts, k)
      && s.expanded == PartlyExpanded(ts, k) && s.displayed == Bytes(Text(ts))
  {
    hide Marks, At, PartlyExpanded, Bytes, Text;
  }

  lemma NextPasteIs(ts: seq<Token>, k: nat, j: nat)
    ensures NextPaste(ts, k, j) <==> k <= j < |ts| && ts[j].Paste? && AllChars(ts[k..j])
  {
    hide AllChars;
  }

  lemma NumberedPaste(t: Token, n: nat)
    requires t.Paste? && t == Numbered(t, n)
    ensures t.title == PasteLabel(n, t.payload) && t.ordinal == n && Shown(t) == t.title
  {
    hide PasteLabel;
  }

  lemma PayloadShows(ts: seq<Token>, j: nat)
    requires PayloadsShow(ts) && j < |ts| && ts[j].Paste?
    ensures Printable(ts[j].payload)
  {
    hide Printable;
  }

  /** Considering a marker that carries the very label that it would get. */
  lemma ConsiderLabelled(g: string, s: Choice, m: Marker, maximum: nat)
    requires s.from <= m.start < m.end <= |g| && g[m.start..m.end] == m.title && LabelAccepted(m.title, m.payload)
    requires Sanitize(m.title) == m.title && ByteTruncate(Sanitize(m.payload), maximum) == m.payload
    requires m.title == PasteLabel(|s.chosen| + 1, m.payload) && s.displayed <= maximum
    ensures Consider(g, s, m, maximum) ==
      var expanded := s.expanded - Bytes(m.title) + Bytes(m.payload);
      if expanded > maximum then s
      else Choice(s.chosen + [m.(ordinal := |s.chosen| + 1)], m.end, expanded, s.displayed)
  {
    hide Bytes, PasteLabel, Sanitize, ByteTruncate, LabelAccepted;
  }

  lemma TitledCanonical(ts: seq<Token>, maximum: nat)
    requires ts == Canonical(ts, 1) && InBudget(ts, maximum)
    ensures Titled(ts) && Bytes(Text(ts)) <= maximum && Bytes(Expand(ts)) <= maximum
  {
    hide Text, Canonical, Bytes, Expand;
    CanonicalIsAlike(ts, 1);
    CanonicalBytes(ts, 1);
  }

  lemma Reassociate<T>(a: seq<T>, b: seq<T>, c: seq<T>)
    ensures a + (b + c) == a + b + c
  {
  }

  lemma NextMarks(ts: seq<Token>, k: nat, j: nat)
    requires NextPaste(ts, k, j)
    ensures Marks(ts[..j + 1], 0)
      == Marks(ts[..k], 0) + [Marker(At(ts, j), At(ts, j) + |ts[j].title|, ts[j].payload, ts[j].title, ts[j].ordinal)]
  {
    hide Marks, Text, AllChars, FragmentMarks, Canonical, Expand, Count;
    CharsShow(ts[k..j]);
    SplitThree(ts, k, j);
    Reassociate(ts[..k], ts[k..j], [ts[j]]);
    AppendMarks(ts[..k], ts[k..j], ts[j]);
    TextJoin(ts[..k], ts[k..j]);
  }

  /** From any point on, all further markers are chosen exactly when each partial expansion fits. */
  lemma {:induction false} ComesBackFrom(ts: seq<Token>, k: nat, s: Choice, maximum: nat)
    requires ts == Canonical(ts, 1) && PayloadsShow(ts) && InBudget(ts, maximum)
    requires OnTrack(ts, k, s) && PartlyExpanded(ts, k) <= maximum
    ensures ConsiderAll(Text(ts), s, PasteSnapshots(Marks(ts[k..], At(ts, k))), maximum).chosen == Marks(ts, 0)
      <==> FitsFrom(ts, k, maximum)
    ensures !FitsFrom(ts, k, maximum) ==>
      |ConsiderAll(Text(ts), s, PasteSnapshots(Marks(ts[k..], At(ts, k))), maximum).chosen| < |Marks(ts, 0)|
    decreases |ts| - k
  {
    hide Text, Marks, Canonical, Count, Bytes, Expand, AllChars, Titled, Consider, InBudget, PayloadsShow;
    hide PartlyExpanded, PasteSnapshots;
    if Count(ts[k..]) == 0 {
      ScanEnd(ts, k, 1);
      NoMoreMarks(ts, k);
      CharsToEnd(ts, k, maximum);
    } else {
      var j := FindPaste(ts, k);
      var m := Marker(At(ts, j), At(ts, j + 1), ts[j].payload, ts[j].title, 0);
      var rest := PasteSnapshots(Marks(ts[j + 1..], At(ts, j + 1)));
      ConsiderOwn(ts, k, j, s, maximum);
      CandidatesFrom(ts, k, j);
      var t := Consider(Text(ts), s, m, maximum);
      assert ([m] + rest)[1..] == rest;
      if PartlyExpanded(ts, j + 1) <= maximum {
        ComesBackFrom(ts, j + 1, t, maximum);
        FitsToNext(ts, k, j, maximum);
      } else {
        ChosenCount(Text(ts), s, rest, maximum);
        FewerChosen(ts, k, j, maximum);
      }
    }
  }

  lemma NoMoreMarks(ts: seq<Token>, k: nat)
    requires k <= |ts| && Marks(ts[k..], At(ts, k)) == []
    ensures Marks(ts, 0) == Marks(ts[..k], 0) && PasteSnapshots([]) == []
  {
    hide Marks, Text;
    CutsAnywhere(ts, k);
    MarksJoin(ts[..k], ts[k..], 0);
    assert Marks(ts[..k], 0) + [] == Marks(ts[..k], 0);
  }

  lemma CutsAnywhere<T>(ts: seq<T>, k: nat)
    requires k <= |ts|
    ensures ts == ts[..k] + ts[k..]
  {
  }

  lemma CharsToEnd(ts: seq<Token>, k: nat, maximum: nat)
    requires k <= |ts| && Count(ts[k..]) == 0 && PartlyExpanded(ts, k) <= maximum
    ensures FitsFrom(ts, k, maximum)
  {
    hide PartlyExpanded, Count;
    NoPasteLeft(ts[k..]);
    forall i | k <= i <= |ts| ensures PartlyExpanded(ts, i) <= maximum {
      assert forall x :: 0 <= x < i - k ==> ts[k..i][x] == ts[k..][x];
      CharsDoNotExpand(ts, k, i);
    }
  }

  lemma FitsToNext(ts: seq<Token>, k: nat, j: nat, maximum: nat)
    requires NextPaste(ts, k, j) && PartlyExpanded(ts, k) <= maximum
    ensures FitsFrom(ts, k, maximum) <==> FitsFrom(ts, j + 1, maximum)
  {
    hide PartlyExpanded;
    forall i | k <= i <= j ensures PartlyExpanded(ts, i) <= maximum {
      assert forall x :: 0 <= x < i - k ==> ts[k..i][x] == ts[k..j][x];
      CharsDoNotExpand(ts, k, i);
    }
  }

  lemma CandidatesFrom(ts: seq<Token>, k: nat, j: nat)
    requires NextPaste(ts, k, j)
    ensures PasteSnapshots(Marks(ts[k..], At(ts, k)))
      == [Marker(At(ts, j), At(ts, j + 1), ts[j].payload, ts[j].title, 0)]
         + PasteSnapshots(Marks(ts[j + 1..], At(ts, j + 1)))
  {
    hide Marks, PasteSnapshots, AllChars, Text, FragmentMarks, FragmentMark, At;
    ScanMarks(ts, k, j);
    ScanText(ts, k, j);
    var m := Marker(At(ts, j), At(ts, j) + |ts[j].title|, ts[j].payload, ts[j].title, ts[j].ordinal);
    assert MarkOf(ts[j], At(ts, j)) == [m];
    OneSnapshot(m, Marks(ts[j + 1..], At(ts, j + 1)));
  }

  /** A marker that is passed over leaves too few. */
  lemma FewerChosen(ts: seq<Token>, k: nat, j: nat, maximum: nat)
    requires NextPaste(ts, k, j)
    requires PartlyExpanded(ts, j + 1) > maximum
    ensures |Marks(ts[..k], 0)| + |PasteSnapshots(Marks(ts[j + 1..], At(ts, j + 1)))| < |Marks(ts, 0)|
    ensures !FitsFrom(ts, k, maximum)
  {
    hide Marks, Text, AllChars, PartlyExpanded, Canonical;
    SnapshotCount(Marks(ts[j + 1..], At(ts, j + 1)));
    assert ts == ts[..j + 1] + ts[j + 1..];
    MarksJoin(ts[..j + 1], ts[j + 1..], 0);
    NextMarks(ts, k, j);
  }

  /** A snapshot restores every marker exactly when the text fits with its first markers expanded,
      however many. A payload shorter than its label is what can make a prefix not fit. */
  lemma SnapshotComesBack(ts: seq<Token>, maximum: nat)
    requires ts == Canonical(ts, 1) && PayloadsShow(ts) && InBudget(ts, maximum)
    ensures ConsiderAll(Text(ts), Start(Text(ts)), PasteSnapshots(Marks(ts, 0)), maximum).chosen == Marks(ts, 0)
      <==> forall k :: 0 <= k <= |ts| ==> PartlyExpanded(ts, k) <= maximum
    ensures (exists k :: 0 <= k <= |ts| && PartlyExpanded(ts, k) > maximum) ==>
      |ConsiderAll(Text(ts), Start(Text(ts)), PasteSnapshots(Marks(ts, 0)), maximum).chosen| < |Marks(ts, 0)|
  {
    hide Text, Marks, Canonical, Count, Bytes, Expand, Consider, ConsiderAll, InBudget, PayloadsShow, PasteSnapshots;
    StartIsOnTrack(ts);
    TitledCanonical(ts, maximum);
    ComesBackFrom(ts, 0, Start(Text(ts)), maximum);
  }

  lemma StartIsOnTrack(ts: seq<Token>)
    ensures OnTrack(ts, 0, Start(Text(ts))) && PartlyExpanded(ts, 0) == Bytes(Text(ts))
    ensures ts[0..] == ts && At(ts, 0) == 0
  {
    hide Bytes;
    assert ts[0..] == ts;
    NoBytes();
  }

  lemma NoBytes()
    ensures Bytes("") == 0
  {
  }

  // ----- a snapshot that does not come back -----

  /** A payload that is just large enough to be shown as a marker. */
  function LongPaste(): string {
    seq(1001, i => 'x')
  }

  lemma {:induction false} OneLine(s: string)
    requires '\n' !in s
    ensures LineCount(s) == 1
  {
    if s != "" {
      OneLine(s[1..]);
    }
  }

  lemma FourDigits()
    ensures |NatText(1001)| == 4
  {
    OneDigit(1);
    assert |NatText(10)| == 2;
    assert |NatText(100)| == 3;
  }

  lemma LongPasteIsPlain()
    ensures |LongPaste()| == 1001 && Plain(LongPaste()) && '\n' !in LongPaste()
  {
  }

  lemma LongPasteFacts()
    ensures |LongPaste()| == 1001 && Plain(LongPaste()) && LineCount(LongPaste()) == 1 && Bytes(LongPaste()) == 1001
    ensures |Detail(LongPaste())| == 10
  {
    hide *;
    LongPasteIsPlain();
    OneLine(LongPaste());
    AsciiBytes(LongPaste());
    FourDigits();
    DetailLength(LongPaste());
  }

  /** What is left of the payload when there is room for one more byte. */
  lemma LongPasteTruncated()
    ensures ByteTruncate(LongPaste(), 1) == "x"
  {
    assert |Utf8Char('x')| == 1;
    assert LongPaste()[0] == 'x' && |Utf8Char(LongPaste()[1..][0])| > 0;
    assert ByteTruncate(LongPaste()[1..], 0) == "";
    assert ['x'] + "" == "x";
  }

  /** Two pastes of which the second one would be lost on the way back. */
  function LongAndShort(): seq<Token> {
    Canonical([Paste(LongPaste(), "", 0), Paste("x", "", 0)], 1)
  }

  /** Its payload is shorter than its label, so the first one expanded no longer leaves room for
      that label. */
  lemma ShortPayloadCanBeLost()
    ensures var ts := LongAndShort();
      && ts == Canonical(ts, 1) && InBudget(ts, 1002) && |ts| == 2
      && PartlyExpanded(ts, 1) > 1002
  {
    hide Bytes, PasteLabel, NatText, Detail, LineCount, Canonical, Fixed, OrdinalDigits, Count, Expand, PartlyExpanded;
    hide LongPaste;
    TwoPastes(LongPaste(), "x");
    OneDigit(1);
    OneDigit(2);
    ShortDetail();
    LongPasteFacts();
    LabelLength(1, LongPaste());
    LabelLength(2, "x");
  }

  lemma DetailLength(s: string)
    requires LineCount(s) == 1
    ensures |Detail(s)| == |NatText(|s|)| + 6
  {
    hide NatText;
  }

  lemma ShortDetail()
    ensures |Detail("x")| == 7 && Bytes("x") == 1
  {
    assert "x"[1..] == "";
    assert LineCount("x") == LineCount("");
    OneDigit(1);
    DetailLength("x");
    assert Bytes("x") == |Utf8Char('x')| + Bytes("");
  }

  lemma OneDigit(n: nat)
    requires n < 10
    ensures |NatText(n)| == 1
  {
  }

  lemma TwoPastes(p: string, q: string)
    ensures var ts := Canonical([Paste(p, "", 0), Paste(q, "", 0)], 1);
      && ts == Canonical(ts, 1) && Count(ts) == 2
      && ts == [Paste(p, PasteLabel(1, p), 1), Paste(q, PasteLabel(2, q), 2)]
      && Bytes(Expand(ts)) == Bytes(p) + Bytes(q)
      && Fixed(ts) + OrdinalDigits(1, 2) == Bytes(PasteLabel(1, p)) + Bytes(PasteLabel(2, q))
      && PartlyExpanded(ts, 1) == Bytes(p) + Bytes(PasteLabel(2, q))
  {
    hide Bytes, PasteLabel;
    var raw := [Paste(p, "", 0), Paste(q, "", 0)];
    var ts := [Paste(p, PasteLabel(1, p), 1), Paste(q, PasteLabel(2, q), 2)];
    TwoCanonical(raw, p, q);
    TwoCanonical(ts, p, q);
    assert ts[..1] == [ts[0]] && ts[1..] == [ts[1]] && ts == [ts[0]] + [ts[1]];
    ExpandJoin([ts[0]], [ts[1]]);
    ExpandOne(ts[0]);
    ExpandOne(ts[1]);
    TextOne(ts[0]);
    TextOne(ts[1]);
    TextJoin([ts[0]], [ts[1]]);
    CountJoin([ts[0]], [ts[1]]);
    BytesJoin(p, q);
    BytesJoin(ts[0].title, ts[1].title);
    CanonicalBytes(ts, 1);
  }

  lemma TwoCanonical(ts: seq<Token>, p: string, q: string)
    requires |ts| == 2 && ts[0].Paste? && ts[1].Paste? && ts[0].payload == p && ts[1].payload == q
    ensures Canonical(ts, 1) == [Paste(p, PasteLabel(1, p), 1), Paste(q, PasteLabel(2, q), 2)]
  {
    hide PasteLabel;
    assert ts == [ts[0]] + [ts[1]];
    CanonicalJoin([ts[0]], [ts[1]], 1);
    CanonicalOne(ts[0], 1);
    CanonicalOne(ts[1], 2);
    TextOne(ts[0]);
  }
}
