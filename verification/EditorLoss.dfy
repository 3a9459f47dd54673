/** A run of the editor in which a snapshot does not bring a marker back. */
module EditorLoss {
  import opened Decimal
  import opened JsonLines
  import opened EditorText
  import opened EditorMarks
  import opened EditorScan
  import opened EditorRestore
  import opened Editor

  lemma LongPasteIsLarge()
    ensures Sanitize(LongPaste()) == LongPaste() && IsLarge(LongPaste())
    ensures ByteTruncate(LongPaste(), 1002) == LongPaste()
  {
    LongPasteFacts();
    PlainIsPrintable(LongPaste());
    hide Sanitize, Bytes, LineCount, LongPaste;
  }

  lemma LabelsAreShort(n: nat)
    requires n == 1 || n == 2
    ensures |PasteLabel(1, LongPaste())| <= 30 && |PasteLabel(n, "x")| <= 30
  {
    hide PasteLabel, NatText, Detail, LongPaste;
    OneDigit(1);
    OneDigit(2);
    LongPasteFacts();
    ShortDetail();
    LabelLength(1, LongPaste());
    LabelLength(n, "x");
  }

  lemma OnePaste(p: string, maximum: nat)
    requires Bytes(p) <= maximum && |PasteLabel(1, p)| <= maximum
    ensures var ts := [Paste(p, "", 0)];
      && Canonical(ts, 1) == [Paste(p, PasteLabel(1, p), 1)] && InBudget(ts, maximum)
      && Bytes(Expand(Canonical(ts, 1))) == Bytes(p)
  {
    hide Bytes, PasteLabel, Fixed, OrdinalDigits;
    var ts, us := [Paste(p, "", 0)], [Paste(p, PasteLabel(1, p), 1)];
    CanonicalOne(ts[0], 1);
    ExpandOne(ts[0]);
    ExpandOne(us[0]);
    TextOne(us[0]);
    CanonicalBytes(ts, 1);
    LabelLength(1, p);
    assert ts[1..] == [];
  }

  lemma FirstPaste(left: seq<Token>, right: seq<Token>)
    requires left + right == []
    ensures var us := left + [Paste(LongPaste(), "", 0)] + right;
      && InBudget(us, 1002) && Canonical(us, 1) == [Paste(LongPaste(), PasteLabel(1, LongPaste()), 1)]
      && 1002 - Bytes(Expand(Canonical(us, 1))) == 1 && Bytes(Expand(left + right)) == 0
  {
    hide Bytes, PasteLabel, LongPaste, InBudget, Canonical;
    assert left == [] && right == [];
    assert left + [Paste(LongPaste(), "", 0)] + right == [Paste(LongPaste(), "", 0)];
    LongPasteFacts();
    LabelsAreShort(1);
    OnePaste(LongPaste(), 1002);
    NoBytes();
  }

  lemma SecondPaste(left: seq<Token>, right: seq<Token>)
    requires left + right == [Paste(LongPaste(), PasteLabel(1, LongPaste()), 1)] && |left| == 1
    ensures var us := left + [Paste("x", "", 0)] + right;
      InBudget(us, 1002) && Canonical(us, 1) == LongAndShort()
  {
    hide Bytes, PasteLabel, LongPaste, InBudget, Canonical, Expand, PartlyExpanded;
    var us := left + [Paste("x", "", 0)] + right;
    assert us == [Paste(LongPaste(), PasteLabel(1, LongPaste()), 1), Paste("x", "", 0)];
    TwoCanonical(us, LongPaste(), "x");
    TwoCanonical([Paste(LongPaste(), "", 0), Paste("x", "", 0)], LongPaste(), "x");
    ShortPayloadCanBeLost();
    AlikeToItsLabels(us, LongAndShort());
    BudgetOfAlike(LongAndShort(), us, 1002);
  }

  lemma AlikeToItsLabels(us: seq<Token>, ts: seq<Token>)
    requires ts == Canonical(us, 1)
    ensures Alike(ts, us)
  {
    CanonicalIsAlike(us, 1);
    AlikeOn(us, ts, ts);
  }

  lemma PastesDoNotFit(us: seq<Token>)
    requires us == LongAndShort()
    ensures !(forall k :: 0 <= k <= |us| ==> PartlyExpanded(us, k) <= 1002)
  {
    hide Canonical, InBudget, PartlyExpanded, LongAndShort;
    ShortPayloadCanBeLost();
    assert PartlyExpanded(us, 1) > 1002;
  }

  /** Two large pastes into an editor of 1,002 bytes: of the second one, a single byte is left.
      Taking a snapshot and restoring it does not give the buffer back. */
  method LoseAPaste() returns (e: MultilineEditor, ghost before: seq<Token>)
    ensures fresh(e) && e.Valid() && before == LongAndShort() && |before| == 2
    ensures e.Tokens() != before
  {
    hide *;
    e := new MultilineEditor(1002, 1);
    LongPasteIsLarge();
    e.TokensAre();
    FirstPaste(e.left, e.right);
    ghost var first := e.InsertPaste(LongPaste());
    e.TokensAre();
    LongPasteTruncated();
    SecondPaste(e.left, e.right);
    ghost var second := e.InsertPaste(LongPaste());
    before := e.Tokens();
    ShortPayloadCanBeLost();
    PastesDoNotFit(before);
    e.SnapshotThenRestore();
  }
}
