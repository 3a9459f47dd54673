/** Which labels a restored snapshot may carry: their form, and the figure they show. */
module EditorLabels {
  import opened Decimal
  import opened EditorText

  /** How many digits a text begins with. */
  function DigitRun(s: string): (n: nat)
    ensures n <= |s| && AllDigits(s[..n]) && NoDigitFirst(s[n..])
  {
    if s == "" || !IsDigit(s[0]) then 0
    else
      var n := DigitRun(s[1..]);
      assert s[..n + 1] == [s[0]] + s[1..][..n] && s[n + 1..] == s[1..][n..];
      n + 1
  }

  /** Digits that show `figure`, then `ending`. */
  predicate Shows(s: string, figure: nat, ending: string) {
    var n := DigitRun(s);
    n > 0 && NatValue(s[..n]) == figure && s[n..] == ending
  }

  /** A label has the form of a paste label, and its figure is that of the payload. */
  predicate LabelAccepted(title: string, payload: string) {
    && "[paste #" <= title
    && var rest := title[8..];
    && var n := DigitRun(rest);
    && n > 0 && [' '] <= rest[n..]
    && var detail := rest[n + 1..];
    && if ['+'] <= detail then Shows(detail[1..], LineCount(payload), " lines]")
       else Shows(detail, |payload|, " chars]")
  }

  lemma DigitRunOf(d: string, rest: string)
    requires AllDigits(d) && NoDigitFirst(rest)
    ensures DigitRun(d + rest) == |d|
  {
    var s := d + rest;
    var n := DigitRun(s);
    assert s == s[..n] + s[n..];
    DigitRunsSplitUniquely(d, rest, s[..n], s[n..]);
  }

  lemma ShowsNumber(figure: nat, ending: string)
    requires NoDigitFirst(ending)
    ensures Shows(NatText(figure) + ending, figure, ending)
  {
    hide AllDigits;
    DigitRunOf(NatText(figure), ending);
    NatTextRoundTrip(figure);
    assert (NatText(figure) + ending)[..|NatText(figure)|] == NatText(figure);
  }

  lemma LinesDetail(t: string)
    ensures "+" + t + " lines" + "]" == ['+'] + (t + " lines]")
    ensures (['+'] + (t + " lines]"))[1..] == t + " lines]"
  {
    assert " lines" + "]" == " lines]";
  }

  lemma CharsDetail(t: string)
    requires t != "" && AllDigits(t)
    ensures t + " chars" + "]" == t + " chars]" && !(['+'] <= t + " chars]")
  {
    assert " chars" + "]" == " chars]";
    assert (t + " chars]")[0] == t[0];
  }

  lemma DetailShows(payload: string)
    ensures var detail := Detail(payload) + "]";
      if ['+'] <= detail then Shows(detail[1..], LineCount(payload), " lines]") else Shows(detail, |payload|, " chars]")
  {
    hide NatText, Shows, LineCount, AllDigits;
    ShowsNumber(LineCount(payload), " lines]");
    ShowsNumber(|payload|, " chars]");
    LinesDetail(NatText(LineCount(payload)));
    CharsDetail(NatText(|payload|));
  }

  lemma LabelSplits(n: nat, payload: string)
    ensures PasteLabel(n, payload) == "[paste #" + (NatText(n) + ([' '] + (Detail(payload) + "]")))
  {
    hide NatText, Detail;
    assert " " == [' '];
  }

  lemma Prefixed(a: string, b: string)
    ensures a <= a + b && (a + b)[|a|..] == b
  {
  }

  /** Every label that the editor writes is accepted with its own payload. */
  lemma OwnLabelAccepted(n: nat, payload: string)
    ensures LabelAccepted(PasteLabel(n, payload), payload)
  {
    hide NatText, Detail, Shows, LineCount, PasteLabel, DigitRun, AllDigits;
    LabelSplits(n, payload);
    var detail := Detail(payload) + "]";
    var rest := NatText(n) + ([' '] + detail);
    Prefixed("[paste #", rest);
    DigitRunOf(NatText(n), [' '] + detail);
    Prefixed(NatText(n), [' '] + detail);
    Prefixed([' '], detail);
    assert rest[|NatText(n)| + 1..] == detail;
    DetailShows(payload);
  }
}
