/** The text of a multiline editor as a list of tokens: characters and paste markers.

    A grapheme is one atomic character, so splitting distributes over concatenation. A marker
    shows a numbered label in place of its payload. */
module EditorText {
  import opened Decimal
  import opened JsonLines

  datatype Token =
    | Char(c: char)
    | Paste(payload: string, title: string, ordinal: nat)

  datatype Marker = Marker(start: int, end: int, payload: string, title: string, ordinal: nat)

  // ----- bytes -----

  /** As many first characters as fit into `maximum` bytes. */
  function ByteTruncate(s: string, maximum: nat): (r: string)
    ensures Bytes(r) <= maximum && r <= s
    ensures Bytes(s) <= maximum ==> r == s
  {
    if s == "" || |Utf8Char(s[0])| > maximum then ""
    else [s[0]] + ByteTruncate(s[1..], maximum - |Utf8Char(s[0])|)
  }

  /** Removal of escape sequences and carriage returns, and tabs to spaces; left open. */
  const SANITIZER: string -> string

  predicate IsPrintable(c: char) {
    c == '\n' || (c >= ' ' && c as int != 0x7f && !(0x80 <= c as int < 0xa0))
  }

  function OnlyPrintable(s: string): string {
    if s == "" then "" else (if IsPrintable(s[0]) then [s[0]] else "") + OnlyPrintable(s[1..])
  }

  /** What the terminal may show of a text; printable text is shown as it is. */
  function Sanitize(s: string): string {
    if forall i | 0 <= i < |s| :: IsPrintable(s[i]) then s else OnlyPrintable(SANITIZER(s))
  }

  // ----- labels -----

  const LARGE_PASTE_LINES: nat := 10
  const LARGE_PASTE_CHARACTERS: nat := 1000

  function LineCount(s: string): (n: nat)
    ensures n >= 1
  {
    if s == "" then 1 else LineCount(s[1..]) + if s[0] == '\n' then 1 else 0
  }

  function Detail(payload: string): string {
    if LineCount(payload) > LARGE_PASTE_LINES then "+" + NatText(LineCount(payload)) + " lines"
    else NatText(|payload|) + " chars"
  }

  function PasteLabel(n: nat, payload: string): string {
    "[paste #" + NatText(n) + " " + Detail(payload) + "]"
  }

  /** Characters that labels are made of. */
  ghost predicate Plain(s: string) {
    forall i :: 0 <= i < |s| ==> ' ' <= s[i] <= '~'
  }

  lemma PlainJoin(a: string, b: string)
    requires Plain(a) && Plain(b)
    ensures Plain(a + b) && |a + b| == |a| + |b|
  {
  }

  lemma DetailIsPlain(payload: string)
    ensures Plain(Detail(payload))
  {
    PlainJoin("+", NatText(LineCount(payload)));
    PlainJoin("+" + NatText(LineCount(payload)), " lines");
    PlainJoin(NatText(|payload|), " chars");
  }

  /** How long a label is without the digits of its number. */
  function LabelRest(payload: string): nat {
    10 + |Detail(payload)|
  }

  lemma LabelLength(n: nat, payload: string)
    ensures |PasteLabel(n, payload)| == LabelRest(payload) + |NatText(n)|
    ensures Plain(PasteLabel(n, payload)) && Bytes(PasteLabel(n, payload)) == |PasteLabel(n, payload)|
  {
    DetailIsPlain(payload);
    PlainJoin("[paste #", NatText(n));
    PlainJoin("[paste #" + NatText(n), " ");
    PlainJoin("[paste #" + NatText(n) + " ", Detail(payload));
    PlainJoin("[paste #" + NatText(n) + " " + Detail(payload), "]");
    AsciiBytes(PasteLabel(n, payload));
  }

  lemma LabelEnds(n: nat, payload: string)
    ensures PasteLabel(n, payload)[0] == '['
    ensures PasteLabel(n, payload)[|PasteLabel(n, payload)| - 1] == ']'
  {
  }

  // ----- what tokens show -----

  function Shown(t: Token): string {
    match t
    case Char(c) => [c]
    case Paste(_, title, _) => title
  }

  function Text(ts: seq<Token>): string {
    if ts == [] then "" else Shown(ts[0]) + Text(ts[1..])
  }

  function MarkOf(t: Token, at: int): seq<Marker> {
    match t
    case Char(_) => []
    case Paste(payload, title, ordinal) => [Marker(at, at + |title|, payload, title, ordinal)]
  }

  function Marks(ts: seq<Token>, at: int): seq<Marker> {
    if ts == [] then [] else MarkOf(ts[0], at) + Marks(ts[1..], at + |Shown(ts[0])|)
  }

  function Count(ts: seq<Token>): nat {
    if ts == [] then 0 else (if ts[0].Paste? then 1 else 0) + Count(ts[1..])
  }

  /** The text with every payload in place of its marker. */
  function Expand(ts: seq<Token>): string {
    if ts == [] then ""
    else (match ts[0] case Char(c) => [c] case Paste(payload, _, _) => payload) + Expand(ts[1..])
  }

  function Chars(s: string): (ts: seq<Token>)
    ensures |ts| == |s| && forall i :: 0 <= i < |s| ==> ts[i] == Char(s[i])
  {
    seq(|s|, i requires 0 <= i < |s| => Char(s[i]))
  }

  function Numbered(t: Token, n: nat): Token {
    match t
    case Char(_) => t
    case Paste(payload, _, _) => Paste(payload, PasteLabel(n, payload), n)
  }

  function Following(t: Token, n: nat): nat {
    if t.Paste? then n + 1 else n
  }

  /** The same tokens with the labels numbered from `n`. */
  function Canonical(ts: seq<Token>, n: nat): seq<Token> {
    if ts == [] then [] else [Numbered(ts[0], n)] + Canonical(ts[1..], Following(ts[0], n))
  }

  /** Two token lists that differ at most in their labels. */
  ghost predicate Alike(ts: seq<Token>, us: seq<Token>) {
    && |ts| == |us|
    && forall i :: 0 <= i < |ts| ==>
         if ts[i].Char? then us[i] == ts[i] else us[i].Paste? && us[i].payload == ts[i].payload
  }

  /** No marker is empty. */
  ghost predicate Titled(ts: seq<Token>) {
    forall i :: 0 <= i < |ts| && ts[i].Paste? ==> ts[i].title != ""
  }

  /** Every marker carries the label of its payload under some number. */
  ghost predicate Labelled(ts: seq<Token>) {
    forall i :: 0 <= i < |ts| && ts[i].Paste? ==> ts[i].title == PasteLabel(ts[i].ordinal, ts[i].payload)
  }

  // ----- concatenation -----

  lemma {:induction false} TextJoin(a: seq<Token>, b: seq<Token>)
    ensures Text(a + b) == Text(a) + Text(b)
  {
    if a == [] {
      assert a + b == b;
    } else {
      assert (a + b)[0] == a[0] && (a + b)[1..] == a[1..] + b;
      TextJoin(a[1..], b);
      assert Shown(a[0]) + (Text(a[1..]) + Text(b)) == (Shown(a[0]) + Text(a[1..])) + Text(b);
    }
  }

  lemma {:induction false} MarksJoin(a: seq<Token>, b: seq<Token>, at: int)
    ensures Marks(a + b, at) == Marks(a, at) + Marks(b, at + |Text(a)|)
  {
    if a == [] {
      assert a + b == b;
    } else {
      assert (a + b)[0] == a[0] && (a + b)[1..] == a[1..] + b;
      MarksJoin(a[1..], b, at + |Shown(a[0])|);
    }
  }

  lemma {:induction false} CountJoin(a: seq<Token>, b: seq<Token>)
    ensures Count(a + b) == Count(a) + Count(b)
  {
    if a == [] {
      assert a + b == b;
    } else {
      assert (a + b)[0] == a[0] && (a + b)[1..] == a[1..] + b;
      CountJoin(a[1..], b);
    }
  }

  lemma {:induction false} ExpandJoin(a: seq<Token>, b: seq<Token>)
    ensures Expand(a + b) == Expand(a) + Expand(b)
  {
    if a == [] {
      assert a + b == b;
    } else {
      assert (a + b)[0] == a[0] && (a + b)[1..] == a[1..] + b;
      ExpandJoin(a[1..], b);
      var first := match a[0] case Char(c) => [c] case Paste(payload, _, _) => payload;
      assert first + (Expand(a[1..]) + Expand(b)) == (first + Expand(a[1..])) + Expand(b);
    }
  }

  lemma {:induction false} CanonicalJoin(a: seq<Token>, b: seq<Token>, n: nat)
    ensures Canonical(a + b, n) == Canonical(a, n) + Canonical(b, n + Count(a))
  {
    hide Numbered;
    if a == [] {
      assert a + b == b;
    } else {
      assert (a + b)[0] == a[0] && (a + b)[1..] == a[1..] + b;
      CanonicalJoin(a[1..], b, Following(a[0], n));
    }
  }

  // ----- canonical labels -----

  lemma {:induction false} CanonicalIsAlike(ts: seq<Token>, n: nat)
    ensures Alike(ts, Canonical(ts, n)) && Titled(Canonical(ts, n)) && Labelled(Canonical(ts, n))
    ensures Count(Canonical(ts, n)) == Count(ts) && Expand(Canonical(ts, n)) == Expand(ts)
  {
    if ts != [] {
      CanonicalIsAlike(ts[1..], Following(ts[0], n));
      if ts[0].Paste? {
        LabelLength(n, ts[0].payload);
      }
    }
  }

  /** Canonical tokens depend only on what the tokens have alike. */
  lemma {:induction false} CanonicalOfAlike(ts: seq<Token>, us: seq<Token>, n: nat)
    requires Alike(ts, us)
    ensures Canonical(ts, n) == Canonical(us, n)
    ensures Count(ts) == Count(us) && Expand(ts) == Expand(us)
  {
    if ts != [] {
      assert forall i :: 0 <= i < |ts[1..]| ==> ts[1..][i] == ts[i + 1] && us[1..][i] == us[i + 1];
      assert if ts[0].Char? then us[0] == ts[0] else us[0].Paste? && us[0].payload == ts[0].payload;
      CanonicalOfAlike(ts[1..], us[1..], Following(ts[0], n));
    }
  }

  function FixedOf(t: Token): nat {
    match t
    case Char(c) => |Utf8Char(c)|
    case Paste(payload, _, _) => LabelRest(payload)
  }

  /** The bytes of the tokens, without the digits of their ordinals. */
  function Fixed(ts: seq<Token>): nat {
    if ts == [] then 0 else FixedOf(ts[0]) + Fixed(ts[1..])
  }

  /** The digits of `k` ordinals from `n`. */
  function OrdinalDigits(n: nat, k: nat): nat {
    if k == 0 then 0 else OrdinalDigits(n, k - 1) + |NatText(n + k - 1)|
  }

  lemma {:induction false} FixedJoin(a: seq<Token>, b: seq<Token>)
    ensures Fixed(a + b) == Fixed(a) + Fixed(b)
  {
    if a == [] {
      assert a + b == b;
    } else {
      assert (a + b)[0] == a[0] && (a + b)[1..] == a[1..] + b;
      FixedJoin(a[1..], b);
    }
  }

  lemma {:induction false} FixedOfAlike(ts: seq<Token>, us: seq<Token>)
    requires Alike(ts, us)
    ensures Fixed(ts) == Fixed(us)
  {
    if ts != [] {
      assert forall i :: 0 <= i < |ts[1..]| ==> ts[1..][i] == ts[i + 1] && us[1..][i] == us[i + 1];
      assert if ts[0].Char? then us[0] == ts[0] else us[0].Paste? && us[0].payload == ts[0].payload;
      FixedOfAlike(ts[1..], us[1..]);
    }
  }

  lemma {:induction false} DigitsSplit(n: nat, j: nat, k: nat)
    ensures OrdinalDigits(n, j + k) == OrdinalDigits(n, j) + OrdinalDigits(n + j, k)
  {
    if k > 0 {
      DigitsSplit(n, j, k - 1);
    }
  }

  /** Larger ordinals never take fewer digits. */
  lemma {:induction false} DigitsGrow(n: nat, m: nat, k: nat)
    requires n <= m
    ensures OrdinalDigits(n, k) <= OrdinalDigits(m, k)
  {
    hide NatText;
    if k > 0 {
      DigitsGrow(n, m, k - 1);
      NatTextGrows(n + k - 1, m + k - 1);
    }
  }

  lemma DigitsOfMore(n: nat, j: nat, k: nat)
    requires j <= k
    ensures OrdinalDigits(n, j) <= OrdinalDigits(n, k)
  {
    DigitsSplit(n, j, k - j);
  }

  lemma NumberedBytes(t: Token, n: nat)
    ensures Bytes(Shown(Numbered(t, n))) == FixedOf(t) + OrdinalDigits(n, if t.Paste? then 1 else 0)
  {
    match t
    case Char(c) => assert Bytes([c]) == |Utf8Char(c)| + Bytes([]);
    case Paste(payload, _, _) =>
      LabelLength(n, payload);
      assert OrdinalDigits(n, 1) == OrdinalDigits(n, 0) + |NatText(n)|;
  }

  /** How many bytes tokens show, numbered from `n`: the order of the markers does not matter. */
  lemma {:induction false} CanonicalBytes(ts: seq<Token>, n: nat)
    ensures Bytes(Text(Canonical(ts, n))) == Fixed(ts) + OrdinalDigits(n, Count(ts))
  {
    hide Numbered, FixedOf, Bytes, Shown, OrdinalDigits;
    if ts != [] {
      var next := Following(ts[0], n);
      CanonicalBytes(ts[1..], next);
      var us := Canonical(ts, n);
      assert us[1..] == Canonical(ts[1..], next);
      BytesJoin(Shown(us[0]), Text(us[1..]));
      NumberedBytes(ts[0], n);
      DigitsSplit(n, if ts[0].Paste? then 1 else 0, Count(ts[1..]));
      NoDigits(n);
    } else {
      NoDigits(n);
    }
  }

  lemma NoDigits(n: nat)
    ensures OrdinalDigits(n, 0) == 0 && Bytes("") == 0
  {
  }

  // ----- budgets -----

  const MAX_PASTE_MARKERS: nat := 100

  /** What tokens show, once numbered from 1, and what they expand to fit into `maximum` bytes. */
  ghost predicate InBudget(ts: seq<Token>, maximum: nat) {
    && Count(ts) <= MAX_PASTE_MARKERS
    && Fixed(ts) + OrdinalDigits(1, Count(ts)) <= maximum
    && Bytes(Expand(ts)) <= maximum
  }

  lemma BudgetOfAlike(ts: seq<Token>, us: seq<Token>, maximum: nat)
    requires Alike(ts, us) && InBudget(ts, maximum)
    ensures InBudget(us, maximum)
  {
    hide Bytes, Expand, Count, Fixed;
    CanonicalOfAlike(ts, us, 1);
    FixedOfAlike(ts, us);
  }

  /** Removing tokens keeps both budgets, although the other markers are numbered anew. */
  lemma BudgetOfPart(l: seq<Token>, m: seq<Token>, r: seq<Token>, maximum: nat)
    requires InBudget(l + m + r, maximum)
    ensures InBudget(l + r, maximum) && Bytes(Expand(m)) + Bytes(Expand(l + r)) == Bytes(Expand(l + m + r))
  {
    hide Bytes, Expand, Count, Fixed, OrdinalDigits, NatText;
    CountJoin(l + m, r);
    CountJoin(l, m);
    CountJoin(l, r);
    FixedJoin(l + m, r);
    FixedJoin(l, m);
    FixedJoin(l, r);
    ExpandJoin(l + m, r);
    ExpandJoin(l, m);
    ExpandJoin(l, r);
    BytesJoin(Expand(l + m), Expand(r));
    BytesJoin(Expand(l), Expand(m));
    BytesJoin(Expand(l), Expand(r));
    DigitsOfMore(1, Count(l + r), Count(l + m + r));
  }

  lemma AlikeJoin(a: seq<Token>, b: seq<Token>, c: seq<Token>, d: seq<Token>)
    requires Alike(a, c) && Alike(b, d)
    ensures Alike(a + b, c + d)
  {
  }

  lemma AlikeOn(a: seq<Token>, b: seq<Token>, c: seq<Token>)
    requires Alike(a, b) && Alike(b, c)
    ensures Alike(a, c) && Alike(b, a)
  {
    forall i | 0 <= i < |a| ensures if a[i].Char? then c[i] == a[i] else c[i].Paste? && c[i].payload == a[i].payload {
      assert if a[i].Char? then b[i] == a[i] else b[i].Paste? && b[i].payload == a[i].payload;
      assert if b[i].Char? then c[i] == b[i] else c[i].Paste? && c[i].payload == b[i].payload;
    }
    forall i | 0 <= i < |a| ensures if b[i].Char? then a[i] == b[i] else a[i].Paste? && a[i].payload == b[i].payload {
      assert if a[i].Char? then b[i] == a[i] else b[i].Paste? && b[i].payload == a[i].payload;
    }
  }

  // ----- what a terminal shows -----

  /** Only characters that a terminal shows. */
  ghost predicate Printable(s: string) {
    forall i :: 0 <= i < |s| ==> IsPrintable(s[i])
  }

  /** Characters and payloads that a terminal shows. */
  ghost predicate AllShow(ts: seq<Token>) {
    forall i :: 0 <= i < |ts| ==>
      match ts[i]
      case Char(c) => IsPrintable(c)
      case Paste(payload, _, _) => Printable(payload)
  }

  lemma PlainIsPrintable(s: string)
    requires Plain(s)
    ensures Printable(s) && Sanitize(s) == s
  {
  }

  lemma {:induction false} OnlyPrintableIsPrintable(s: string)
    ensures Printable(OnlyPrintable(s))
  {
    if s != "" {
      OnlyPrintableIsPrintable(s[1..]);
    }
  }

  lemma SanitizedShows(s: string)
    ensures Printable(Sanitize(s))
  {
    OnlyPrintableIsPrintable(SANITIZER(s));
  }

  lemma SanitizedTwice(s: string)
    ensures Sanitize(Sanitize(s)) == Sanitize(s)
  {
    SanitizedShows(s);
  }

  /** What is cut off of a text that shows, shows. */
  lemma TruncatedShows(s: string, maximum: nat)
    requires Printable(s)
    ensures Printable(ByteTruncate(s, maximum))
  {
    var r := ByteTruncate(s, maximum);
    assert r == s[..|r|];
  }

  lemma CharsShowAll(s: string)
    requires Printable(s)
    ensures AllShow(Chars(s))
  {
  }

  lemma ShowJoin(a: seq<Token>, b: seq<Token>)
    requires AllShow(a) && AllShow(b)
    ensures AllShow(a + b)
  {
  }

  lemma ShowPart(ts: seq<Token>, i: nat, j: nat)
    requires AllShow(ts) && i <= j <= |ts|
    ensures AllShow(ts[i..j])
  {
    assert forall k :: 0 <= k < j - i ==> ts[i..j][k] == ts[i + k];
  }

  lemma ShowCut(ts: seq<Token>, i: nat, j: nat)
    requires AllShow(ts) && i <= j <= |ts|
    ensures AllShow(ts[..i] + ts[j..])
  {
    hide AllShow;
    ShowPart(ts, 0, i);
    ShowPart(ts, j, |ts|);
    ShowJoin(ts[..i], ts[j..]);
  }

  lemma ShowAlike(ts: seq<Token>, us: seq<Token>)
    requires Alike(ts, us) && AllShow(ts)
    ensures AllShow(us)
  {
    hide Printable, IsPrintable;
    forall i | 0 <= i < |us| ensures
      match us[i]
      case Char(c) => IsPrintable(c)
      case Paste(payload, _, _) => Printable(payload)
    {
      assert if ts[i].Char? then us[i] == ts[i] else us[i].Paste? && us[i].payload == ts[i].payload;
    }
  }

  lemma ShowCanonical(ts: seq<Token>, n: nat)
    requires AllShow(ts)
    ensures AllShow(Canonical(ts, n))
  {
    hide AllShow, Alike, Canonical, Titled, Labelled;
    CanonicalIsAlike(ts, n);
    ShowAlike(ts, Canonical(ts, n));
  }

  lemma PrintableJoin(a: string, b: string)
    requires Printable(a) && Printable(b)
    ensures Printable(a + b)
  {
  }

  lemma ShownIsPrintable(t: Token)
    requires AllShow([t]) && Labelled([t])
    ensures Printable(Shown(t))
  {
    assert [t][0] == t;
    match t
    case Char(c) =>
    case Paste(payload, title, ordinal) =>
      LabelLength(ordinal, payload);
      PlainIsPrintable(title);
  }

  /** Labels show as well, so the whole text does. */
  lemma {:induction false} TextShows(ts: seq<Token>)
    requires AllShow(ts) && Labelled(ts)
    ensures Printable(Text(ts))
  {
    hide AllShow, Labelled, Printable, Shown;
    if ts != [] {
      FirstAndRest(ts);
      ShownIsPrintable(ts[0]);
      TextShows(ts[1..]);
      PrintableJoin(Shown(ts[0]), Text(ts[1..]));
    } else {
      NothingPrints();
    }
  }

  lemma NothingPrints()
    ensures Printable("")
  {
  }

  lemma FirstAndRest(ts: seq<Token>)
    requires ts != [] && AllShow(ts) && Labelled(ts)
    ensures AllShow([ts[0]]) && Labelled([ts[0]]) && AllShow(ts[1..]) && Labelled(ts[1..])
  {
    ShowPart(ts, 1, |ts|);
    ShowPart(ts, 0, 1);
    assert ts[0..1] == [ts[0]];
    hide AllShow;
    assert forall k :: 0 <= k < |ts| - 1 ==> ts[1..][k] == ts[k + 1];
  }
}
