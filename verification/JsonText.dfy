/** JSON string literals and the key order used by canonical JSON. */
module JsonText {

  /** Rank of a character in JavaScript string order, which compares UTF-16 code units:
      supplementary characters sort by their surrogates, below U+E000. */
  function UnitOrder(c: char): int {
    var code := c as int;
    if code < 0xD800 then code
    else if code < 0x10000 then code + 0x200000
    else 0xD800 + (code - 0x10000)
  }

  predicate Less(a: string, b: string) {
    if b == "" then false
    else if a == "" then true
    else if a[0] == b[0] then Less(a[1..], b[1..])
    else UnitOrder(a[0]) < UnitOrder(b[0])
  }

  lemma LessIsStrict(a: string, b: string)
    ensures !(Less(a, b) && Less(b, a))
    ensures !Less(a, a)
  {
  }

  lemma {:induction false} LessIsTransitive(a: string, b: string, c: string)
    requires Less(a, b) && Less(b, c)
    ensures Less(a, c)
  {
    if a != "" && a[0] == b[0] && b[0] == c[0] {
      LessIsTransitive(a[1..], b[1..], c[1..]);
    }
  }

  lemma {:induction false} LessIsTotal(a: string, b: string)
    ensures a == b || Less(a, b) || Less(b, a)
  {
    if a != "" && b != "" && a[0] == b[0] {
      LessIsTotal(a[1..], b[1..]);
      assert a == [a[0]] + a[1..] && b == [b[0]] + b[1..];
    }
  }

  function HexDigit(d: nat): char
    requires d < 16
  {
    "0123456789abcdef"[d]
  }

  /** The escapes of section 7 of RFC 8259 that JSON.stringify writes. */
  function EscapeChar(c: char): (s: string)
    ensures |s| > 0
  {
    if c == '\"' then "\\\""
    else if c == '\\' then "\\\\"
    else if c == 8 as char then "\\b"
    else if c == 12 as char then "\\f"
    else if c == '\n' then "\\n"
    else if c == '\r' then "\\r"
    else if c == '\t' then "\\t"
    else if c < ' ' then "\\u00" + [HexDigit(c as int / 16), HexDigit(c as int % 16)]
    else [c]
  }

  function EscapeAll(s: string): string {
    if s == "" then "" else EscapeChar(s[0]) + EscapeAll(s[1..])
  }

  function Quote(s: string): string {
    "\"" + EscapeAll(s) + "\""
  }

  ghost predicate NoControl(s: string) {
    forall i :: 0 <= i < |s| ==> s[i] >= ' '
  }

  lemma EscapeCharHasNoControl(c: char)
    ensures NoControl(EscapeChar(c))
  {
  }

  lemma {:induction false} QuoteHasNoControl(s: string)
    ensures NoControl(EscapeAll(s)) && NoControl(Quote(s))
  {
    if s != "" {
      EscapeCharHasNoControl(s[0]);
      QuoteHasNoControl(s[1..]);
    }
  }

  datatype Unescaped = NoChar | Read(c: char, length: nat)

  /** The character an escape stands for, read back from its text and the one after it. */
  function UnescapeFirst(s: string): Unescaped {
    if s == "" then NoChar
    else if s[0] != '\\' then (if s[0] == '\"' then NoChar else Read(s[0], 1))
    else if |s| < 2 then NoChar
    else if s[1] == '\"' then Read('\"', 2)
    else if s[1] == '\\' then Read('\\', 2)
    else if s[1] == 'b' then Read(8 as char, 2)
    else if s[1] == 'f' then Read(12 as char, 2)
    else if s[1] == 'n' then Read('\n', 2)
    else if s[1] == 'r' then Read('\r', 2)
    else if s[1] == 't' then Read('\t', 2)
    else if |s| < 6 then NoChar
    else Read((HexValue(s[4]) * 16 + HexValue(s[5])) as char, 6)
  }

  function HexValue(c: char): (v: nat)
    ensures v < 16
  {
    if '0' <= c <= '9' then c as int - '0' as int
    else if 'a' <= c <= 'f' then c as int - 'a' as int + 10
    else 0
  }

  lemma HexReadsBack(c: char, x: string)
    requires c < ' '
    ensures UnescapeFirst("\\u00" + [HexDigit(c as int / 16), HexDigit(c as int % 16)] + x) == Read(c, 6)
  {
    var high, low := HexDigit(c as int / 16), HexDigit(c as int % 16);
    assert HexValue(high) == c as int / 16 && HexValue(low) == c as int % 16;
    assert "\\u00" + [high, low] == ['\\', 'u', '0', '0', high, low];
  }

  lemma EscapeReadsBack(c: char, x: string)
    ensures UnescapeFirst(EscapeChar(c) + x) == Read(c, |EscapeChar(c)|)
    ensures EscapeChar(c)[0] != '\"'
  {
    hide HexDigit, HexValue;
    if c < ' ' && c !in {8 as char, 12 as char, '\n', '\r', '\t'} {
      HexReadsBack(c, x);
    } else {
      assert EscapeChar(c) == [c] || |EscapeChar(c)| == 2;
    }
  }

  lemma AfterPrefix(e: string, r: string, x: string)
    ensures (e + r) + "\"" + x == e + (r + "\"" + x)
    ensures |e| <= |(e + r) + "\"" + x|
    ensures ((e + r) + "\"" + x)[|e|..] == r + "\"" + x
  {
    assert (e + r) + "\"" + x == e + (r + "\"" + x);
  }

  /** The first character of an escaped text, seen by a reader that does not know the text. */
  lemma EscapedTextUnfolds(s: string, x: string)
    ensures s == "" ==>
      UnescapeFirst(EscapeAll(s) + "\"" + x) == NoChar && (EscapeAll(s) + "\"" + x)[1..] == x
    ensures s != "" ==>
      && UnescapeFirst(EscapeAll(s) + "\"" + x) == Read(s[0], |EscapeChar(s[0])|)
      && |EscapeChar(s[0])| <= |EscapeAll(s) + "\"" + x|
      && (EscapeAll(s) + "\"" + x)[|EscapeChar(s[0])|..] == EscapeAll(s[1..]) + "\"" + x
  {
    if s == "" {
      assert EscapeAll(s) + "\"" + x == "\"" + x;
    } else {
      AfterPrefix(EscapeChar(s[0]), EscapeAll(s[1..]), x);
      EscapeReadsBack(s[0], EscapeAll(s[1..]) + "\"" + x);
    }
  }

  lemma {:induction false} EscapeAllSplitsUniquely(s: string, x: string, t: string, y: string)
    requires EscapeAll(s) + "\"" + x == EscapeAll(t) + "\"" + y
    ensures s == t && x == y
  {
    hide EscapeAll, EscapeChar, UnescapeFirst;
    EscapedTextUnfolds(s, x);
    EscapedTextUnfolds(t, y);
    if s != "" && t != "" {
      EscapeAllSplitsUniquely(s[1..], x, t[1..], y);
      assert s == [s[0]] + s[1..] && t == [t[0]] + t[1..];
    }
  }

  lemma QuoteOpens(e: string, x: string)
    ensures "\"" + e + "\"" + x == "\"" + (e + "\"" + x) && ("\"" + (e + "\"" + x))[1..] == e + "\"" + x
  {
  }

  lemma QuoteSplitsUniquely(s: string, x: string, t: string, y: string)
    requires Quote(s) + x == Quote(t) + y
    ensures s == t && x == y
  {
    hide EscapeAll;
    QuoteOpens(EscapeAll(s), x);
    QuoteOpens(EscapeAll(t), y);
    EscapeAllSplitsUniquely(s, x, t, y);
  }
}
