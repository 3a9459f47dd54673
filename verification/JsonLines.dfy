/** JSON text as JSON.stringify writes it, and its UTF-8 bytes: one record is one line. */
module JsonLines {
  import opened Decimal
  import opened JsonText
  import opened CanonicalJson
  import opened Numerals

  type Byte = b: int | 0 <= b < 256

  const LF: Byte := 10
  const CR: Byte := 13

  function Stringify(src: Source): string {
    match src
    case NullSource => "null"
    case BoolSource(b) => if b then "true" else "false"
    case NumberSource(n) => NumeralText(n)
    case StringSource(s) => Quote(s)
    case ArraySource(es) => "[" + StringifyElements(es) + "]"
    case ObjectSource(ms) => "{" + StringifyMembers(ms) + "}"
  }

  function StringifyElements(es: seq<Source>): string {
    if es == [] then ""
    else if |es| == 1 then Stringify(es[0])
    else Stringify(es[0]) + "," + StringifyElements(es[1..])
  }

  function StringifyMembers(ms: seq<Member>): string {
    if ms == [] then ""
    else
      var first := Quote(ms[0].key) + ":" + Stringify(ms[0].value);
      if |ms| == 1 then first else first + "," + StringifyMembers(ms[1..])
  }

  lemma NoControlJoined(a: string, b: string)
    requires NoControl(a) && NoControl(b)
    ensures NoControl(a + b)
  {
  }

  lemma NumberHasNoControl(n: Numeral)
    ensures NoControl(NumeralText(n)) && NumeralText(n) != ""
  {
    hide NumeralText;
    TextIsNumeral(n);
  }

  /** No JSON text holds a raw control character: section 7 of RFC 8259 has them escaped. */
  lemma {:induction false} StringifyHasNoControl(src: Source)
    ensures NoControl(Stringify(src)) && |Stringify(src)| > 0
  {
    hide NoControl;
    match src
    case NullSource => NoControlIn("null");
    case BoolSource(b) =>
      NoControlIn("true");
      NoControlIn("false");
    case NumberSource(n) => NumberHasNoControl(n);
    case StringSource(s) => QuoteHasNoControl(s);
    case ArraySource(es) =>
      ElementsHaveNoControl(es);
      NoControlIn("[");
      NoControlIn("]");
      NoControlJoined("[", StringifyElements(es));
      NoControlJoined("[" + StringifyElements(es), "]");
    case ObjectSource(ms) =>
      MembersHaveNoControl(ms);
      NoControlIn("{");
      NoControlIn("}");
      NoControlJoined("{", StringifyMembers(ms));
      NoControlJoined("{" + StringifyMembers(ms), "}");
  }

  lemma NoControlIn(s: string)
    requires forall i :: 0 <= i < |s| ==> s[i] >= ' '
    ensures NoControl(s)
  {
  }

  lemma {:induction false} ElementsHaveNoControl(es: seq<Source>)
    ensures NoControl(StringifyElements(es))
  {
    hide NoControl;
    NoControlIn("");
    NoControlIn(",");
    if es != [] {
      StringifyHasNoControl(es[0]);
      if |es| > 1 {
        ElementsHaveNoControl(es[1..]);
        NoControlJoined(Stringify(es[0]), ",");
        NoControlJoined(Stringify(es[0]) + ",", StringifyElements(es[1..]));
      }
    }
  }

  lemma {:induction false} MembersHaveNoControl(ms: seq<Member>)
    ensures NoControl(StringifyMembers(ms))
  {
    hide NoControl;
    NoControlIn("");
    NoControlIn(",");
    NoControlIn(":");
    if ms != [] {
      QuoteHasNoControl(ms[0].key);
      StringifyHasNoControl(ms[0].value);
      NoControlJoined(Quote(ms[0].key), ":");
      NoControlJoined(Quote(ms[0].key) + ":", Stringify(ms[0].value));
      if |ms| > 1 {
        MembersHaveNoControl(ms[1..]);
        var first := Quote(ms[0].key) + ":" + Stringify(ms[0].value);
        NoControlJoined(first, ",");
        NoControlJoined(first + ",", StringifyMembers(ms[1..]));
      }
    }
  }

  // ----- UTF-8 -----

  function Utf8Char(c: char): (bytes: seq<Byte>)
    ensures |bytes| > 0
    ensures c >= ' ' ==> forall i :: 0 <= i < |bytes| ==> bytes[i] >= 32
  {
    var code := c as int;
    if code < 0x80 then [code]
    else if code < 0x800 then [0xC0 + code / 0x40, 0x80 + code % 0x40]
    else if code < 0x10000 then [0xE0 + code / 0x1000, 0x80 + code / 0x40 % 0x40, 0x80 + code % 0x40]
    else [0xF0 + code / 0x40000, 0x80 + code / 0x1000 % 0x40, 0x80 + code / 0x40 % 0x40, 0x80 + code % 0x40]
  }

  function Utf8(s: string): seq<Byte> {
    if s == "" then [] else Utf8Char(s[0]) + Utf8(s[1..])
  }

  /** How many bytes a text takes in UTF-8. */
  function Bytes(s: string): nat {
    if s == "" then 0 else |Utf8Char(s[0])| + Bytes(s[1..])
  }

  lemma {:induction false} BytesJoin(a: string, b: string)
    ensures Bytes(a + b) == Bytes(a) + Bytes(b)
  {
    if a == "" {
      assert a + b == b;
    } else {
      assert (a + b)[0] == a[0] && (a + b)[1..] == a[1..] + b;
      BytesJoin(a[1..], b);
    }
  }

  lemma {:induction false} AsciiBytes(s: string)
    requires forall i :: 0 <= i < |s| ==> s[i] as int < 0x80
    ensures Bytes(s) == |s|
  {
    if s != "" {
      AsciiBytes(s[1..]);
    }
  }

  lemma {:induction false} TextHasNoLf(s: string)
    requires NoControl(s)
    ensures forall i :: 0 <= i < |Utf8(s)| ==> Utf8(s)[i] >= 32
    ensures |Utf8(s)| >= |s|
  {
    if s != "" {
      TextHasNoLf(s[1..]);
    }
  }

  /** The bytes of a record hold neither a line feed nor a carriage return, and at least one byte. */
  lemma RecordIsOneLine(src: Source)
    ensures LF !in Utf8(Stringify(src)) && CR !in Utf8(Stringify(src)) && |Utf8(Stringify(src))| > 0
  {
    StringifyHasNoControl(src);
    TextHasNoLf(Stringify(src));
  }
}
