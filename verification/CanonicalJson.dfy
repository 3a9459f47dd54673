/** JSON values, JSON text, and the canonical text that is hashed.

    A `Source` is a JavaScript value with its object members in insertion order; a `Json` is
    what deep equality sees of it, so two sources have the same `Value` exactly when they
    differ only in the order of object keys, at any depth. */
module CanonicalJson {
  import opened Decimal
  import opened JsonText
  import opened Numerals

  datatype Json =
    | Null
    | Bool(b: bool)
    | Number(n: Numeral)
    | String(s: string)
    | Array(items: seq<Json>)
    | Object(fields: map<string, Json>)

  datatype Source =
    | NullSource
    | BoolSource(b: bool)
    | NumberSource(n: Numeral)
    | StringSource(s: string)
    | ArraySource(elements: seq<Source>)
    | ObjectSource(members: seq<Member>)

  datatype Member = Member(key: string, value: Source)

  ghost predicate DistinctKeys(ms: seq<Member>) {
    forall i, j :: 0 <= i < j < |ms| ==> ms[i].key != ms[j].key
  }

  /** A JavaScript object holds each key once. */
  ghost predicate Proper(src: Source) {
    match src
    case ArraySource(es) => forall i :: 0 <= i < |es| ==> Proper(es[i])
    case ObjectSource(ms) => DistinctKeys(ms) && forall i :: 0 <= i < |ms| ==> Proper(ms[i].value)
    case _ => true
  }

  ghost function Value(src: Source): Json {
    match src
    case NullSource => Null
    case BoolSource(b) => Bool(b)
    case NumberSource(n) => Number(n)
    case StringSource(s) => String(s)
    case ArraySource(es) => Array(seq(|es|, i requires 0 <= i < |es| => Value(es[i])))
    case ObjectSource(ms) => Object(Fields(ms))
  }

  ghost function Fields(ms: seq<Member>): map<string, Json> {
    if ms == [] then map[] else map[ms[0].key := Value(ms[0].value)] + Fields(ms[1..])
  }

  // ----- key order -----

  ghost predicate SortedKeysOf(keys: seq<string>, ks: set<string>) {
    && (forall i, j :: 0 <= i < j < |keys| ==> Less(keys[i], keys[j]))
    && (forall i :: 0 <= i < |keys| ==> keys[i] in ks)
    && (forall k :: k in ks ==> k in keys)
  }

  predicate IsLeast(k: string, ks: set<string>) {
    k in ks && forall j :: j in ks ==> j == k || Less(k, j)
  }

  lemma {:induction false} LeastExists(ks: set<string>)
    requires ks != {}
    ensures exists k :: IsLeast(k, ks)
  {
    var k :| k in ks;
    if ks == {k} {
      assert IsLeast(k, ks);
    } else {
      var rest := ks - {k};
      LeastExists(rest);
      var m :| IsLeast(m, rest);
      LessIsTotal(k, m);
      if Less(k, m) {
        forall j | j in ks ensures j == k || Less(k, j) {
          if j != k && j != m { LessIsTransitive(k, m, j); }
        }
        assert IsLeast(k, ks);
      } else {
        assert IsLeast(m, ks);
      }
    }
  }

  lemma LeastIsUnique(ks: set<string>)
    ensures forall k, l :: IsLeast(k, ks) && IsLeast(l, ks) ==> k == l
  {
    forall k, l | IsLeast(k, ks) && IsLeast(l, ks) ensures k == l {
      LessIsStrict(k, l);
    }
  }

  function SortedKeys(ks: set<string>): (keys: seq<string>)
    ensures SortedKeysOf(keys, ks)
  {
    if ks == {} then []
    else
      LeastExists(ks);
      LeastIsUnique(ks);
      var k :| k in ks && IsLeast(k, ks);
      assert ks == {k} + (ks - {k});
      [k] + SortedKeys(ks - {k})
  }

  lemma SortedKeysNonempty(a: seq<string>, ks: set<string>)
    requires SortedKeysOf(a, ks)
    ensures |a| > 0 <==> ks != {}
  {
    assert |a| > 0 ==> a[0] in ks;
    if ks != {} {
      var k :| k in ks;
      assert k in a;
    }
  }

  lemma {:induction false} SortedKeysAreUnique(a: seq<string>, b: seq<string>, ks: set<string>)
    requires SortedKeysOf(a, ks) && SortedKeysOf(b, ks)
    ensures a == b
    decreases |a|
  {
    SortedKeysNonempty(a, ks);
    SortedKeysNonempty(b, ks);
    if ks != {} {
      assert a[0] in b && b[0] in a;
      LessIsStrict(a[0], b[0]);
      assert a[0] == b[0];
      forall i | 0 < i < |a| ensures a[i] != a[0] { LessIsStrict(a[0], a[i]); }
      forall i | 0 < i < |b| ensures b[i] != b[0] { LessIsStrict(b[0], b[i]); }
      assert a == [a[0]] + a[1..] && b == [b[0]] + b[1..];
      SortedKeysAreUnique(a[1..], b[1..], ks - {a[0]});
    }
  }

  // ----- canonical text of a value -----

  function Canonical(j: Json): string {
    match j
    case Null => "null"
    case Bool(b) => if b then "true" else "false"
    case Number(n) => NumeralText(n)
    case String(s) => Quote(s)
    case Array(items) => "[" + CanonicalItems(items) + "]"
    case Object(fields) => "{" + CanonicalMembers(j, SortedKeys(fields.Keys)) + "}"
  }

  function CanonicalItems(items: seq<Json>): string {
    if items == [] then ""
    else if |items| == 1 then Canonical(items[0])
    else Canonical(items[0]) + "," + CanonicalItems(items[1..])
  }

  function CanonicalMembers(j: Json, keys: seq<string>): string
    requires j.Object? && forall i :: 0 <= i < |keys| ==> keys[i] in j.fields
    decreases j, |keys|
  {
    if keys == [] then ""
    else
      var first := Quote(keys[0]) + ":" + Canonical(j.fields[keys[0]]);
      if |keys| == 1 then first else first + "," + CanonicalMembers(j, keys[1..])
  }

  /** Which kind of value a JSON text starts. */
  ghost function StartsKind(c: char): nat {
    if c == 'n' then 0
    else if c == 't' || c == 'f' then 1
    else if c == '-' || IsDigit(c) then 2
    else if c == '\"' then 3
    else if c == '[' then 4
    else if c == '{' then 5
    else 6
  }

  ghost function Kind(j: Json): nat {
    match j
    case Null => 0
    case Bool(_) => 1
    case Number(_) => 2
    case String(_) => 3
    case Array(_) => 4
    case Object(_) => 5
  }

  lemma CanonicalStart(j: Json)
    ensures |Canonical(j)| > 0 && StartsKind(Canonical(j)[0]) == Kind(j)
  {
    hide NumeralText;
    if j.Number? {
      TextIsNumeral(j.n);
    }
  }

  lemma SameKind(a: Json, x: string, b: Json, y: string)
    requires Canonical(a) + x == Canonical(b) + y
    ensures Kind(a) == Kind(b)
  {
    CanonicalStart(a);
    CanonicalStart(b);
    assert (Canonical(a) + x)[0] == Canonical(a)[0];
    assert (Canonical(b) + y)[0] == Canonical(b)[0];
  }

  lemma CutFirst(c: string, s: string, t: string)
    requires c + s == c + t
    ensures s == t
  {
    assert s == (c + s)[|c|..] == (c + t)[|c|..] == t;
  }

  // What follows the first item or member of a list, up to and beyond its closing bracket.

  ghost function ItemsTail(s: seq<Json>, x: string): string
    requires s != []
  {
    if |s| == 1 then "]" + x else "," + (CanonicalItems(s[1..]) + "]" + x)
  }

  ghost function MembersTail(j: Json, keys: seq<string>, x: string): string
    requires keys != [] && j.Object? && forall i :: 0 <= i < |keys| ==> keys[i] in j.fields
  {
    if |keys| == 1 then "}" + x else "," + (CanonicalMembers(j, keys[1..]) + "}" + x)
  }

  lemma Regroup(c: string, separator: string, r: string, close: string, x: string)
    ensures (c + separator + r) + close + x == c + (separator + (r + close + x))
  {
  }

  lemma RegroupMember(q: string, colon: string, c: string, tail: string)
    ensures (q + colon + c) + tail == q + (colon + (c + tail))
  {
  }

  lemma FirstKept(s: string, t: string)
    requires |s| > 0
    ensures |s + t| > 0 && (s + t)[0] == s[0]
  {
  }

  lemma ItemsUnfold(s: seq<Json>, x: string)
    ensures s == [] ==> CanonicalItems(s) + "]" + x == "]" + x
    ensures s != [] ==> CanonicalItems(s) + "]" + x == Canonical(s[0]) + ItemsTail(s, x)
  {
    if s == [] {
      assert "" + "]" == "]";
    } else if |s| > 1 {
      Regroup(Canonical(s[0]), ",", CanonicalItems(s[1..]), "]", x);
    } else {
      assert Canonical(s[0]) + "]" + x == Canonical(s[0]) + ("]" + x);
    }
  }

  lemma MembersUnfold(j: Json, keys: seq<string>, x: string)
    requires j.Object? && forall i :: 0 <= i < |keys| ==> keys[i] in j.fields
    ensures keys == [] ==> CanonicalMembers(j, keys) + "}" + x == "}" + x
    ensures keys != [] ==>
      CanonicalMembers(j, keys) + "}" + x
        == Quote(keys[0]) + (":" + (Canonical(j.fields[keys[0]]) + MembersTail(j, keys, x)))
  {
    if keys == [] {
      assert "" + "}" == "}";
    } else {
      var q, c := Quote(keys[0]), Canonical(j.fields[keys[0]]);
      RegroupMember(q, ":", c, MembersTail(j, keys, x));
      if |keys| > 1 {
        Regroup(q + ":" + c, ",", CanonicalMembers(j, keys[1..]), "}", x);
      } else {
        assert (q + ":" + c) + "}" + x == (q + ":" + c) + ("}" + x);
      }
    }
  }

  lemma ItemsStart(s: seq<Json>, x: string)
    ensures |CanonicalItems(s) + "]" + x| > 0
    ensures s == [] <==> (CanonicalItems(s) + "]" + x)[0] == ']'
  {
    ItemsUnfold(s, x);
    if s != [] {
      CanonicalStart(s[0]);
      FirstKept(Canonical(s[0]), ItemsTail(s, x));
    }
  }

  lemma MembersStart(j: Json, keys: seq<string>, x: string)
    requires j.Object? && forall i :: 0 <= i < |keys| ==> keys[i] in j.fields
    ensures |CanonicalMembers(j, keys) + "}" + x| > 0
    ensures keys == [] <==> (CanonicalMembers(j, keys) + "}" + x)[0] == '}'
  {
    MembersUnfold(j, keys, x);
    if keys != [] {
      FirstKept(Quote(keys[0]), ":" + (Canonical(j.fields[keys[0]]) + MembersTail(j, keys, x)));
    }
  }

  lemma TailStart(last: bool, close: string, x: string, more: string)
    requires close == "]" || close == "}"
    ensures var tail := if last then close + x else "," + more;
      |tail| > 0 && NoNumeralFirst(tail) && (last <==> tail[0] == close[0])
  {
  }

  lemma CutWord(w: string, x: string, v: string, y: string)
    requires |w| == |v| && w + x == v + y
    ensures w == v && x == y
  {
    assert w == (w + x)[..|w|] == (v + y)[..|v|] == v;
    assert x == (w + x)[|w|..] == (v + y)[|v|..] == y;
  }

  lemma BoolSplitsUniquely(p: bool, x: string, q: bool, y: string)
    requires Canonical(Bool(p)) + x == Canonical(Bool(q)) + y
    ensures p == q && x == y
  {
    assert (Canonical(Bool(p)) + x)[0] == (if p then 't' else 'f');
    assert (Canonical(Bool(q)) + y)[0] == (if q then 't' else 'f');
    CutWord(Canonical(Bool(p)), x, Canonical(Bool(q)), y);
  }

  lemma AfterBracket(c: string, body: string, close: string, x: string)
    ensures (c + body + close) + x == c + (body + close + x)
  {
  }

  /** Canonical text can be read back without knowing where it ends. */
  lemma {:induction false} CanonicalSplitsUniquely(a: Json, x: string, b: Json, y: string)
    requires NoNumeralFirst(x) && NoNumeralFirst(y)
    requires Canonical(a) + x == Canonical(b) + y
    ensures a == b && x == y
    decreases a
  {
    SameKind(a, x, b, y);
    match a {
      case Null =>
        CutWord(Canonical(a), x, Canonical(b), y);
      case Bool(p) =>
        BoolSplitsUniquely(p, x, b.b, y);
      case Number(n) =>
        NumeralSplitsUniquely(n, x, b.n, y);
      case String(s) =>
        QuoteSplitsUniquely(s, x, b.s, y);
      case Array(items) =>
        AfterBracket("[", CanonicalItems(items), "]", x);
        AfterBracket("[", CanonicalItems(b.items), "]", y);
        CutFirst("[", CanonicalItems(items) + "]" + x, CanonicalItems(b.items) + "]" + y);
        ItemsSplitUniquely(items, x, b.items, y);
      case Object(fields) =>
        ObjectSplitsUniquely(a, x, b, y);
    }
  }

  lemma {:induction false} ObjectSplitsUniquely(a: Json, x: string, b: Json, y: string)
    requires a.Object? && b.Object?
    requires Canonical(a) + x == Canonical(b) + y
    ensures a == b && x == y
    decreases a, |a.fields.Keys| + 1
  {
    var keys, lkeys := SortedKeys(a.fields.Keys), SortedKeys(b.fields.Keys);
    AfterBracket("{", CanonicalMembers(a, keys), "}", x);
    AfterBracket("{", CanonicalMembers(b, lkeys), "}", y);
    CutFirst("{", CanonicalMembers(a, keys) + "}" + x, CanonicalMembers(b, lkeys) + "}" + y);
    SortedKeysLength(a.fields.Keys);
    MembersSplitUniquely(a, keys, x, b, lkeys, y);
    forall k ensures k in a.fields <==> k in b.fields {
      assert k in a.fields <==> k in keys;
      assert k in b.fields <==> k in lkeys;
    }
    forall k | k in a.fields ensures a.fields[k] == b.fields[k] {
      assert k in keys;
    }
    assert a.fields == b.fields;
  }

  lemma {:induction false} SortedKeysLength(ks: set<string>)
    ensures |SortedKeys(ks)| == |ks|
  {
    if ks != {} {
      var k := SortedKeys(ks)[0];
      assert SortedKeys(ks)[1..] == SortedKeys(ks - {k});
      SortedKeysLength(ks - {k});
    }
  }

  lemma HeadAndTail<T>(s: seq<T>)
    requires s != []
    ensures [s[0]] + s[1..] == s
  {
  }

  lemma {:induction false} ItemsSplitUniquely(s: seq<Json>, x: string, t: seq<Json>, y: string)
    requires CanonicalItems(s) + "]" + x == CanonicalItems(t) + "]" + y
    ensures s == t && x == y
    decreases s
  {
    hide Canonical, CanonicalItems, NoNumeralFirst;
    ItemsUnfold(s, x);
    ItemsUnfold(t, y);
    ItemsStart(s, x);
    ItemsStart(t, y);
    if s == [] {
      CutFirst("]", x, y);
    } else {
      TailStart(|s| == 1, "]", x, CanonicalItems(s[1..]) + "]" + x);
      TailStart(|t| == 1, "]", y, CanonicalItems(t[1..]) + "]" + y);
      CanonicalSplitsUniquely(s[0], ItemsTail(s, x), t[0], ItemsTail(t, y));
      if |s| == 1 {
        CutFirst("]", x, y);
      } else {
        CutFirst(",", CanonicalItems(s[1..]) + "]" + x, CanonicalItems(t[1..]) + "]" + y);
        ItemsSplitUniquely(s[1..], x, t[1..], y);
      }
      HeadAndTail(s);
      HeadAndTail(t);
    }
  }

  lemma {:induction false} MembersSplitUniquely(
    a: Json, keys: seq<string>, x: string, b: Json, lkeys: seq<string>, y: string)
    requires a.Object? && forall i :: 0 <= i < |keys| ==> keys[i] in a.fields
    requires b.Object? && forall i :: 0 <= i < |lkeys| ==> lkeys[i] in b.fields
    requires CanonicalMembers(a, keys) + "}" + x == CanonicalMembers(b, lkeys) + "}" + y
    ensures keys == lkeys && x == y
    ensures forall i :: 0 <= i < |keys| ==> a.fields[keys[i]] == b.fields[keys[i]]
    decreases a, |keys|
  {
    hide Canonical, CanonicalMembers, NoNumeralFirst, Quote;
    MembersUnfold(a, keys, x);
    MembersUnfold(b, lkeys, y);
    MembersStart(a, keys, x);
    MembersStart(b, lkeys, y);
    if keys == [] {
      CutFirst("}", x, y);
    } else {
      var v, w := a.fields[keys[0]], b.fields[lkeys[0]];
      var p, q := MembersTail(a, keys, x), MembersTail(b, lkeys, y);
      QuoteSplitsUniquely(keys[0], ":" + (Canonical(v) + p), lkeys[0], ":" + (Canonical(w) + q));
      CutFirst(":", Canonical(v) + p, Canonical(w) + q);
      TailStart(|keys| == 1, "}", x, CanonicalMembers(a, keys[1..]) + "}" + x);
      TailStart(|lkeys| == 1, "}", y, CanonicalMembers(b, lkeys[1..]) + "}" + y);
      CanonicalSplitsUniquely(v, p, w, q);
      if |keys| == 1 {
        CutFirst("}", x, y);
      } else {
        CutFirst(",", CanonicalMembers(a, keys[1..]) + "}" + x, CanonicalMembers(b, lkeys[1..]) + "}" + y);
        MembersSplitUniquely(a, keys[1..], x, b, lkeys[1..], y);
      }
      HeadAndTail(keys);
      HeadAndTail(lkeys);
    }
  }

  // ----- canonical text of a JavaScript value -----

  /** Array.prototype.sort by key; keys are distinct, so stability plays no part. */
  function SortMembers(ms: seq<Member>): (r: seq<Member>)
    ensures |r| == |ms|
  {
    if ms == [] then [] else InsertMember(ms[0], SortMembers(ms[1..]))
  }

  function InsertMember(m: Member, ms: seq<Member>): (r: seq<Member>)
    ensures |r| == |ms| + 1
  {
    if ms == [] || Less(m.key, ms[0].key) then [m] + ms else [ms[0]] + InsertMember(m, ms[1..])
  }

  function Nesting(src: Source): nat {
    match src
    case ArraySource(es) => 1 + DeepestElement(es)
    case ObjectSource(ms) => 1 + DeepestMember(ms)
    case _ => 0
  }

  function DeepestElement(es: seq<Source>): nat {
    if es == [] then 0
    else
      var first, rest := Nesting(es[0]), DeepestElement(es[1..]);
      if first > rest then first else rest
  }

  function DeepestMember(ms: seq<Member>): nat {
    if ms == [] then 0
    else
      var first, rest := Nesting(ms[0].value), DeepestMember(ms[1..]);
      if first > rest then first else rest
  }

  lemma {:induction false} InsertKeepsDeepest(m: Member, ms: seq<Member>)
    ensures DeepestMember(InsertMember(m, ms)) == DeepestMember([m] + ms)
  {
    if ms != [] && !Less(m.key, ms[0].key) {
      InsertKeepsDeepest(m, ms[1..]);
      var r := InsertMember(m, ms);
      assert r[1..] == InsertMember(m, ms[1..]);
      assert ([m] + ms)[1..] == ms && ([m] + ms[1..])[1..] == ms[1..];
    }
  }

  lemma {:induction false} SortKeepsDeepest(ms: seq<Member>)
    ensures DeepestMember(SortMembers(ms)) == DeepestMember(ms)
  {
    if ms != [] {
      SortKeepsDeepest(ms[1..]);
      InsertKeepsDeepest(ms[0], SortMembers(ms[1..]));
      assert ([ms[0]] + SortMembers(ms[1..]))[1..] == SortMembers(ms[1..]);
    }
  }

  /** The text that canonicalJson computes. */
  function CanonicalText(src: Source): string
    decreases Nesting(src), 1, 0
  {
    match src
    case NullSource => "null"
    case BoolSource(b) => if b then "true" else "false"
    case NumberSource(n) => NumeralText(n)
    case StringSource(s) => Quote(s)
    case ArraySource(es) => "[" + ElementsText(es) + "]"
    case ObjectSource(ms) =>
      SortKeepsDeepest(ms);
      "{" + MembersText(SortMembers(ms)) + "}"
  }

  function ElementsText(es: seq<Source>): string
    decreases DeepestElement(es), 2, |es|
  {
    if es == [] then ""
    else if |es| == 1 then CanonicalText(es[0])
    else CanonicalText(es[0]) + "," + ElementsText(es[1..])
  }

  function MembersText(ms: seq<Member>): string
    decreases DeepestMember(ms), 2, |ms|
  {
    if ms == [] then ""
    else
      var first := Quote(ms[0].key) + ":" + CanonicalText(ms[0].value);
      if |ms| == 1 then first else first + "," + MembersText(ms[1..])
  }

  ghost predicate KeysAscend(ms: seq<Member>) {
    forall i, j :: 0 <= i < j < |ms| ==> Less(ms[i].key, ms[j].key)
  }

  lemma {:induction false} InsertKeepsMembers(m: Member, ms: seq<Member>)
    ensures multiset(InsertMember(m, ms)) == multiset(ms) + multiset{m}
  {
    hide Less;
    if ms != [] {
      HeadAndTail(ms);
      InsertKeepsMembers(m, ms[1..]);
    }
  }

  lemma AscendFrom(m: Member, ms: seq<Member>)
    requires KeysAscend(ms) && forall j :: 0 <= j < |ms| ==> Less(m.key, ms[j].key)
    ensures KeysAscend([m] + ms)
  {
    hide Less;
  }

  lemma {:induction false} InsertSorts(m: Member, ms: seq<Member>)
    requires KeysAscend(ms) && forall i :: 0 <= i < |ms| ==> ms[i].key != m.key
    ensures KeysAscend(InsertMember(m, ms))
    ensures multiset(InsertMember(m, ms)) == multiset(ms) + multiset{m}
  {
    hide Less;
    InsertKeepsMembers(m, ms);
    if ms == [] {
    } else if Less(m.key, ms[0].key) {
      forall j | 0 <= j < |ms| ensures Less(m.key, ms[j].key) {
        if j > 0 {
          LessIsTransitive(m.key, ms[0].key, ms[j].key);
        }
      }
      AscendFrom(m, ms);
    } else {
      LessIsTotal(m.key, ms[0].key);
      InsertSorts(m, ms[1..]);
      var r := InsertMember(m, ms[1..]);
      forall j | 0 <= j < |r| ensures Less(ms[0].key, r[j].key) {
        assert r[j] in multiset(r);
        assert r[j] in ms[1..] || r[j] == m;
      }
      AscendFrom(ms[0], r);
    }
  }

  lemma {:induction false} SortSorts(ms: seq<Member>)
    requires DistinctKeys(ms)
    ensures KeysAscend(SortMembers(ms))
    ensures multiset(SortMembers(ms)) == multiset(ms)
  {
    if ms != [] {
      assert ms == [ms[0]] + ms[1..];
      SortSorts(ms[1..]);
      var r := SortMembers(ms[1..]);
      forall i | 0 <= i < |r| ensures r[i].key != ms[0].key {
        assert r[i] in multiset(r);
        assert r[i] in ms[1..];
      }
      InsertSorts(ms[0], r);
    }
  }

  ghost predicate HoldsMember(ms: seq<Member>, k: string) {
    exists i :: 0 <= i < |ms| && ms[i].key == k
  }

  lemma HoldsNext(ms: seq<Member>, k: string)
    requires ms != []
    ensures HoldsMember(ms, k) <==> ms[0].key == k || HoldsMember(ms[1..], k)
  {
    if HoldsMember(ms, k) {
      var i :| 0 <= i < |ms| && ms[i].key == k;
      assert i > 0 ==> ms[1..][i - 1].key == k;
    }
    if HoldsMember(ms[1..], k) {
      var i :| 0 <= i < |ms[1..]| && ms[1..][i].key == k;
      assert ms[i + 1].key == k;
    }
  }

  lemma {:induction false} FieldKeys(ms: seq<Member>)
    ensures forall k :: k in Fields(ms) <==> HoldsMember(ms, k)
  {
    hide HoldsMember, Value;
    if ms == [] {
      forall k ensures !HoldsMember(ms, k) {
        HoldsNone(k);
      }
    } else {
      FieldKeys(ms[1..]);
      forall k ensures k in Fields(ms) <==> HoldsMember(ms, k) {
        HoldsNext(ms, k);
      }
    }
  }

  lemma HoldsNone(k: string)
    ensures !HoldsMember([], k)
  {
  }

  lemma {:induction false} FieldsOf(ms: seq<Member>)
    requires DistinctKeys(ms)
    ensures forall k :: k in Fields(ms) <==> HoldsMember(ms, k)
    ensures forall i :: 0 <= i < |ms| ==> ms[i].key in Fields(ms) && Fields(ms)[ms[i].key] == Value(ms[i].value)
  {
    hide Value;
    FieldKeys(ms);
    if ms != [] {
      FieldsOf(ms[1..]);
      assert forall i :: 0 < i < |ms| ==> ms[1..][i - 1] == ms[i];
      assert ms[0].key !in Fields(ms[1..]);
    }
  }

  lemma MemberInBoth(ms: seq<Member>, r: seq<Member>, k: string)
    requires DistinctKeys(ms) && DistinctKeys(r)
    requires forall i :: 0 <= i < |ms| ==> ms[i] in r
    requires k in Fields(ms)
    ensures k in Fields(r) && Fields(ms)[k] == Fields(r)[k]
  {
    FieldsOf(ms);
    var i :| 0 <= i < |ms| && ms[i].key == k;
    assert ms[i] in r;
    FieldsOf(r);
    var j :| 0 <= j < |r| && r[j] == ms[i];
  }

  lemma SameMembersSameFields(ms: seq<Member>, r: seq<Member>)
    requires DistinctKeys(ms) && DistinctKeys(r) && multiset(ms) == multiset(r)
    ensures Fields(ms) == Fields(r)
  {
    SameMembership(ms, r);
    forall k | k in Fields(ms) ensures k in Fields(r) && Fields(ms)[k] == Fields(r)[k] {
      MemberInBoth(ms, r, k);
    }
    forall k | k in Fields(r) ensures k in Fields(ms) {
      SameMembership(r, ms);
      MemberInBoth(r, ms, k);
    }
  }

  lemma SameMembership<T>(s: seq<T>, t: seq<T>)
    requires multiset(s) == multiset(t)
    ensures forall i :: 0 <= i < |s| ==> s[i] in t
  {
    forall i | 0 <= i < |s| ensures s[i] in t {
      assert s[i] in multiset(s);
    }
  }

  ghost function KeysOf(ms: seq<Member>): seq<string> {
    seq(|ms|, i requires 0 <= i < |ms| => ms[i].key)
  }

  lemma AscendingAreDistinct(r: seq<Member>)
    requires KeysAscend(r)
    ensures DistinctKeys(r)
  {
    forall i, j | 0 <= i < j < |r| ensures r[i].key != r[j].key {
      LessIsStrict(r[i].key, r[j].key);
    }
  }

  lemma KeysAreSorted(r: seq<Member>, ks: set<string>)
    requires KeysAscend(r) && forall k :: k in ks <==> HoldsMember(r, k)
    ensures SortedKeysOf(KeysOf(r), ks)
  {
    hide Less;
    var keys := KeysOf(r);
    forall k | k in ks ensures k in keys {
      var i :| 0 <= i < |r| && r[i].key == k;
      assert keys[i] == k;
    }
    forall i | 0 <= i < |keys| ensures keys[i] in ks {
      assert r[i].key == keys[i];
      assert HoldsMember(r, keys[i]);
    }
  }

  lemma AscendingKeys(r: seq<Member>)
    requires KeysAscend(r)
    ensures DistinctKeys(r) && KeysOf(r) == SortedKeys(Fields(r).Keys)
  {
    hide Less, Fields, KeysAscend, DistinctKeys, KeysOf, SortedKeysOf, HoldsMember;
    AscendingAreDistinct(r);
    FieldKeys(r);
    KeysAreSorted(r, Fields(r).Keys);
    SortedKeysAreUnique(KeysOf(r), SortedKeys(Fields(r).Keys), Fields(r).Keys);
  }

  ghost predicate ProperMembers(ms: seq<Member>) {
    forall i :: 0 <= i < |ms| ==> Proper(ms[i].value)
  }

  lemma SortedMembers(ms: seq<Member>)
    requires DistinctKeys(ms)
    ensures var r := SortMembers(ms);
      && DistinctKeys(r) && Fields(r) == Fields(ms)
      && KeysOf(r) == SortedKeys(Fields(ms).Keys)
      && (ProperMembers(ms) ==> ProperMembers(r))
  {
    var r := SortMembers(ms);
    SortSorts(ms);
    AscendingKeys(r);
    SameMembersSameFields(ms, r);
    SameMembership(r, ms);
    if ProperMembers(ms) {
      forall i | 0 <= i < |r| ensures Proper(r[i].value) {
        var j :| 0 <= j < |ms| && ms[j] == r[i];
      }
    }
  }

  /** Sorting the entries of an object and printing them gives the text of its value. */
  lemma {:induction false} CanonicalTextOfValue(src: Source)
    requires Proper(src)
    ensures CanonicalText(src) == Canonical(Value(src))
    decreases Nesting(src), 1, 0
  {
    match src {
      case ArraySource(es) =>
        ElementsTextOfValues(es);
      case ObjectSource(ms) =>
        ObjectTextOfValue(src);
      case _ =>
    }
  }

  lemma CanonicalObject(ms: seq<Member>)
    requires DistinctKeys(ms) && ProperMembers(ms)
    ensures var r, v := SortMembers(ms), Object(Fields(ms));
      && ProperMembers(r)
      && (forall i :: 0 <= i < |r| ==> r[i].key in v.fields && v.fields[r[i].key] == Value(r[i].value))
      && KeysOf(r) == SortedKeys(v.fields.Keys)
  {
    SortedMembers(ms);
    FieldsOf(SortMembers(ms));
  }

  lemma ObjectTextsAgree(src: Source, v: Json, keys: seq<string>)
    requires src.ObjectSource? && v == Object(Fields(src.members)) && keys == SortedKeys(v.fields.Keys)
    requires MembersText(SortMembers(src.members)) == CanonicalMembers(v, keys)
    ensures CanonicalText(src) == Canonical(Value(src))
  {
  }

  lemma {:induction false} ObjectTextOfValue(src: Source)
    requires src.ObjectSource? && Proper(src)
    ensures CanonicalText(src) == Canonical(Value(src))
    decreases Nesting(src), 0, 0
  {
    var ms := src.members;
    var r, v := SortMembers(ms), Object(Fields(ms));
    CanonicalObject(ms);
    SortKeepsDeepest(ms);
    MembersTextOfValues(v, r);
    ObjectTextsAgree(src, v, KeysOf(r));
  }

  lemma {:induction false} ElementsTextOfValues(es: seq<Source>)
    requires forall i :: 0 <= i < |es| ==> Proper(es[i])
    ensures ElementsText(es) == CanonicalItems(seq(|es|, i requires 0 <= i < |es| => Value(es[i])))
    decreases DeepestElement(es), 2, |es|
  {
    if es != [] {
      CanonicalTextOfValue(es[0]);
      if |es| > 1 {
        ElementsTextOfValues(es[1..]);
        var vs := seq(|es|, i requires 0 <= i < |es| => Value(es[i]));
        assert vs[1..] == seq(|es[1..]|, i requires 0 <= i < |es[1..]| => Value(es[1..][i]));
      }
    }
  }

  lemma {:induction false} MembersTextOfValues(v: Json, ms: seq<Member>)
    requires ProperMembers(ms)
    requires v.Object?
    requires forall i :: 0 <= i < |ms| ==> ms[i].key in v.fields && v.fields[ms[i].key] == Value(ms[i].value)
    ensures MembersText(ms) == CanonicalMembers(v, KeysOf(ms))
    decreases DeepestMember(ms), 2, |ms|
  {
    hide Quote, Value, CanonicalText, Canonical;
    if ms != [] {
      CanonicalTextOfValue(ms[0].value);
      if |ms| > 1 {
        MembersTextOfValues(v, ms[1..]);
        assert KeysOf(ms)[1..] == KeysOf(ms[1..]);
      }
    }
  }

  /** Two JavaScript values have the same canonical text exactly when they are the same value up
      to the order of object keys at every depth. */
  lemma CanonicalTextIdentifiesValues(a: Source, b: Source)
    requires Proper(a) && Proper(b)
    ensures CanonicalText(a) == CanonicalText(b) <==> Value(a) == Value(b)
  {
    CanonicalTextOfValue(a);
    CanonicalTextOfValue(b);
    if CanonicalText(a) == CanonicalText(b) {
      CanonicalSplitsUniquely(Value(a), "", Value(b), "");
    }
  }
}
