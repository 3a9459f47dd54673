/** The content of an assistant message while it streams in: what each block is charged for, and
    how the events bracket it. */
module ContentBudget {
  import opened Options
  import opened JsonLines
  import opened CanonicalJson
  import opened OrderedMap

  const MAX_FIELD_BYTES: nat := 4 * 1024 * 1024
  const MAX_CONTENT_BYTES: nat := 8 * 1024 * 1024
  const MAX_BLOCKS: nat := 1024
  const EMPTY_TOOL_ARGUMENT_BYTES: nat := 2

  /** Arguments as they are kept: a detached JSON object and the bytes of its JSON text. */
  datatype Canonical = Canonical(value: Json, bytes: nat)

  /** A tool call has its arguments once it is finished. */
  datatype Block =
    | TextBlock(text: string)
    | ThinkingBlock(thinking: string, signature: string)
    | ToolBlock(id: string, name: string, arguments: Option<Canonical>)

  datatype State = State(
    content: seq<Block>, args: Pairs<string>, argumentBytes: Pairs<nat>, fieldBytes: Pairs<nat>,
    signatureBytes: Pairs<nat>, open: Pairs<()>, contentBytes: int)

  // ----- charges -----

  function OrZero(n: Option<nat>): nat {
    if n.Some? then n.value else 0
  }

  function Larger(a: nat, b: nat): nat {
    if a >= b then a else b
  }

  function Charge(b: Block, raw: Option<string>): nat {
    match b
    case TextBlock(text) => Bytes(text)
    case ThinkingBlock(thinking, signature) => Bytes(thinking) + Bytes(signature)
    case ToolBlock(_, _, arguments) =>
      if arguments.Some? then arguments.value.bytes
      else Larger(if raw.Some? then Bytes(raw.value) else 0, EMPTY_TOOL_ARGUMENT_BYTES)
  }

  function Total(content: seq<Block>, args: Pairs<string>): nat {
    if content == [] then 0
    else
      Total(content[..|content| - 1], args) + Charge(content[|content| - 1], Find(args, |content| - 1))
  }

  /** What the bookkeeping says about one block. */
  ghost predicate BlockOk(
    b: Block, raw: Option<string>, argumentBytes: Option<nat>, field: Option<nat>, signature: Option<nat>, isOpen: bool)
  {
    match b
    case TextBlock(text) =>
      && raw.None? && argumentBytes.None? && signature.None?
      && OrZero(field) == Bytes(text) <= MAX_FIELD_BYTES
    case ThinkingBlock(thinking, text) =>
      && raw.None? && argumentBytes.None?
      && OrZero(field) == Bytes(thinking) <= MAX_FIELD_BYTES
      && OrZero(signature) == Bytes(text) <= MAX_FIELD_BYTES
    case ToolBlock(_, _, arguments) =>
      && field.None? && signature.None?
      && (isOpen <==> raw.Some?) && (isOpen <==> arguments.None?) && (isOpen <==> argumentBytes.Some?)
      && (isOpen ==> argumentBytes.value == Bytes(raw.value) <= MAX_FIELD_BYTES)
      && (arguments.Some? ==> arguments.value.bytes <= MAX_FIELD_BYTES)
  }

  ghost predicate OkAt(s: State, i: nat)
    requires i < |s.content|
  {
    BlockOk(s.content[i], Find(s.args, i), Find(s.argumentBytes, i), Find(s.fieldBytes, i), Find(s.signatureBytes, i),
      Find(s.open, i).Some?)
  }

  ghost predicate KeysIn<T(!new)>(m: Pairs<T>, n: nat) {
    KeysDiffer(m) && forall x: int :: Find(m, x).Some? ==> 0 <= x < n
  }

  ghost predicate AllKeysIn(s: State) {
    && KeysIn(s.args, |s.content|) && KeysIn(s.argumentBytes, |s.content|) && KeysIn(s.fieldBytes, |s.content|)
    && KeysIn(s.signatureBytes, |s.content|) && KeysIn(s.open, |s.content|)
  }

  /** Every block is charged what it holds, and all of them together stay within the limits. */
  ghost predicate Accounted(s: State) {
    && |s.content| <= MAX_BLOCKS && AllKeysIn(s)
    && (forall i :: 0 <= i < |s.content| ==> OkAt(s, i))
    && s.contentBytes == Total(s.content, s.args) <= MAX_CONTENT_BYTES
  }

  ghost predicate AllAscending(s: State) {
    && Ascending(s.args) && Ascending(s.argumentBytes) && Ascending(s.fieldBytes)
    && Ascending(s.signatureBytes) && Ascending(s.open)
  }

  ghost predicate AllInOrder(s: State, k: nat) {
    && InOrder(Delete(s.args, k), k) && InOrder(Delete(s.argumentBytes, k), k) && InOrder(Delete(s.fieldBytes, k), k)
    && InOrder(Delete(s.signatureBytes, k), k) && InOrder(Delete(s.open, k), k)
  }

  // ----- how totals change -----

  lemma {:induction false} TotalAlike(a: seq<Block>, x: Pairs<string>, b: seq<Block>, y: Pairs<string>)
    requires |a| == |b|
    requires forall i :: 0 <= i < |a| ==> Charge(a[i], Find(x, i)) == Charge(b[i], Find(y, i))
    ensures Total(a, x) == Total(b, y)
  {
    hide Charge, Find;
    if a != [] {
      var n := |a| - 1;
      assert Charge(a[n], Find(x, n)) == Charge(b[n], Find(y, n));
      TotalAlike(a[..n], x, b[..n], y);
    }
  }

  /** Two contents that differ in one block at most. */
  lemma {:induction false} TotalChanges(a: seq<Block>, x: Pairs<string>, b: seq<Block>, y: Pairs<string>, k: nat)
    requires |a| == |b| && k < |a|
    requires forall i :: 0 <= i < |a| && i != k ==> Charge(a[i], Find(x, i)) == Charge(b[i], Find(y, i))
    ensures Total(b, y) == Total(a, x) - Charge(a[k], Find(x, k)) + Charge(b[k], Find(y, k))
  {
    hide Charge, Find;
    var n := |a| - 1;
    if k == n {
      TotalAlike(a[..n], x, b[..n], y);
    } else {
      assert Charge(a[n], Find(x, n)) == Charge(b[n], Find(y, n));
      TotalChanges(a[..n], x, b[..n], y, k);
    }
  }

  lemma TotalGrows(content: seq<Block>, args: Pairs<string>, b: Block, more: Pairs<string>)
    requires forall i :: 0 <= i < |content| ==> Charge(content[i], Find(args, i)) == Charge(content[i], Find(more, i))
    ensures Total(content + [b], more) == Total(content, args) + Charge(b, Find(more, |content|))
  {
    hide Charge, Find;
    assert (content + [b])[..|content|] == content;
    TotalAlike(content, args, content, more);
  }

  function Without(content: seq<Block>, k: nat): seq<Block>
    requires k < |content|
  {
    content[..k] + content[k + 1..]
  }

  lemma WithoutLast(content: seq<Block>, k: nat)
    requires k + 1 < |content|
    ensures var n := |content| - 1;
      && Without(content, k)[..n - 1] == Without(content[..n], k) && Without(content, k)[n - 1] == content[n]
  {
  }

  /** Removing a block removes its charge. */
  lemma {:induction false} TotalShrinks(content: seq<Block>, args: Pairs<string>, k: nat, moved: Pairs<string>)
    requires k < |content| && MovedDown(args, moved, k)
    ensures Total(Without(content, k), moved) == Total(content, args) - Charge(content[k], Find(args, k))
    decreases |content|
  {
    hide Charge, Find, Total, MovedDown;
    var n := |content| - 1;
    TotalUnfolds(content, args);
    if k == n {
      assert Without(content, k) == content[..n];
      forall i | 0 <= i < n ensures Charge(content[..n][i], Find(moved, i)) == Charge(content[..n][i], Find(args, i)) {
        FindMoved(args, moved, k, i);
      }
      TotalAlike(content[..n], moved, content[..n], args);
    } else {
      WithoutLast(content, k);
      assert content[..n][k] == content[k];
      TotalShrinks(content[..n], args, k, moved);
      FindMoved(args, moved, k, n - 1);
      TotalUnfolds(Without(content, k), moved);
    }
  }

  lemma TotalUnfolds(content: seq<Block>, args: Pairs<string>)
    requires content != []
    ensures Total(content, args)
      == Total(content[..|content| - 1], args) + Charge(content[|content| - 1], Find(args, |content| - 1))
  {
    hide Charge, Find;
  }

  lemma FindMoved<T(!new)>(m: Pairs<T>, r: Pairs<T>, k: nat, x: int)
    requires MovedDown(m, r, k)
    ensures Find(r, x) == Find(m, if x < k then x else x + 1)
  {
    hide Find;
  }

  lemma {:induction false} ChargeInTotal(content: seq<Block>, args: Pairs<string>, k: nat)
    requires k < |content|
    ensures Charge(content[k], Find(args, k)) <= Total(content, args)
  {
    if k < |content| - 1 {
      ChargeInTotal(content[..|content| - 1], args, k);
    }
  }

  // ----- keys -----

  lemma PutKeyIn<T(!new)>(m: Pairs<T>, k: nat, v: T, n: nat)
    requires KeysIn(m, n) && k < n
    ensures KeysIn(Put(m, k, v), n)
  {
    PutIsDistinct(m, k, v);
    forall x: int | Find(Put(m, k, v), x).Some? ensures 0 <= x < n {
      FindPut(m, k, v, x);
    }
  }

  lemma DeleteKeyIn<T(!new)>(m: Pairs<T>, k: nat, n: nat)
    requires KeysIn(m, n)
    ensures KeysIn(Delete(m, k), n)
  {
    DeleteIsDistinct(m, k);
    forall x: int | Find(Delete(m, k), x).Some? ensures 0 <= x < n {
      FindDelete(m, k, x);
    }
  }

  lemma MoreKeysIn<T(!new)>(m: Pairs<T>, n: nat, k: nat)
    requires KeysIn(m, n) && n <= k
    ensures KeysIn(m, k)
  {
  }

  function Removed<T>(m: Pairs<T>, k: nat): Pairs<T> {
    Renumbered(Delete(m, k), k, |Delete(m, k)|)
  }

  lemma RemovedKeysIn<T(!new)>(m: Pairs<T>, k: nat, n: nat)
    requires KeysIn(m, n) && k < n && InOrder(Delete(m, k), k)
    ensures KeysIn(Removed(m, k), n - 1) && MovedDown(m, Removed(m, k), k)
  {
    RenumberingIsExact(m, k);
    DeleteIsDistinct(m, k);
    RenumberedDistinct(Delete(m, k), k, |Delete(m, k)|);
    var r := Removed(m, k);
    forall x: int | Find(r, x).Some? ensures 0 <= x < n - 1 {
      assert Find(r, x) == Find(m, KeyBefore(x, k));
    }
  }

  lemma RemovedAscending<T(!new)>(m: Pairs<T>, k: nat)
    requires Ascending(m)
    ensures Ascending(Removed(m, k)) && InOrder(Delete(m, k), k)
  {
    DeleteAscending(m, k);
    AscendingInOrder(Delete(m, k), k);
    AscendingIsDistinct(m);
    FindDelete(m, k, k);
    RenumberKeepsAscending(Delete(m, k), k);
  }

  lemma DeleteAscending<T(!new)>(m: Pairs<T>, k: nat)
    requires Ascending(m)
    ensures Ascending(Delete(m, k))
  {
    DeleteKeepsAscending(m, k, -1);
  }

  lemma PutAscending<T(!new)>(m: Pairs<T>, k: nat, v: T)
    requires Ascending(m) && (Find(m, k).Some? || KeysIn(m, k))
    ensures Ascending(Put(m, k, v))
  {
    if Find(m, k).None? {
      forall i | 0 <= i < |m| ensures m[i].key < k {
        FindIs(m, m[i].key);
      }
    }
    PutKeepsAscending(m, k, v, -1);
  }

  // ----- what the operations do to the accounts -----

  /** The bookkeeping of other blocks is untouched. */
  ghost predicate SameBut(s: State, t: State, k: nat) {
    && (forall i :: 0 <= i < |s.content| && i != k ==> i < |t.content| && t.content[i] == s.content[i])
    && (forall i: int :: i != k ==>
          && Find(t.args, i) == Find(s.args, i) && Find(t.argumentBytes, i) == Find(s.argumentBytes, i)
          && Find(t.fieldBytes, i) == Find(s.fieldBytes, i) && Find(t.signatureBytes, i) == Find(s.signatureBytes, i)
          && Find(t.open, i) == Find(s.open, i))
  }

  /** One block changed, or was added at the end, and the total with it. */
  lemma OneBlockChanged(s: State, t: State, k: nat)
    requires Accounted(s) && k <= |s.content| && |t.content| == (if k < |s.content| then |s.content| else k + 1)
    requires SameBut(s, t, k) && AllKeysIn(t) && OkAt(t, k) && |t.content| <= MAX_BLOCKS
    requires var was := if k < |s.content| then Charge(s.content[k], Find(s.args, k)) else 0;
      t.contentBytes == s.contentBytes - was + Charge(t.content[k], Find(t.args, k)) <= MAX_CONTENT_BYTES
    ensures Accounted(t)
  {
    hide Charge, Find, Total, BlockOk, KeysIn;
    forall i | 0 <= i < |t.content| ensures OkAt(t, i) {
      if i != k {
        assert OkAt(s, i);
      }
    }
    if k < |s.content| {
      TotalChanges(s.content, s.args, t.content, t.args, k);
    } else {
      assert t.content[..k] == s.content;
      assert t.content == s.content + [t.content[k]];
      TotalGrows(s.content, s.args, t.content[k], t.args);
    }
  }

  /** Empty text blocks that fill a gap cost nothing. */
  lemma {:induction false} GapFilled(s: State, t: State, target: nat)
    requires Accounted(s) && |s.content| <= target < MAX_BLOCKS
    requires t == s.(content := s.content + seq(target - |s.content|, i => TextBlock("")))
    ensures Accounted(t)
    decreases target - |s.content|
  {
    if |s.content| < target {
      var u := s.(content := s.content + [TextBlock("")]);
      EmptyBlockAdded(s, u);
      var rest := seq(target - |u.content|, i => TextBlock(""));
      assert seq(target - |s.content|, i => TextBlock("")) == [TextBlock("")] + rest;
      assert s.content + ([TextBlock("")] + rest) == u.content + rest;
      GapFilled(u, t, target);
    } else {
      assert t.content == s.content;
    }
  }

  lemma EmptyBlockAdded(s: State, u: State)
    requires Accounted(s) && |s.content| < MAX_BLOCKS && u == s.(content := s.content + [TextBlock("")])
    ensures Accounted(u)
  {
    var n := |s.content|;
    assert Bytes("") == 0;
    hide Find, Total, Bytes;
    AllKeysInMore(s, u);
    OneBlockChanged(s, u, n);
  }

  lemma AllKeysInMore(s: State, u: State)
    requires AllKeysIn(s) && u == s.(content := u.content) && |u.content| >= |s.content|
    ensures AllKeysIn(u) && forall i: int :: i >= |s.content| ==>
      Find(s.args, i).None? && Find(s.argumentBytes, i).None? && Find(s.fieldBytes, i).None?
      && Find(s.signatureBytes, i).None? && Find(s.open, i).None?
  {
    hide Find;
    MoreKeysIn(s.args, |s.content|, |u.content|);
    MoreKeysIn(s.argumentBytes, |s.content|, |u.content|);
    MoreKeysIn(s.fieldBytes, |s.content|, |u.content|);
    MoreKeysIn(s.signatureBytes, |s.content|, |u.content|);
    MoreKeysIn(s.open, |s.content|, |u.content|);
  }

  // ----- discarding a tool -----

  function Discarded(s: State, k: nat, retained: int): State
    requires k < |s.content|
  {
    State(Without(s.content, k), Removed(s.args, k), Removed(s.argumentBytes, k), Removed(s.fieldBytes, k),
          Removed(s.signatureBytes, k), Removed(s.open, k), retained)
  }

  /** Discarding keeps the accounts when all keys above the block are in order. */
  lemma DiscardKeepsAccounts(s: State, k: nat)
    requires Accounted(s) && k < |s.content| && AllInOrder(s, k)
    ensures Accounted(Discarded(s, k, s.contentBytes - Charge(s.content[k], Find(s.args, k))))
  {
    hide Charge, Find, Total, BlockOk, KeysIn, Removed, InOrder, MovedDown;
    var n := |s.content|;
    RemovedKeysIn(s.args, k, n);
    RemovedKeysIn(s.argumentBytes, k, n);
    RemovedKeysIn(s.fieldBytes, k, n);
    RemovedKeysIn(s.signatureBytes, k, n);
    RemovedKeysIn(s.open, k, n);
    var t := Discarded(s, k, s.contentBytes - Charge(s.content[k], Find(s.args, k)));
    TotalShrinks(s.content, s.args, k, t.args);
    forall i | 0 <= i < |t.content| ensures OkAt(t, i) {
      var j := if i < k then i else i + 1;
      assert t.content[i] == s.content[j] && OkAt(s, j);
      FindMoved(s.args, t.args, k, i);
      FindMoved(s.argumentBytes, t.argumentBytes, k, i);
      FindMoved(s.fieldBytes, t.fieldBytes, k, i);
      FindMoved(s.signatureBytes, t.signatureBytes, k, i);
      FindMoved(s.open, t.open, k, i);
    }
  }

  lemma DiscardKeepsAscending(s: State, k: nat, retained: int)
    requires AllAscending(s) && k < |s.content|
    ensures AllAscending(Discarded(s, k, retained)) && AllInOrder(s, k)
  {
    hide Ascending, Removed, InOrder, Delete;
    RemovedAscending(s.args, k);
    RemovedAscending(s.argumentBytes, k);
    RemovedAscending(s.fieldBytes, k);
    RemovedAscending(s.signatureBytes, k);
    RemovedAscending(s.open, k);
  }

  /** All five maps move down together exactly when all their keys are in order. */
  lemma DiscardIsExact(s: State, k: nat)
    requires AllKeysIn(s)
    ensures AllInOrder(s, k) <==>
      && MovedDown(s.args, Removed(s.args, k), k) && MovedDown(s.argumentBytes, Removed(s.argumentBytes, k), k)
      && MovedDown(s.fieldBytes, Removed(s.fieldBytes, k), k)
      && MovedDown(s.signatureBytes, Removed(s.signatureBytes, k), k) && MovedDown(s.open, Removed(s.open, k), k)
  {
    hide KeysDiffer, Renumbered, Delete, Find, MovedDown, InOrder;
    RenumberingIsExact(s.args, k);
    RenumberingIsExact(s.argumentBytes, k);
    RenumberingIsExact(s.fieldBytes, k);
    RenumberingIsExact(s.signatureBytes, k);
    RenumberingIsExact(s.open, k);
  }

  // ----- tools opened backwards -----

  function ThreePairs<T>(x: T, y: T, z: T): Pairs<T> {
    [Pair(2, x), Pair(1, y), Pair(0, z)]
  }

  /** Three tools opened at indexes 2, 1 and 0, in this order; the first one has some arguments. */
  function Backwards(id: string, name: string, raw: string): State {
    var tool := ToolBlock(id, name, None);
    State([tool, tool, tool], ThreePairs(raw, "", ""), ThreePairs<nat>(Bytes(raw), 0, 0), [], [],
          ThreePairs((), (), ()),
          Larger(Bytes(raw), EMPTY_TOOL_ARGUMENT_BYTES) + 2 * EMPTY_TOOL_ARGUMENT_BYTES)
  }

  lemma ThreeTails<T(!new)>(x: T, y: T, z: T)
    ensures ThreePairs(x, y, z)[1..] == [Pair(1, y), Pair(0, z)] && [Pair(1, y), Pair(0, z)][1..] == [Pair(0, z)]
    ensures [Pair(0, z)][1..] == []
  {
  }

  lemma ThreeFound<T(!new)>(x: T, y: T, z: T)
    ensures var m := ThreePairs(x, y, z);
      KeysIn(m, 3) && Find(m, 0) == Some(z) && Find(m, 1) == Some(y) && Find(m, 2) == Some(x)
  {
    var m := ThreePairs(x, y, z);
    ThreeTails(x, y, z);
    assert Find(m[1..][1..], 0) == Some(z) && Find(m[1..], 1) == Some(y) && Find(m[1..], 0) == Some(z);
    assert Find<T>([], 0).None? && KeysDiffer(m[1..][1..]);
    FindIs(m[1..][1..], 1);
    assert KeysDiffer(m[1..]);
    FindIs(m[1..], 2);
    forall k: int | Find(m, k).Some? ensures 0 <= k < 3 {
      FindIs(m, k);
    }
  }

  /** The second value lands where the first one has just been put, and takes it along. */
  lemma ThreeRemoved<T(!new)>(x: T, y: T, z: T)
    ensures Delete(ThreePairs(x, y, z), 0) == [Pair(2, x), Pair(1, y)]
    ensures Removed(ThreePairs(x, y, z), 0) == [Pair(0, y)]
  {
    var m := [Pair(2, x), Pair(1, y)];
    ThreeTails(x, y, z);
    assert Delete([Pair(0, z)], 0) == [] && Delete([Pair(1, y), Pair(0, z)], 0) == [Pair(1, y)] + [];
    assert Delete(ThreePairs(x, y, z), 0) == [Pair(2, x)] + [Pair(1, y)] == m;
    TwoRenumbered(x, y);
  }

  lemma TwoRenumbered<T(!new)>(x: T, y: T)
    ensures Renumbered([Pair(2, x), Pair(1, y)], 0, 2) == [Pair(0, y)]
  {
    var m: Pairs<T> := [Pair(2, x), Pair(1, y)];
    assert m[1..] == [Pair(1, y)] && [Pair(1, x)][1..] == [] && [Pair(1, y)][1..] == [];
    assert Put<T>([], 0, y) == [Pair(0, y)];
    assert Renumber([Pair(1, x)], Pair(1, y), 0) == [Pair(0, y)];
    assert [Pair(1, x)] + [] == [Pair(1, x)];
    assert Renumber(m, Pair(2, x), 0) == [Pair(1, x)];
    assert Renumbered(m, 0, 0) == m;
    assert Renumbered(m, 0, 1) == [Pair(1, x)];
  }

  lemma NoKeysIn<T(!new)>(m: Pairs<T>, n: nat)
    requires m == []
    ensures KeysIn(m, n) && forall x: int :: Find(m, x) == None
  {
  }

  lemma ThreeTotal(a: Block, b: Block, c: Block, args: Pairs<string>)
    ensures Total([a, b, c], args) == Charge(a, Find(args, 0)) + Charge(b, Find(args, 1)) + Charge(c, Find(args, 2))
    ensures Total([a, b], args) == Charge(a, Find(args, 0)) + Charge(b, Find(args, 1))
  {
    hide Charge, Find;
    assert [a, b, c][..2] == [a, b] && [a, b][..1] == [a] && [a][..0] == [];
    assert Total([a], args) == Charge(a, Find(args, 0));
    assert Total([a, b], args) == Total([a], args) + Charge(b, Find(args, 1));
  }

  lemma BackwardsIsAccounted(id: string, name: string, raw: string)
    requires Bytes(raw) <= MAX_FIELD_BYTES
    ensures Accounted(Backwards(id, name, raw))
  {
    hide Find, KeysIn, Bytes, Total, KeysDiffer, ThreePairs;
    NoBytes();
    var s := Backwards(id, name, raw);
    ThreeFound(raw, "", "");
    ThreeFound<nat>(Bytes(raw), 0, 0);
    ThreeFound((), (), ());
    NoKeysIn(s.fieldBytes, 3);
    NoKeysIn(s.signatureBytes, 3);
    ThreeTotal(s.content[0], s.content[1], s.content[2], s.args);
    assert OkAt(s, 0) && OkAt(s, 1) && OkAt(s, 2);
  }

  lemma NoBytes()
    ensures Bytes("") == 0
  {
  }

  lemma BackwardsIsOutOfOrder(id: string, name: string, raw: string)
    ensures !AllInOrder(Backwards(id, name, raw), 0)
  {
    hide Renumbered;
    ThreeRemoved((), (), ());
    var m := Delete(Backwards(id, name, raw).open, 0);
    assert m[0].key == m[1].key + 1;
  }

  /** What discarding the last of the three tools leaves. */
  lemma BackwardsDiscarded(id: string, name: string, raw: string)
    ensures var t, tool := Discarded(Backwards(id, name, raw), 0, Larger(Bytes(raw), 2) + 2), ToolBlock(id, name, None);
      t == State([tool, tool], [Pair(0, "")], [Pair(0, 0)], [], [], [Pair(0, ())], Larger(Bytes(raw), 2) + 2)
  {
    hide Bytes, Removed, Larger, ThreePairs;
    var tool := ToolBlock(id, name, None);
    assert Without([tool, tool, tool], 0) == [tool, tool];
    ThreeRemoved(raw, "", "");
    ThreeRemoved<nat>(Bytes(raw), 0, 0);
    ThreeRemoved((), (), ());
    NothingRemoved<nat>([], 0);
  }

  lemma NothingRemoved<T>(m: Pairs<T>, k: nat)
    requires m == []
    ensures Removed(m, k) == []
  {
  }

  lemma AtZero<T>(v: T)
    ensures Find([Pair(0, v)], 0) == Some(v) && Find([Pair(0, v)], 1) == None
  {
    assert [Pair(0, v)][1..] == [];
  }

  /** Out of order, discarding a tool loses another. After the last of three tools that were opened
      backwards is discarded, the one that was opened first is open no more but never finished: the
      sum that is kept still has its arguments, the blocks have not, and the accounts are wrong
      from then on. */
  lemma DiscardCanLoseATool(id: string, name: string, raw: string)
    requires Bytes(raw) <= MAX_FIELD_BYTES
    ensures var s, t := Backwards(id, name, raw), Discarded(Backwards(id, name, raw), 0, Larger(Bytes(raw), 2) + 2);
      && Accounted(s) && !AllInOrder(s, 0) && !Accounted(t)
      && t.contentBytes == Larger(Bytes(raw), 2) + 2 && Total(t.content, t.args) == 4
  {
    hide Find, KeysIn, Bytes, Total, Accounted, Discarded, AllInOrder;
    NoBytes();
    BackwardsIsAccounted(id, name, raw);
    BackwardsIsOutOfOrder(id, name, raw);
    BackwardsDiscarded(id, name, raw);
    var t := Discarded(Backwards(id, name, raw), 0, Larger(Bytes(raw), 2) + 2);
    AtZero("");
    AtZero(());
    ThreeTotal(t.content[0], t.content[1], t.content[1], t.args);
    assert [t.content[0], t.content[1]] == t.content;
    NotOkThen(t);
  }

  lemma NotOkThen(t: State)
    requires |t.content| > 1 && t.content[1].ToolBlock? && t.content[1].arguments.None? && Find(t.open, 1).None?
    ensures !Accounted(t)
  {
    assert !OkAt(t, 1);
  }
}
