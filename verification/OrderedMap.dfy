/** Maps in insertion order, and the renumbering of their keys after one key is removed. */
module OrderedMap {
  import opened Options

  datatype Pair<+T> = Pair(key: nat, value: T)

  type Pairs<+T> = seq<Pair<T>>

  function Find<T>(m: Pairs<T>, k: int): Option<T> {
    if m == [] then None else if m[0].key == k then Some(m[0].value) else Find(m[1..], k)
  }

  /** A present key keeps its place; a new one goes to the end. */
  function Put<T>(m: Pairs<T>, k: nat, v: T): Pairs<T> {
    if m == [] then [Pair(k, v)] else if m[0].key == k then [Pair(k, v)] + m[1..] else [m[0]] + Put(m[1..], k, v)
  }

  function Delete<T>(m: Pairs<T>, k: nat): Pairs<T> {
    if m == [] then [] else if m[0].key == k then m[1..] else [m[0]] + Delete(m[1..], k)
  }

  ghost predicate KeysDiffer<T>(m: Pairs<T>) {
    m != [] ==> Find(m[1..], m[0].key).None? && KeysDiffer(m[1..])
  }

  ghost predicate Ascending<T(!new)>(m: Pairs<T>) {
    forall i, j :: 0 <= i < j < |m| ==> m[i].key < m[j].key
  }

  lemma {:induction false} FindIs<T(!new)>(m: Pairs<T>, k: int)
    ensures Find(m, k).Some? <==> exists i :: 0 <= i < |m| && m[i].key == k
    ensures Find(m, k).Some? ==> k >= 0
  {
    if m != [] && m[0].key != k {
      FindIs(m[1..], k);
      assert forall i :: 0 < i < |m| ==> m[i] == m[1..][i - 1];
      if Find(m, k).Some? {
        var i :| 0 <= i < |m[1..]| && m[1..][i].key == k;
        assert m[i + 1].key == k;
      }
    }
  }

  lemma {:induction false} FindPut<T>(m: Pairs<T>, k: nat, v: T, x: int)
    ensures Find(Put(m, k, v), x) == if x == k then Some(v) else Find(m, x)
  {
    if m != [] && m[0].key != k {
      FindPut(m[1..], k, v, x);
    }
  }

  lemma {:induction false} PutIsDistinct<T>(m: Pairs<T>, k: nat, v: T)
    requires KeysDiffer(m)
    ensures KeysDiffer(Put(m, k, v))
  {
    if m != [] && m[0].key != k {
      PutIsDistinct(m[1..], k, v);
      FindPut(m[1..], k, v, m[0].key);
    }
  }

  lemma {:induction false} FindDelete<T>(m: Pairs<T>, k: nat, x: int)
    requires KeysDiffer(m)
    ensures Find(Delete(m, k), x) == if x == k then None else Find(m, x)
  {
    if m != [] && m[0].key != k {
      FindDelete(m[1..], k, x);
    }
  }

  lemma {:induction false} DeleteIsDistinct<T>(m: Pairs<T>, k: nat)
    requires KeysDiffer(m)
    ensures KeysDiffer(Delete(m, k))
  {
    if m != [] && m[0].key != k {
      DeleteIsDistinct(m[1..], k);
      FindDelete(m[1..], k, m[0].key);
    }
  }

  lemma {:induction false} DistinctAt<T(!new)>(m: Pairs<T>, i: nat, j: nat)
    requires KeysDiffer(m) && i < j < |m|
    ensures m[i].key != m[j].key
  {
    if i == 0 {
      FindIs(m[1..], m[0].key);
      assert m[1..][j - 1] == m[j];
    } else {
      DistinctAt(m[1..], i - 1, j - 1);
    }
  }

  // ----- removing a key and renumbering those above it -----

  function Renumber<T>(r: Pairs<T>, p: Pair<T>, k: nat): Pairs<T> {
    if p.key <= k then r else Put(Delete(r, p.key), p.key - 1, p.value)
  }

  /** What the loop over a snapshot of the pairs leaves, `n` pairs done. */
  function Renumbered<T>(m: Pairs<T>, k: nat, n: nat): Pairs<T>
    requires n <= |m|
  {
    if n == 0 then m else Renumber(Renumbered(m, k, n - 1), m[n - 1], k)
  }

  method RemoveIndex<T>(values: Pairs<T>, index: nat) returns (r: Pairs<T>)
    ensures r == Renumbered(Delete(values, index), index, |Delete(values, index)|)
  {
    r := Delete(values, index);
    var snapshot := r;
    for n := 0 to |snapshot|
      invariant r == Renumbered(snapshot, index, n)
    {
      var p := snapshot[n];
      if p.key > index {
        r := Put(Delete(r, p.key), p.key - 1, p.value);
      }
    }
  }

  /** No key above `k` comes after the key that is one larger. */
  ghost predicate InOrder<T(!new)>(m: Pairs<T>, k: nat) {
    forall i, j :: 0 <= i < j < |m| && m[j].key > k ==> m[i].key != m[j].key + 1
  }

  /** Every key above `k` has moved down by one, with its value. */
  ghost predicate MovedDown<T(!new)>(m: Pairs<T>, r: Pairs<T>, k: nat) {
    forall x: int :: Find(r, x) == Find(m, KeyBefore(x, k))
  }

  function KeyBefore(x: int, k: nat): int {
    if x < k then x else x + 1
  }

  /** What is found while the loop is under way: pairs done have moved, the others have not. */
  function Found<T>(m: Pairs<T>, k: nat, n: nat, x: int): Option<T>
    requires n <= |m|
  {
    if x < k then Find(m, x)
    else if Find(m[..n], x + 1).Some? then Find(m[..n], x + 1)
    else if x > k then Find(m[n..], x)
    else None
  }

  lemma {:induction false} FindParts<T(!new)>(m: Pairs<T>, n: nat, x: int)
    requires n <= |m|
    ensures Find(m, x) == if Find(m[..n], x).Some? then Find(m[..n], x) else Find(m[n..], x)
    decreases n
  {
    if n == 0 {
      assert m[0..] == m;
    } else {
      FindParts(m[1..], n - 1, x);
      assert m[..n][1..] == m[1..][..n - 1] && m[1..][n - 1..] == m[n..];
    }
  }

  lemma FindNext<T(!new)>(m: Pairs<T>, n: nat, x: int)
    requires n < |m| && KeysDiffer(m)
    ensures Find(m[..n + 1], x) == if m[n].key == x then Some(m[n].value) else Find(m[..n], x)
    ensures m[n].key == x ==> Find(m[..n], x).None?
    ensures Find(m[n..], x) == if m[n].key == x then Some(m[n].value) else Find(m[n + 1..], x)
  {
    hide KeysDiffer;
    assert m[..n + 1][..n] == m[..n] && m[..n + 1][n..] == [m[n]];
    FindParts(m[..n + 1], n, x);
    FindIs(m[..n], x);
    assert m[n..][1..] == m[n + 1..];
    assert [m[n]][1..] == [];
    forall i | 0 <= i < n ensures m[i].key != m[n].key {
      DistinctAt(m, i, n);
    }
  }

  lemma TailLacks<T(!new)>(m: Pairs<T>, n: nat)
    requires n < |m| && KeysDiffer(m)
    ensures Find(m[n + 1..], m[n].key).None?
  {
    hide KeysDiffer;
    FindIs(m[n + 1..], m[n].key);
    forall i | n < i < |m| ensures m[i].key != m[n].key {
      DistinctAt(m, n, i);
    }
  }

  /** A key above `k` that is done has the key above it still to do. */
  lemma NotYetPassed<T(!new)>(m: Pairs<T>, k: nat, n: nat)
    requires n < |m| && InOrder(m, k) && m[n].key > k
    ensures Find(m[..n], m[n].key + 1).None?
  {
    FindIs(m[..n], m[n].key + 1);
  }

  /** One step of the loop, while the order is right. */
  lemma RenumberStep<T(!new)>(m: Pairs<T>, r: Pairs<T>, k: nat, n: nat, x: int)
    requires n < |m| && KeysDiffer(m) && KeysDiffer(r) && Find(m, k).None? && InOrder(m, k)
    requires forall y: int :: Find(r, y) == Found(m, k, n, y)
    ensures Find(Renumber(r, m[n], k), x) == Found(m, k, n + 1, x)
  {
    hide KeysDiffer, InOrder, Find, Put, Delete;
    var p := m[n];
    FindParts(m, n, k);
    FindParts(m, n, x);
    FindNext(m, n, x + 1);
    FindNext(m, n, x);
    FindNext(m, n, k);
    TailLacks(m, n);
    if p.key > k {
      NotYetPassed(m, k, n);
      FindDelete(r, p.key, x);
      FindPut(Delete(r, p.key), p.key - 1, p.value, x);
    }
  }

  lemma {:induction false} RenumberedFinds<T(!new)>(m: Pairs<T>, k: nat, n: nat)
    requires n <= |m| && KeysDiffer(m) && Find(m, k).None? && InOrder(m, k)
    ensures forall x: int :: Find(Renumbered(m, k, n), x) == Found(m, k, n, x)
  {
    if n == 0 {
      assert m[..0] == [] && m[0..] == m;
    } else {
      RenumberedFinds(m, k, n - 1);
      RenumberedDistinct(m, k, n - 1);
      forall x: int ensures Find(Renumbered(m, k, n), x) == Found(m, k, n, x) {
        RenumberStep(m, Renumbered(m, k, n - 1), k, n - 1, x);
      }
    }
  }

  lemma OrderMovesDown<T(!new)>(m: Pairs<T>, k: nat)
    requires KeysDiffer(m) && Find(m, k).None? && InOrder(m, k)
    ensures MovedDown(m, Renumbered(m, k, |m|), k) && KeysDiffer(Renumbered(m, k, |m|))
  {
    RenumberedFinds(m, k, |m|);
    RenumberedDistinct(m, k, |m|);
    assert m[..|m|] == m && m[|m|..] == [];
    forall x: int ensures Found(m, k, |m|, x) == Find(m, KeyBefore(x, k)) {
    }
  }

  lemma {:induction false} RenumberedDistinct<T>(m: Pairs<T>, k: nat, n: nat)
    requires KeysDiffer(m) && n <= |m|
    ensures KeysDiffer(Renumbered(m, k, n))
  {
    hide KeysDiffer, Put, Delete;
    if n > 0 {
      RenumberedDistinct(m, k, n - 1);
      var r, p := Renumbered(m, k, n - 1), m[n - 1];
      if p.key > k {
        DeleteIsDistinct(r, p.key);
        PutIsDistinct(Delete(r, p.key), p.key - 1, p.value);
      }
    }
  }

  /** A key that is passed after the one above it loses that one's value for good. */
  lemma {:induction false} LostStaysLost<T(!new)>(m: Pairs<T>, k: nat, i: nat, j: nat, n: nat)
    requires KeysDiffer(m) && i < j < n <= |m| && m[j].key > k && m[i].key == m[j].key + 1
    ensures Find(Renumbered(m, k, n), m[j].key).None?
    decreases n
  {
    hide KeysDiffer, Put, Delete, Find;
    var r, p, x := Renumbered(m, k, n - 1), m[n - 1], m[j].key;
    RenumberedDistinct(m, k, n - 1);
    if p.key > k {
      FindDelete(r, p.key, x);
      FindPut(Delete(r, p.key), p.key - 1, p.value, x);
    }
    DistinctAt(m, i, n - 1);
    if n - 1 > j {
      LostStaysLost(m, k, i, j, n - 1);
    }
  }

  lemma MovedAfterDelete<T(!new)>(values: Pairs<T>, m: Pairs<T>, r: Pairs<T>, k: nat)
    requires forall x: int :: Find(m, x) == if x == k then None else Find(values, x)
    ensures MovedDown(m, r, k) <==> MovedDown(values, r, k)
  {
    hide Find;
    forall x: int ensures Find(m, KeyBefore(x, k)) == Find(values, KeyBefore(x, k)) {
    }
  }

  lemma BackwardsLoses<T(!new)>(m: Pairs<T>, k: nat, i: nat, j: nat)
    requires KeysDiffer(m) && i < j < |m| && m[j].key > k && m[i].key == m[j].key + 1
    ensures !MovedDown(m, Renumbered(m, k, |m|), k)
  {
    hide KeysDiffer, Renumbered, Find;
    LostStaysLost(m, k, i, j, |m|);
    FindIs(m, m[i].key);
    assert Find(Renumbered(m, k, |m|), m[j].key) != Find(m, m[j].key + 1);
  }

  /** Removing a key and renumbering keeps every other value if and only if no key comes after the
      one above it. Otherwise entries overwrite each other. */
  lemma RenumberingIsExact<T(!new)>(values: Pairs<T>, k: nat)
    requires KeysDiffer(values)
    ensures var m := Delete(values, k);
      MovedDown(values, Renumbered(m, k, |m|), k) <==> InOrder(m, k)
  {
    hide KeysDiffer, Renumbered, Find, Delete, MovedDown;
    var m := Delete(values, k);
    DeleteIsDistinct(values, k);
    forall x: int ensures Find(m, x) == if x == k then None else Find(values, x) {
      FindDelete(values, k, x);
    }
    MovedAfterDelete(values, m, Renumbered(m, k, |m|), k);
    if InOrder(m, k) {
      OrderMovesDown(m, k);
    } else {
      var i, j :| 0 <= i < j < |m| && m[j].key > k && m[i].key == m[j].key + 1;
      BackwardsLoses(m, k, i, j);
    }
  }

  // ----- ascending keys -----

  lemma {:induction false} AscendingIsDistinct<T(!new)>(m: Pairs<T>)
    requires Ascending(m)
    ensures KeysDiffer(m)
  {
    if m != [] {
      FindIs(m[1..], m[0].key);
      assert forall i :: 0 <= i < |m[1..]| ==> m[1..][i] == m[i + 1];
      AscendingIsDistinct(m[1..]);
    }
  }

  lemma AscendingInOrder<T(!new)>(m: Pairs<T>, k: nat)
    requires Ascending(m)
    ensures InOrder(m, k)
  {
  }

  ghost predicate Above<T(!new)>(m: Pairs<T>, low: int) {
    forall i :: 0 <= i < |m| ==> m[i].key > low
  }

  lemma AscendingHead<T(!new)>(m: Pairs<T>)
    requires m != []
    ensures Ascending(m) <==> Ascending(m[1..]) && Above(m[1..], m[0].key)
  {
    var rest := m[1..];
    assert forall i :: 0 <= i < |rest| ==> rest[i] == m[i + 1];
    if Ascending(rest) && Above(rest, m[0].key) {
      forall i, j | 0 <= i < j < |m| ensures m[i].key < m[j].key {
        assert m[j] == rest[j - 1];
        assert i > 0 ==> m[i] == rest[i - 1];
      }
    }
  }

  lemma {:induction false} DeleteKeepsAscending<T(!new)>(m: Pairs<T>, k: nat, low: int)
    requires Ascending(m) && Above(m, low)
    ensures Ascending(Delete(m, k)) && Above(Delete(m, k), low)
  {
    if m != [] {
      AscendingHead(m);
      assert Above(m[1..], low);
      if m[0].key != k {
        DeleteKeepsAscending(m[1..], k, m[0].key);
        AscendingHead(Delete(m, k));
      }
    }
  }

  lemma {:induction false} PutKeepsAscending<T(!new)>(m: Pairs<T>, k: nat, v: T, low: int)
    requires Ascending(m) && Above(m, low) && k > low
    requires Find(m, k).Some? || forall i :: 0 <= i < |m| ==> m[i].key < k
    ensures Ascending(Put(m, k, v)) && Above(Put(m, k, v), low)
  {
    if m != [] {
      AscendingHead(m);
      var n := Put(m, k, v);
      if m[0].key != k {
        FindIs(m[1..], k);
        assert forall i :: 0 <= i < |m[1..]| ==> m[1..][i] == m[i + 1];
        PutKeepsAscending(m[1..], k, v, m[0].key);
      }
      AscendingHead(n);
    }
  }

  function DownBy<T>(m: Pairs<T>): (r: Pairs<T>)
    requires forall i :: 0 <= i < |m| ==> m[i].key > 0
    ensures |r| == |m| && forall i :: 0 <= i < |m| ==> r[i] == Pair(m[i].key - 1, m[i].value)
  {
    seq(|m|, i requires 0 <= i < |m| => Pair((m[i].key - 1) as nat, m[i].value))
  }

  ghost predicate Below<T(!new)>(m: Pairs<T>, high: int) {
    forall i :: 0 <= i < |m| ==> m[i].key < high
  }

  lemma {:induction false} DeleteMiddle<T(!new)>(a: Pairs<T>, p: Pair<T>, b: Pairs<T>)
    requires Below(a, p.key)
    ensures Delete(a + [p] + b, p.key) == a + b
  {
    var m := a + [p] + b;
    if a == [] {
      assert m[0] == p && m[1..] == b && a + b == b;
    } else {
      assert m[0] == a[0] && m[1..] == a[1..] + [p] + b;
      DeleteMiddle(a[1..], p, b);
      assert [a[0]] + (a[1..] + b) == a + b;
    }
  }

  lemma {:induction false} PutNew<T(!new)>(m: Pairs<T>, k: nat, v: T)
    requires forall i :: 0 <= i < |m| ==> m[i].key != k
    ensures Put(m, k, v) == m + [Pair(k, v)]
  {
    if m != [] {
      PutNew(m[1..], k, v);
      assert [m[0]] + (m[1..] + [Pair(k, v)]) == m + [Pair(k, v)];
    }
  }

  lemma RenumberOne<T(!new)>(a: Pairs<T>, p: Pair<T>, b: Pairs<T>, done: Pairs<T>, k: nat)
    requires Below(a, k) && p.key > k && Above(b, p.key) && Below(done, p.key - 1)
    ensures Renumber(a + ([p] + b) + done, p, k) == a + b + (done + [Pair(p.key - 1, p.value)])
  {
    hide Delete, Put;
    assert a + ([p] + b) + done == a + [p] + (b + done);
    DeleteMiddle(a, p, b + done);
    PutNew(a + (b + done), p.key - 1, p.value);
    assert a + (b + done) + [Pair((p.key - 1) as nat, p.value)] == a + b + (done + [Pair((p.key - 1) as nat, p.value)]);
  }

  /** With ascending keys, the loop moves those above `k` down one after the other, to the end. */
  lemma {:induction false} RenumberedAscending<T(!new)>(a: Pairs<T>, b: Pairs<T>, k: nat, j: nat)
    requires Below(a, k) && Above(b, k) && Ascending(b) && j <= |b|
    ensures Renumbered(a + b, k, |a| + j) == a + b[j..] + DownBy(b[..j])
    decreases |a| + j
  {
    hide Renumber;
    if j == 0 {
      assert b[0..] == b && a + b + DownBy(b[..0]) == a + b;
      NothingAbove(a, b, k, |a|);
    } else {
      RenumberedAscending(a, b, k, j - 1);
      assert (a + b)[|a| + j - 1] == b[j - 1];
      assert b[j - 1..] == [b[j - 1]] + b[j..];
      RenumberOne(a, b[j - 1], b[j..], DownBy(b[..j - 1]), k);
      assert DownBy(b[..j]) == DownBy(b[..j - 1]) + [Pair((b[j - 1].key - 1) as nat, b[j - 1].value)];
    }
  }

  lemma {:induction false} NothingAbove<T(!new)>(a: Pairs<T>, b: Pairs<T>, k: nat, n: nat)
    requires Below(a, k) && n <= |a|
    ensures Renumbered(a + b, k, n) == a + b
  {
    if n > 0 {
      NothingAbove(a, b, k, n - 1);
      assert (a + b)[n - 1] == a[n - 1];
    }
  }

  lemma {:induction false} SplitAscending<T(!new)>(m: Pairs<T>, k: nat) returns (a: Pairs<T>, b: Pairs<T>)
    requires Ascending(m) && Find(m, k).None?
    ensures m == a + b && Below(a, k) && Above(b, k) && Ascending(a) && Ascending(b)
  {
    hide Ascending;
    FindIs(m, k);
    var n := 0;
    while n < |m| && m[n].key < k
      invariant n <= |m| && Below(m[..n], k)
    {
      n := n + 1;
    }
    a, b := m[..n], m[n..];
    AscendingParts(m, n, k);
  }

  lemma AscendingParts<T(!new)>(m: Pairs<T>, n: nat, k: nat)
    requires Ascending(m) && n <= |m|
    requires forall i :: 0 <= i < |m| ==> m[i].key != k
    requires n < |m| ==> m[n].key >= k
    ensures m == m[..n] + m[n..] && Ascending(m[..n]) && Ascending(m[n..]) && Above(m[n..], k)
  {
    forall i | 0 <= i < |m[n..]| ensures m[n..][i].key > k {
      assert m[n..][i] == m[n + i];
    }
  }

  lemma RenumberKeepsAscending<T(!new)>(m: Pairs<T>, k: nat)
    requires Ascending(m) && Find(m, k).None?
    ensures Ascending(Renumbered(m, k, |m|))
  {
    hide Renumbered, Find;
    var a, b := SplitAscending(m, k);
    RenumberedAscending(a, b, k, |b|);
    WholeOf(a, b);
    AscendingJoin(a, DownBy(b), k);
  }

  lemma WholeOf<T>(a: seq<T>, b: seq<T>)
    ensures b[|b|..] == [] && b[..|b|] == b && a + [] == a && |a| + |b| == |a + b|
  {
  }

  lemma AscendingJoin<T(!new)>(a: Pairs<T>, b: Pairs<T>, k: nat)
    requires Ascending(a) && Ascending(b) && Below(a, k) && Above(b, k - 1)
    ensures Ascending(a + b)
  {
  }
}
