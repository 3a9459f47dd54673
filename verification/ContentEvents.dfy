/** The events of a message stream, block by block. */
module ContentEvents {
  import opened Options
  import opened OrderedMap
  import opened ContentBudget

  datatype Kind = TextKind | ThinkingKind | ToolKind

  datatype Event =
    | Started(index: nat, kind: Kind)
    | Grew(index: nat, delta: string)
    | Ended(index: nat, block: Block)
    | Finished
    | Failed

  function KindOf(b: Block): Kind {
    match b
    case TextBlock(_) => TextKind
    case ThinkingBlock(_, _) => ThinkingKind
    case ToolBlock(_, _, _) => ToolKind
  }

  /** The last event of a message. */
  predicate IsLast(e: Event) {
    e.Finished? || e.Failed?
  }

  predicate Concerns(e: Event, i: nat) {
    !IsLast(e) && e.index == i
  }

  /** The events of one block. */
  function Trace(log: seq<Event>, i: nat): seq<Event> {
    if log == [] then []
    else Trace(log[..|log| - 1], i) + if Concerns(log[|log| - 1], i) then [log[|log| - 1]] else []
  }

  lemma TraceOn(log: seq<Event>, e: Event, i: nat)
    ensures Trace(log + [e], i) == if Concerns(e, i) then Trace(log, i) + [e] else Trace(log, i)
  {
    assert (log + [e])[..|log|] == log;
    assert Trace(log, i) + [] == Trace(log, i);
  }

  function Growth(i: nat, deltas: seq<string>): (es: seq<Event>)
    ensures |es| == |deltas| && forall k :: 0 <= k < |es| ==> es[k] == Grew(i, deltas[k])
  {
    seq(|deltas|, k requires 0 <= k < |deltas| => Grew(i, deltas[k]))
  }

  function Spelled(deltas: seq<string>): string {
    if deltas == [] then "" else Spelled(deltas[..|deltas| - 1]) + deltas[|deltas| - 1]
  }

  lemma SpelledOn(deltas: seq<string>, d: string)
    ensures Spelled(deltas + [d]) == Spelled(deltas) + d
  {
    assert (deltas + [d])[..|deltas|] == deltas;
  }

  /** The deltas of a block are its text; those of an open tool are its raw arguments. */
  ghost predicate Written(b: Block, raw: Option<string>, isOpen: bool, text: string) {
    match b
    case TextBlock(t) => t == text
    case ThinkingBlock(t, _) => t == text
    case ToolBlock(_, _, _) => isOpen ==> raw == Some(text)
  }

  ghost predicate BracketedBy(
    trace: seq<Event>, i: nat, b: Block, raw: Option<string>, isOpen: bool, deltas: seq<string>)
  {
    && trace == [Started(i, KindOf(b))] + Growth(i, deltas) + (if isOpen then [] else [Ended(i, b)])
    && Written(b, raw, isOpen, Spelled(deltas))
  }

  /** One start, then deltas that spell the block, then, once it is closed, one end. */
  ghost predicate Bracketed(trace: seq<Event>, i: nat, b: Block, raw: Option<string>, isOpen: bool) {
    exists deltas :: BracketedBy(trace, i, b, raw, isOpen, deltas)
  }

  ghost predicate BracketedAt(log: seq<Event>, s: State, i: nat)
    requires i < |s.content|
  {
    Bracketed(Trace(log, i), i, s.content[i], Find(s.args, i), Find(s.open, i).Some?)
  }

  ghost predicate Bracketing(log: seq<Event>, s: State) {
    && (forall i :: 0 <= i < |s.content| ==> BracketedAt(log, s, i))
    && (forall i :: i >= |s.content| ==> Trace(log, i) == [])
  }

  lemma BlockStarts(i: nat, b: Block, raw: Option<string>)
    requires Written(b, raw, true, "")
    ensures Bracketed([Started(i, KindOf(b))], i, b, raw, true)
  {
    assert [Started(i, KindOf(b))] + Growth(i, []) + [] == [Started(i, KindOf(b))];
    assert BracketedBy([Started(i, KindOf(b))], i, b, raw, true, []);
  }

  lemma BlockGrows(
    trace: seq<Event>, i: nat, b: Block, raw: Option<string>, delta: string, c: Block, more: Option<string>)
    requires Bracketed(trace, i, b, raw, true) && KindOf(c) == KindOf(b)
    requires forall text :: Written(b, raw, true, text) ==> Written(c, more, true, text + delta)
    ensures Bracketed(trace + [Grew(i, delta)], i, c, more, true)
  {
    var deltas :| BracketedBy(trace, i, b, raw, true, deltas);
    SpelledOn(deltas, delta);
    assert Growth(i, deltas + [delta]) == Growth(i, deltas) + [Grew(i, delta)];
    assert BracketedBy(trace + [Grew(i, delta)], i, c, more, true, deltas + [delta]);
  }

  lemma BlockEnds(trace: seq<Event>, i: nat, b: Block, raw: Option<string>, c: Block)
    requires Bracketed(trace, i, b, raw, true) && KindOf(c) == KindOf(b)
    requires forall text :: Written(b, raw, true, text) ==> Written(c, None, false, text)
    ensures Bracketed(trace + [Ended(i, c)], i, c, None, false)
  {
    var deltas :| BracketedBy(trace, i, b, raw, true, deltas);
    assert trace + [Ended(i, c)] == [Started(i, KindOf(c))] + Growth(i, deltas) + [Ended(i, c)];
    assert BracketedBy(trace + [Ended(i, c)], i, c, None, false, deltas);
  }

  /** Other blocks keep their brackets when an event of block `k` happens. */
  lemma OneBlockMoves(log: seq<Event>, e: Event, s: State, t: State, k: nat)
    requires Bracketing(log, s) && !IsLast(e) && e.index == k && k < |t.content|
    requires |t.content| == if k < |s.content| then |s.content| else k + 1
    requires k <= |s.content| && SameBut(s, t, k)
    requires BracketedAt(log + [e], t, k)
    ensures Bracketing(log + [e], t)
  {
    hide Bracketed, Find, Trace;
    forall i: nat ensures Concerns(e, i) <==> i == k { }
    forall i | 0 <= i < |t.content| ensures BracketedAt(log + [e], t, i) {
      TraceOn(log, e, i);
      if i != k {
        assert BracketedAt(log, s, i);
      }
    }
    forall i | i >= |t.content| ensures Trace(log + [e], i) == [] {
      TraceOn(log, e, i);
    }
  }

  lemma NothingMoves(log: seq<Event>, e: Event, s: State)
    requires Bracketing(log, s) && IsLast(e)
    ensures Bracketing(log + [e], s)
  {
    hide Bracketed, Find, Trace;
    forall i | 0 <= i < |s.content| ensures BracketedAt(log + [e], s, i) {
      TraceOn(log, e, i);
      assert BracketedAt(log, s, i);
    }
    forall i | i >= |s.content| ensures Trace(log + [e], i) == [] {
      TraceOn(log, e, i);
    }
  }

  lemma {:induction false} TraceIsPart(log: seq<Event>, i: nat)
    ensures forall e :: e in Trace(log, i) ==> e in log
  {
    if log != [] {
      TraceIsPart(log[..|log| - 1], i);
    }
  }

  lemma BracketedIsStarted(log: seq<Event>, s: State, i: nat)
    requires Bracketing(log, s) && i < |s.content|
    ensures Started(i, KindOf(s.content[i])) in log
  {
    assert BracketedAt(log, s, i);
    var isOpen := Find(s.open, i).Some?;
    var deltas :| BracketedBy(Trace(log, i), i, s.content[i], Find(s.args, i), isOpen, deltas);
    TraceIsPart(log, i);
    assert Trace(log, i)[0] == Started(i, KindOf(s.content[i]));
  }

  /** A block that was never started is not bracketed. Text that fills a gap is such a block, while
      it is there: a tool that is started at its index later replaces it. */
  lemma FillerIsNotBracketed(log: seq<Event>, s: State, i: nat)
    requires i < |s.content| && Started(i, KindOf(s.content[i])) !in log
    ensures !Bracketing(log, s)
  {
    if Bracketing(log, s) {
      BracketedIsStarted(log, s, i);
    }
  }

  // ----- counting the blocks that were started -----

  function Starts(log: seq<Event>): nat {
    if log == [] then 0 else Starts(log[..|log| - 1]) + if log[|log| - 1].Started? then 1 else 0
  }

  lemma StartsOn(log: seq<Event>, e: Event)
    ensures Starts(log + [e]) == Starts(log) + if e.Started? then 1 else 0
  {
    assert (log + [e])[..|log|] == log;
  }

  lemma {:induction false} StartsJoin(a: seq<Event>, b: seq<Event>)
    ensures Starts(a + b) == Starts(a) + Starts(b)
  {
    if b == [] {
      assert a + b == a;
    } else {
      var n := |b| - 1;
      assert a + b == (a + b[..n]) + [b[n]] && b == b[..n] + [b[n]];
      StartsJoin(a, b[..n]);
      StartsOn(a + b[..n], b[n]);
    }
  }

  lemma {:induction false} GrowthStartsNothing(i: nat, deltas: seq<string>)
    ensures Starts(Growth(i, deltas)) == 0
  {
    if deltas != [] {
      var n := |deltas| - 1;
      GrowthStartsNothing(i, deltas[..n]);
      assert Growth(i, deltas) == Growth(i, deltas[..n]) + [Grew(i, deltas[n])];
      StartsOn(Growth(i, deltas[..n]), Grew(i, deltas[n]));
    }
  }

  lemma BracketedStartsOnce(trace: seq<Event>, i: nat, b: Block, raw: Option<string>, isOpen: bool)
    requires Bracketed(trace, i, b, raw, isOpen)
    ensures Starts(trace) == 1
  {
    var deltas :| BracketedBy(trace, i, b, raw, isOpen, deltas);
    var start, end := [Started(i, KindOf(b))], if isOpen then [] else [Ended(i, b)];
    StartsJoin(start + Growth(i, deltas), end);
    StartsJoin(start, Growth(i, deltas));
    GrowthStartsNothing(i, deltas);
    StartsOn([], Started(i, KindOf(b)));
    StartsOn([], Ended(i, b));
    assert [] + start == start && [] + [Ended(i, b)] == [Ended(i, b)];
  }

  /** The starts of the blocks below `n`, block by block. */
  function StartsBelow(log: seq<Event>, n: nat): nat {
    if n == 0 then 0 else StartsBelow(log, n - 1) + Starts(Trace(log, n - 1))
  }

  lemma {:induction false} StartsBelowOn(log: seq<Event>, e: Event, n: nat)
    ensures StartsBelow(log + [e], n) == StartsBelow(log, n) + if e.Started? && e.index < n then 1 else 0
  {
    hide Starts, Trace;
    if n > 0 {
      StartsBelowOn(log, e, n - 1);
      TraceOn(log, e, n - 1);
      StartsOn(Trace(log, n - 1), e);
    }
  }

  lemma {:induction false} NoStartsBelow(n: nat)
    ensures StartsBelow([], n) == 0
  {
    if n > 0 {
      NoStartsBelow(n - 1);
    }
  }

  lemma {:induction false} StartsByBlock(log: seq<Event>, n: nat)
    requires forall i :: i >= n ==> Trace(log, i) == []
    ensures Starts(log) == StartsBelow(log, n)
  {
    if log == [] {
      NoStartsBelow(n);
    } else {
      var before, e := log[..|log| - 1], log[|log| - 1];
      assert log == before + [e];
      forall i | i >= n ensures Trace(before, i) == [] && !Concerns(e, i) {
        TraceOn(before, e, i);
      }
      StartsByBlock(before, n);
      StartsBelowOn(before, e, n);
      assert e.Started? ==> Concerns(e, e.index);
    }
  }

  lemma {:induction false} OneStartEach(log: seq<Event>, s: State, n: nat)
    requires Bracketing(log, s) && n <= |s.content|
    ensures StartsBelow(log, n) == n
  {
    hide Bracketed, Starts, Trace;
    if n > 0 {
      OneStartEach(log, s, n - 1);
      assert BracketedAt(log, s, n - 1);
      BracketedStartsOnce(Trace(log, n - 1), n - 1, s.content[n - 1], Find(s.args, n - 1), Find(s.open, n - 1).Some?);
    }
  }

  /** Bracketed events start as many blocks as the content has. */
  lemma BracketingCounts(log: seq<Event>, s: State)
    requires Bracketing(log, s)
    ensures Starts(log) == |s.content|
  {
    OneStartEach(log, s, |s.content|);
    StartsByBlock(log, |s.content|);
  }

  /** How the starts relate to the blocks: a discarded tool leaves its start behind. */
  ghost predicate Counted(n: nat, log: seq<Event>, appended: bool, inTurn: bool, discards: nat, clean: bool) {
    && (clean <==> inTurn && discards == 0)
    && (inTurn ==> appended && Starts(log) == n + discards)
  }

  lemma CountedStays(n: nat, log: seq<Event>, e: Event, appended: bool, inTurn: bool, discards: nat, clean: bool)
    requires Counted(n, log, appended, inTurn, discards, clean) && !e.Started?
    ensures Counted(n, log + [e], appended, inTurn, discards, clean)
  {
    StartsOn(log, e);
  }

  lemma CountedStart(
    n: nat, log: seq<Event>, k: nat, kind: Kind, appended: bool, inTurn: bool, discards: nat, clean: bool)
    requires Counted(n, log, appended, inTurn, discards, clean) && k <= n
    ensures Counted(if k < n then n else n + 1, log + [Started(k, kind)],
      appended && k == n, inTurn && k == n, discards, clean && k == n)
  {
    StartsOn(log, Started(k, kind));
  }

  lemma CountedGap(n: nat, target: nat, log: seq<Event>, appended: bool, inTurn: bool, discards: nat, clean: bool)
    requires Counted(n, log, appended, inTurn, discards, clean)
    ensures Counted(target, log, appended, inTurn && n == target, discards, clean && n == target)
  {
  }

  lemma CountedDiscard(n: nat, log: seq<Event>, appended: bool, inTurn: bool, discards: nat, clean: bool)
    requires Counted(n + 1, log, appended, inTurn, discards, clean)
    ensures Counted(n, log, appended, inTurn, discards + 1, false)
  {
  }
}
