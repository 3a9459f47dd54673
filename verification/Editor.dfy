/** The multiline editor: a text buffer with atomic, renumbered paste markers and a kill ring. */
module Editor {
  import opened Options
  import opened Decimal
  import opened JsonLines
  import opened EditorText
  import opened EditorMarks
  import opened EditorFragments
  import opened EditorScan
  import opened EditorWords
  import opened EditorRestore

  const MAX_KILL_RING_ENTRIES: nat := 60

  datatype Action =
    | NoAction | InsertWord | InsertBoundary | InsertNewline | KillForward | KillBackward | Yanked | YankPopped

  predicate IsKill(a: Action) {
    a.KillForward? || a.KillBackward?
  }

  datatype KillCommand = ToStart | ToEnd | BackOneWord | OnOneWord

  datatype YankRange = YankRange(start: int, end: int, ringIndex: nat)

  class MultilineEditor {
    const maxBytes: nat
    const maxUndo: nat
    var graphemes: string
    var pastes: seq<Marker>
    var cursor: int
    var undo: seq<Snapshot>
    var redo: seq<Snapshot>
    var killRing: seq<Fragment>
    var killHead: nat
    var lastAction: Action
    var lastYank: Option<YankRange>

    /** The tokens before and after the cursor. */
    ghost var left: seq<Token>
    ghost var right: seq<Token>
    /** The tokens behind each entry of the kill ring. */
    ghost var ring: seq<seq<Token>>
    /** The tokens when the current run of kills began. */
    ghost var origin: seq<Token>
    /** The tokens before, and of, the last yank. */
    ghost var yankAt: nat
    ghost var yankEnd: nat

    ghost function Tokens(): seq<Token>
      reads this`left, this`right
    {
      left + right
    }

    /** The buffer shows the tokens; the markers may still await renumbering. */
    ghost predicate Loose()
      reads this`graphemes, this`pastes, this`cursor, this`left, this`right
    {
      && graphemes == Text(Tokens()) && SortByStart(pastes) == Marks(Tokens(), 0)
      && cursor == |Text(left)| && Titled(Tokens())
    }

    /** The markers are sorted, numbered 1 to n, and each shows its label; text and payloads are
        what sanitizing leaves. */
    ghost predicate Settled()
      reads this`graphemes, this`pastes, this`cursor, this`left, this`right
    {
      && graphemes == Text(Tokens()) && pastes == Marks(Tokens(), 0) && cursor == |Text(left)|
      && Tokens() == Canonical(Tokens(), 1)
      && InBudget(Tokens(), maxBytes) && AllShow(Tokens())
    }

    ghost predicate RingOk()
      reads this`killRing, this`ring, this`killHead
    {
      && |killRing| == |ring|
      && (forall i :: 0 <= i < |ring| ==>
            killRing[i] == FragmentOf(ring[i]) && ring[i] != [] && Titled(ring[i]) && AllShow(ring[i]))
      && (killRing != [] ==> killHead < |killRing|)
    }

    /** While kills follow one another, the newest ring entry is what they took from `origin`. */
    ghost predicate ChainOk()
      reads this`lastAction, this`ring, this`killHead, this`left, this`right, this`origin
    {
      IsKill(lastAction) ==>
        && ring != [] && killHead == 0
        && Alike(origin, left + ring[0] + right) && origin == Canonical(origin, 1) && InBudget(origin, maxBytes)
    }

    ghost predicate YankOk()
      reads this`lastAction, this`lastYank, this`ring, this`left, this`right, this`yankAt, this`yankEnd
    {
      (lastAction.Yanked? || lastAction.YankPopped?) && lastYank.Some? ==>
        && yankAt < yankEnd <= |Tokens()|
        && lastYank.value.start == At(Tokens(), yankAt) && lastYank.value.end == At(Tokens(), yankEnd)
        && lastYank.value.ringIndex < |ring|
    }

    ghost predicate Valid()
      reads this
    {
      Settled() && RingOk() && ChainOk() && YankOk()
    }

    constructor (maxBytes: nat, maxUndo: nat)
      requires maxBytes >= 1 && maxUndo >= 1
      ensures Valid() && Tokens() == [] && killRing == []
      ensures this.maxBytes == maxBytes && this.maxUndo == maxUndo
    {
      this.maxBytes, this.maxUndo := maxBytes, maxUndo;
      graphemes, pastes, cursor, undo, redo := "", [], 0, [], [];
      killRing, killHead, lastAction, lastYank := [], 0, NoAction, None;
      left, right, ring, origin, yankAt, yankEnd := [], [], [], [], 0, 0;
    }

    lemma TokensAre()
      ensures Tokens() == left + right
    {
    }

    lemma LooseParts()
      requires Loose()
      ensures Tokens() == left + right && graphemes == Text(Tokens()) && SortByStart(pastes) == Marks(Tokens(), 0)
      ensures cursor == At(Tokens(), |left|) && Titled(Tokens()) && |left| <= |Tokens()|
    {
      hide Text, Marks, SortByStart, Titled;
      assert (left + right)[..|left|] == left;
    }

    // ----- numbering the markers -----

    static function Adjusted(position: int, oldStart: int, oldEnd: int, newEnd: int): int {
      if position <= oldStart then position
      else if position >= oldEnd then position + newEnd - oldEnd
      else newEnd
    }

    /** Numbers the markers in order and rewrites the labels that change. The cursor and a
        tracked position stay between the same tokens. */
    method RenumberPastes(tracked: int, ghost q: nat) returns (position: int)
      requires Loose() && q <= |Tokens()| && tracked == At(Tokens(), q)
      modifies this`graphemes, this`pastes, this`cursor, this`left, this`right
      ensures Tokens() == Canonical(old(Tokens()), 1) && |Tokens()| == |old(Tokens())| && |left| == |old(left)|
      ensures graphemes == Text(Tokens()) && pastes == Marks(Tokens(), 0) && cursor == |Text(left)|
      ensures position == At(Tokens(), q)
    {
      hide *;
      LooseParts();
      ghost var ts, n := Tokens(), |left|;
      ghost var cur: seq<Token>, k: nat := ts, 0;
      pastes, position := SortByStart(pastes), tracked;
      StartRenumber(ts, n);
      var index: nat := 0;
      while index < |pastes|
        invariant index <= |pastes|
        invariant |pastes| == Count(ts) && k <= |ts| == |cur| && Renumbering(ts, cur, k, index)
        invariant graphemes == Text(cur) && pastes == Marks(cur, 0)
        invariant cursor == At(cur, n) && position == At(cur, q)
        modifies this`graphemes, this`pastes, this`cursor
      {
        ghost var j := MoreToRenumber(ts, cur, k, index);
        OneLabel(ts, cur, k, index, j, n, q);
        var paste := pastes[index];
        var title := PasteLabel(index + 1, paste.payload);
        if graphemes[paste.start..paste.end] != title {
          graphemes := graphemes[..paste.start] + title + graphemes[paste.end..];
          var end := paste.start + |title|;
          Replaced(pastes[..index], paste.(end := end), MoveAll(pastes[index + 1..], end - paste.end),
            paste.(end := end, title := title, ordinal := index + 1));
          pastes := pastes[..index] + [paste.(end := end)] + MoveAll(pastes[index + 1..], end - paste.end);
          cursor := Adjusted(cursor, paste.start, paste.end, end);
          position := Adjusted(position, paste.start, paste.end, end);
        } else {
          LabelUnchanged(ts, cur, k, index, j, n, q);
        }
        pastes := pastes[index := pastes[index].(title := title, ordinal := index + 1)];
        cur, k, index := Relabel(cur, j, title, index + 1), j + 1, index + 1;
      }
      EndRenumber(ts, cur, k, index);
      CutCanonical(ts, n);
      left, right := cur[..n], cur[n..];
      TokensAre();
      AtIs(cur, n);
    }

    // ----- units, cursor and undo -----

    function UnitStart(p: int): (start: int)
      reads this`pastes
      ensures PasteAt(pastes, p - 1).None? ==> start == p - 1
      ensures PasteAt(pastes, p - 1).Some? ==> start == PasteAt(pastes, p - 1).value.start
    {
      var m := PasteAt(pastes, p - 1);
      if m.Some? then m.value.start else p - 1
    }

    function UnitEnd(p: int): (end: int)
      reads this`pastes
      ensures PasteAt(pastes, p).None? ==> end == p + 1
      ensures PasteAt(pastes, p).Some? ==> end == PasteAt(pastes, p).value.end
    {
      var m := PasteAt(pastes, p);
      if m.Some? then m.value.end else p + 1
    }

    method MoveTo(p: int, ghost k: nat)
      requires Settled() && k <= |Tokens()| && p == At(Tokens(), k)
      modifies this`cursor, this`left, this`right
      ensures Settled() && Tokens() == old(Tokens()) && |left| == k && cursor == p
    {
      hide Text, Marks, Canonical, InBudget, AllShow;
      cursor := p;
      ghost var ts := Tokens();
      left, right := ts[..k], ts[k..];
      assert left + right == ts;
    }

    method BreakAction()
      modifies this`lastAction, this`lastYank
      ensures lastAction.NoAction? && lastYank.None?
    {
      lastAction, lastYank := NoAction, None;
    }

    function CurrentSnapshot(): Snapshot
      reads this`graphemes, this`cursor, this`pastes
    {
      Snapshot(graphemes, cursor, PasteSnapshots(pastes))
    }

    method RecordUndo()
      modifies this`undo
      ensures undo == Noted(old(undo), CurrentSnapshot(), maxUndo)
    {
      var current := CurrentSnapshot();
      if undo == [] || undo[|undo| - 1] != current {
        undo := Bounded(undo + [current], maxUndo);
      }
    }

    // ----- deleting -----

    /** Deletes a range that lies between tokens. No marker is cut: the widening over
        partly covered markers finds nothing to widen. */
    method DeleteRange(startValue: int, endValue: int, record: bool, ghost i: nat, ghost j: nat)
      returns (fragment: Option<Fragment>)
      requires Settled() && i <= j <= |Tokens()| && startValue == At(Tokens(), i) && endValue == At(Tokens(), j)
      modifies this`graphemes, this`pastes, this`cursor, this`left, this`right, this`undo, this`redo
      ensures Settled()
      ensures i == j ==> fragment == None && left == old(left) && right == old(right)
      ensures i < j ==>
        && fragment == Some(FragmentOf(old(Tokens())[i..j]))
        && Tokens() == Canonical(old(Tokens())[..i] + old(Tokens())[j..], 1) && |left| == i
    {
      hide Text, Marks, Canonical, InBudget, Remaining, Inside, FragmentMarks, At, Titled, SortByStart, AllShow;
      ghost var ts := Tokens();
      CanonicalIsTitled(ts);
      SliceIsText(ts, i, j);
      AtOrder(ts, i, j);
      var start := if startValue < 0 then 0 else if startValue > |graphemes| then |graphemes| else startValue;
      var end := if endValue < start then start else if endValue > |graphemes| then |graphemes| else endValue;
      for index := 0 to |pastes|
        invariant start == startValue && end == endValue
        modifies {}
      {
        var paste := pastes[index];
        if start < paste.end && end > paste.start {
          MarkInRange(ts, i, j, index);
          start := if paste.start < start then paste.start else start;
          end := if paste.end > end then paste.end else end;
        }
      }
      if start == end {
        return None;
      }
      fragment := Some(Fragment(graphemes[start..end], Inside(pastes, start, end)));
      if record {
        RecordUndo();
      }
      CutTokens(ts, i, j);
      CutBudget(ts, i, j, maxBytes);
      graphemes := graphemes[..start] + graphemes[end..];
      pastes := Remaining(pastes, start, end);
      cursor := start;
      left, right := ts[..i], ts[j..];
      AtZero(left + right);
      var _ := RenumberPastes(0, 0);
      redo := [];
      CanonicalSettles(ts[..i] + ts[j..], maxBytes);
      ShowCut(ts, i, j);
      ShowCanonical(ts[..i] + ts[j..], 1);
    }

    // ----- finding places -----

    /** The line around the cursor; its ends lie between tokens. */
    method LineBounds() returns (start: int, end: int, ghost i: nat, ghost j: nat)
      requires Settled()
      ensures i <= |left| <= j <= |Tokens()| && start == At(Tokens(), i) && end == At(Tokens(), j)
      ensures IsLine(Tokens(), i, |left|, j)
    {
      hide *;
      ghost var ts, n := Tokens(), |left|;
      SettledParts();
      start, end := cursor, cursor;
      while start > 0 && graphemes[start - 1] != '\n'
        invariant 0 <= start <= cursor
        invariant forall p :: start <= p < cursor ==> graphemes[p] != '\n'
      {
        start := start - 1;
      }
      while end < |graphemes| && graphemes[end] != '\n'
        invariant cursor <= end <= |graphemes|
        invariant forall p :: cursor <= p < end ==> graphemes[p] != '\n'
      {
        end := end + 1;
      }
      i := LineBegins(ts, n, start);
      j := LineEnds(ts, n, end);
      LineIs(ts, i, n, j);
    }

    /** Where a word move to the left ends: between tokens, and never inside a marker. */
    method WordBackward() returns (p: int, ghost k: nat)
      requires Settled()
      ensures k <= |left| && p == At(Tokens(), k) && WordBack(Tokens(), |left|, k)
    {
      hide *;
      ghost var ts, n := Tokens(), |left|;
      SettledParts();
      BeforeCursor(ts, n);
      p, k := cursor, n;
      if p > 0 && graphemes[p - 1] == '\n' {
        WordBackNewline(ts, n);
        p, k := p - 1, n - 1;
        return;
      }
      while p > 0 && PasteAt(pastes, p - 1).None? && IsSpace(graphemes[p - 1])
        invariant k <= n && p == At(ts, k) && 0 <= p <= |graphemes|
        invariant forall i :: k <= i < n ==> IsSpaceToken(ts[i])
        decreases k
      {
        BeforeCursor(ts, k);
        p, k := UnitStart(p), k - 1;
      }
      BeforeCursor(ts, k);
      var paste := PasteAt(pastes, p - 1);
      if paste.Some? {
        WordBackMarker(ts, n, k);
        p, k := paste.value.start, k - 1;
      } else {
        ghost var m := k;
        var r, edge := FindWordBackward(graphemes, cursor);
        k := WordTokensLeft(ts, m, n, edge, r);
        WordBackBy(ts, n, m, k);
        p := r;
      }
    }

    method WordForward() returns (p: int, ghost k: nat)
      requires Settled()
      ensures |left| <= k <= |Tokens()| && p == At(Tokens(), k) && WordOn(Tokens(), |left|, k)
    {
      hide *;
      ghost var ts, n := Tokens(), |left|;
      SettledParts();
      AfterCursor(ts, n);
      p, k := cursor, n;
      if p < |graphemes| && graphemes[p] == '\n' {
        WordOnNewline(ts, n);
        p, k := p + 1, n + 1;
        return;
      }
      while p < |graphemes| && PasteAt(pastes, p).None? && IsSpace(graphemes[p])
        invariant n <= k <= |ts| && p == At(ts, k) && 0 <= p <= |graphemes|
        invariant forall i :: n <= i < k ==> IsSpaceToken(ts[i])
        decreases |ts| - k
      {
        AfterCursor(ts, k);
        p, k := UnitEnd(p), k + 1;
      }
      AfterCursor(ts, k);
      var paste := PasteAt(pastes, p);
      if paste.Some? {
        WordOnMarker(ts, n, k);
        p, k := paste.value.end, k + 1;
      } else {
        ghost var m := k;
        var r, edge := FindWordForward(graphemes, cursor);
        k := WordTokensRight(ts, n, m, edge, r);
        WordOnBy(ts, n, m, k);
        p := r;
      }
    }

    // ----- moving -----

    method MoveLeft(word: bool)
      requires Valid()
      modifies this`cursor, this`left, this`right, this`lastAction, this`lastYank
      ensures Valid() && Tokens() == old(Tokens())
      ensures !word ==> |left| == if |old(left)| == 0 then 0 else |old(left)| - 1
      ensures word ==> WordBack(Tokens(), |old(left)|, |left|)
    {
      hide *;
      ValidParts();
      BreakAction();
      if word {
        var p, k := WordBackward();
        TokensAre();
        MoveTo(p, k);
      } else {
        ghost var n := |left|;
        SettledParts();
        BeforeCursor(Tokens(), n);
        AtZero(Tokens());
        if n > 0 {
          MarkerOfPaste(Tokens()[n - 1], At(Tokens(), n - 1));
        }
        MoveTo(if cursor > 0 then UnitStart(cursor) else 0, if n > 0 then n - 1 else 0);
      }
      SettledIsValid();
    }

    method MoveRight(word: bool)
      requires Valid()
      modifies this`cursor, this`left, this`right, this`lastAction, this`lastYank
      ensures Valid() && Tokens() == old(Tokens())
      ensures !word ==> |left| == if old(right) == [] then |old(left)| else |old(left)| + 1
      ensures word ==> WordOn(Tokens(), |old(left)|, |left|)
    {
      hide *;
      ValidParts();
      BreakAction();
      if word {
        var p, k := WordForward();
        MoveTo(p, k);
      } else {
        ghost var n := |left|;
        SettledParts();
        AfterCursor(Tokens(), n);
        if n < |Tokens()| {
          MarkerOfPaste(Tokens()[n], At(Tokens(), n));
        }
        MoveTo(if cursor < |graphemes| then UnitEnd(cursor) else |graphemes|, if right != [] then n + 1 else n);
      }
      SettledIsValid();
    }

    method MoveHome(document: bool)
      requires Valid()
      modifies this`cursor, this`left, this`right, this`lastAction, this`lastYank
      ensures Valid() && Tokens() == old(Tokens())
      ensures document ==> left == []
      ensures !document ==> exists j :: IsLine(Tokens(), |left|, |old(left)|, j)
    {
      hide Text, Marks, Canonical, InBudget, Titled, At, Labelled, Alike, FragmentOf, IsLine, Settled;
      BreakAction();
      if document {
        AtZero(Tokens());
        MoveTo(0, 0);
      } else {
        var start, _, i, j := LineBounds();
        MoveTo(start, i);
      }
    }

    method MoveEnd(document: bool)
      requires Valid()
      modifies this`cursor, this`left, this`right, this`lastAction, this`lastYank
      ensures Valid() && Tokens() == old(Tokens())
      ensures document ==> right == []
      ensures !document ==> exists i :: IsLine(Tokens(), i, |old(left)|, |left|)
    {
      hide Text, Marks, Canonical, InBudget, Titled, At, Labelled, Alike, FragmentOf, IsLine, Settled;
      BreakAction();
      if document {
        SettledParts();
        AtEnds(Tokens());
        MoveTo(|graphemes|, |Tokens()|);
      } else {
        var _, end, i, j := LineBounds();
        MoveTo(end, j);
      }
    }

    // ----- deleting without killing -----

    /** Deletes the one character or the one marker before the cursor. */
    method Backspace()
      requires Valid()
      modifies this`graphemes, this`pastes, this`cursor, this`left, this`right, this`undo, this`redo
      modifies this`lastAction, this`lastYank
      ensures Valid()
      ensures old(left) == [] ==> Tokens() == old(Tokens())
      ensures old(left) != [] ==>
        && Tokens() == Canonical(old(left)[..|old(left)| - 1] + old(right), 1) && |left| == |old(left)| - 1
    {
      hide *;
      ValidParts();
      ghost var ts, n := Tokens(), |left|;
      SettledParts();
      BeforeCursor(ts, n);
      if cursor == 0 {
        return;
      }
      BreakAction();
      OneToTheLeft(left, right);
      MarkerOfPaste(ts[n - 1], At(ts, n - 1));
      var _ := DeleteRange(UnitStart(cursor), cursor, true, n - 1, n);
      SettledIsValid();
    }

    /** Deletes the one character or the one marker after the cursor. */
    method DeleteForward()
      requires Valid()
      modifies this`graphemes, this`pastes, this`cursor, this`left, this`right, this`undo, this`redo
      modifies this`lastAction, this`lastYank
      ensures Valid()
      ensures old(right) == [] ==> Tokens() == old(Tokens())
      ensures old(right) != [] ==>
        && Tokens() == Canonical(old(left) + old(right)[1..], 1) && |left| == |old(left)|
    {
      hide *;
      ValidParts();
      ghost var ts, n := Tokens(), |left|;
      SettledParts();
      AfterCursor(ts, n);
      if cursor >= |graphemes| {
        return;
      }
      BreakAction();
      OneToTheRight(left, right);
      MarkerOfPaste(ts[n], At(ts, n));
      var _ := DeleteRange(cursor, UnitEnd(cursor), true, n, n + 1);
      SettledIsValid();
    }

    lemma ValidParts()
      requires Valid()
      ensures Settled() && RingOk()
    {
      hide Settled, RingOk, ChainOk, YankOk;
    }

    // ----- killing -----

    static function RingBytes(entries: seq<Fragment>): int {
      if entries == [] then 0 else RingBytes(entries[..|entries| - 1]) + FragmentBytes(entries[|entries| - 1])
    }

    /** Drops the oldest entries until the ring is within its limits; the newest one fits. */
    method EvictKills(ghost before: seq<Token>)
      requires RingOk() && ring != [] && killHead == 0 && InBudget(before, maxBytes)
      requires Alike(before, left + ring[0] + right)
      modifies this`killRing, this`ring
      ensures RingOk() && ring != [] && killHead == 0 && ring[0] == old(ring[0])
    {
      hide Alike, InBudget, FragmentOf, FragmentBytes, RingBytes, Titled, AllShow;
      NewestFits(left, ring[0], right, before, maxBytes);
      ghost var newest := ring[0];
      while |killRing| > MAX_KILL_RING_ENTRIES || RingBytes(killRing) > maxBytes
        invariant RingOk() && ring != [] && killHead == 0 && ring[0] == newest
        decreases |killRing|
        modifies this`killRing, this`ring
      {
        if |killRing| == 1 {
          OneEntry(killRing);
          assert false;
        }
        killRing, ring := killRing[..|killRing| - 1], ring[..|ring| - 1];
      }
    }

    /** Puts what was taken in front of the newest entry of a run of kills, or behind it. */
    method JoinKill(fragment: Fragment, forward: bool, ghost taken: seq<Token>)
      requires RingOk() && ring != [] && fragment == FragmentOf(taken)
      requires taken != [] && Titled(taken) && AllShow(taken)
      modifies this`killRing, this`ring
      ensures RingOk() && ring == [if forward then old(ring[0]) + taken else taken + old(ring[0])] + old(ring)[1..]
    {
      hide FragmentOf, ConcatFragments, Titled, AllShow;
      ConcatIsJoin(taken, ring[0]);
      ConcatIsJoin(ring[0], taken);
      TitledJoin(taken, ring[0]);
      TitledJoin(ring[0], taken);
      ShowJoin(taken, ring[0]);
      ShowJoin(ring[0], taken);
      killRing := [if forward then ConcatFragments(killRing[0], fragment) else ConcatFragments(fragment, killRing[0])]
        + killRing[1..];
      ring := [if forward then ring[0] + taken else taken + ring[0]] + ring[1..];
    }

    /** Files a killed fragment, joining it to the newest one while kills follow one another. Old
        entries are dropped for room, but never the newest. */
    method RecordKill(fragment: Fragment, forward: bool, ghost taken: seq<Token>, ghost before: seq<Token>)
      requires Settled() && RingOk() && fragment == FragmentOf(taken)
      requires taken != [] && Titled(taken) && AllShow(taken)
      requires before == Canonical(before, 1) && InBudget(before, maxBytes) && Alike(before, left + taken + right)
      requires IsKill(lastAction) ==> ring != [] && killHead == 0
      requires IsKill(lastAction) ==>
        && origin == Canonical(origin, 1) && InBudget(origin, maxBytes)
        && Alike(origin, left + (if forward then ring[0] + taken else taken + ring[0]) + right)
      modifies this`killRing, this`killHead, this`lastAction, this`lastYank, this`ring, this`origin
      ensures RingOk() && ChainOk() && IsKill(lastAction) && lastYank.None?
      ensures origin == if IsKill(old(lastAction)) then old(origin) else before
    {
      hide Canonical, InBudget, Alike, FragmentOf, Titled, Settled, AllShow;
      if IsKill(lastAction) && killRing != [] {
        JoinKill(fragment, forward, taken);
      } else {
        killRing, killHead := [fragment] + killRing, 0;
        ring, origin := [taken] + ring, before;
      }
      EvictKills(origin);
      lastAction, lastYank := if forward then KillForward else KillBackward, None;
    }

    /** Deletes a range on one side of the cursor and files it in the kill ring. */
    method Kill(start: int, end: int, forward: bool, ghost from: nat, ghost to: nat)
      requires Valid() && from <= to <= |Tokens()| && (if forward then from == |left| else to == |left|)
      requires start == At(Tokens(), from) && end == At(Tokens(), to)
      modifies this
      ensures Valid() && from <= to <= |old(Tokens())|
      ensures from == to ==>
        Tokens() == old(Tokens()) && lastAction == old(lastAction) && ring == old(ring) && origin == old(origin)
      ensures from < to ==>
        && Killed(old(Tokens()), from, to, Tokens(), |left|) && IsKill(lastAction)
        && origin == if IsKill(old(lastAction)) then old(origin) else old(Tokens())
    {
      hide Text, Marks, Canonical, InBudget, At, Labelled, Titled, Alike, FragmentMarks, AllShow;
      ghost var ts := Tokens();
      CanonicalIsTitled(ts);
      ghost var l, r, o := left, right, origin;
      var removed := DeleteRange(start, end, true, from, to);
      if removed.Some? {
        KillKeepsAlike(ts, from, to, left, right, l, r, o, if IsKill(lastAction) then ring[0] else [], forward);
        TitledPart(ts, from, to);
        ShowPart(ts, from, to);
        RecordKill(removed.value, forward, ts[from..to], ts);
      }
    }

    /** Kills back to the start of the line, or one line feed at the start of a line. */
    method DeleteToLineStart() returns (ghost from: nat, ghost to: nat)
      requires Valid()
      modifies this
      ensures Valid() && from <= to <= |old(Tokens())|
      ensures from == to ==>
        Tokens() == old(Tokens()) && lastAction == old(lastAction) && ring == old(ring) && origin == old(origin)
      ensures from < to ==>
        && Killed(old(Tokens()), from, to, Tokens(), |left|) && IsKill(lastAction)
        && origin == if IsKill(old(lastAction)) then old(origin) else old(Tokens())
      ensures to == |old(left)| && ToLineStart(old(Tokens()), from, to)
    {
      hide Text, Marks, Canonical, InBudget, Titled, At, Labelled, Alike, FragmentMarks, PasteAt, Killed, RingOk;
      hide ChainOk, YankOk, Settled;
      ghost var ts, n := Tokens(), |left|;
      SettledParts();
      from, to := n, n;
      BeforeCursor(ts, n);
      var start, _, i, _ := LineBounds();
      AtOrder(ts, n, i);
      var p := start;
      ghost var k := i;
      if start == cursor && cursor > 0 && graphemes[cursor - 1] == '\n' {
        p, k := cursor - 1, n - 1;
      }
      if p == cursor {
        return;
      }
      from := k;
      Kill(p, cursor, false, from, to);
    }

    /** Kills up to the end of the line, or one line feed at the end of a line. */
    method DeleteToLineEnd() returns (ghost from: nat, ghost to: nat)
      requires Valid()
      modifies this
      ensures Valid() && from <= to <= |old(Tokens())|
      ensures from == to ==>
        Tokens() == old(Tokens()) && lastAction == old(lastAction) && ring == old(ring) && origin == old(origin)
      ensures from < to ==>
        && Killed(old(Tokens()), from, to, Tokens(), |left|) && IsKill(lastAction)
        && origin == if IsKill(old(lastAction)) then old(origin) else old(Tokens())
      ensures from == |old(left)| && ToLineEnd(old(Tokens()), from, to)
    {
      hide Text, Marks, Canonical, InBudget, Titled, At, Labelled, Alike, FragmentMarks, PasteAt, Killed, RingOk;
      hide ChainOk, YankOk, Settled;
      ghost var ts, n := Tokens(), |left|;
      SettledParts();
      from, to := n, n;
      AfterCursor(ts, n);
      var _, end, _, j := LineBounds();
      AtOrder(ts, j, n);
      var p := end;
      ghost var k := j;
      if end == cursor && end < |graphemes| && graphemes[end] == '\n' {
        p, k := end + 1, n + 1;
      }
      if p == cursor {
        return;
      }
      to := k;
      Kill(cursor, p, true, from, to);
    }

    method DeleteWordBackward() returns (ghost from: nat, ghost to: nat)
      requires Valid()
      modifies this
      ensures Valid() && from <= to <= |old(Tokens())|
      ensures from == to ==>
        Tokens() == old(Tokens()) && lastAction == old(lastAction) && ring == old(ring) && origin == old(origin)
      ensures from < to ==>
        && Killed(old(Tokens()), from, to, Tokens(), |left|) && IsKill(lastAction)
        && origin == if IsKill(old(lastAction)) then old(origin) else old(Tokens())
      ensures to == |old(left)| && WordBack(old(Tokens()), to, from)
    {
      hide Text, Marks, Canonical, InBudget, Titled, At, Labelled, Alike, FragmentMarks, PasteAt, Killed, RingOk;
      hide ChainOk, YankOk, Settled;
      ghost var ts, n := Tokens(), |left|;
      SettledParts();
      from, to := n, n;
      BeforeCursor(ts, n);
      if cursor == 0 {
        return;
      }
      var p, k := WordBackward();
      from := k;
      Kill(p, cursor, false, from, to);
    }

    method DeleteWordForward() returns (ghost from: nat, ghost to: nat)
      requires Valid()
      modifies this
      ensures Valid() && from <= to <= |old(Tokens())|
      ensures from == to ==>
        Tokens() == old(Tokens()) && lastAction == old(lastAction) && ring == old(ring) && origin == old(origin)
      ensures from < to ==>
        && Killed(old(Tokens()), from, to, Tokens(), |left|) && IsKill(lastAction)
        && origin == if IsKill(old(lastAction)) then old(origin) else old(Tokens())
      ensures from == |old(left)| && WordOn(old(Tokens()), from, to)
    {
      hide Text, Marks, Canonical, InBudget, Titled, At, Labelled, Alike, FragmentMarks, PasteAt, Killed, RingOk;
      hide ChainOk, YankOk, Settled;
      ghost var ts, n := Tokens(), |left|;
      SettledParts();
      from, to := n, n;
      AfterCursor(ts, n);
      if cursor >= |graphemes| {
        return;
      }
      var p, k := WordForward();
      to := k;
      Kill(cursor, p, true, from, to);
    }

    // ----- inserting -----

    /** The text with every payload in place of its marker. */
    method ExpandedText() returns (result: string)
      requires Settled()
      ensures result == Expand(Tokens())
    {
      hide *;
      ghost var ts := Tokens();
      SettledParts();
      MarksInside(ts, 0);
      result := "";
      var offset: nat := 0;
      ghost var k: nat := 0;
      StartScan(ts);
      for index := 0 to |pastes|
        invariant k <= |ts| && offset == At(ts, k) && result == Expand(ts[..k])
        invariant Marks(ts[k..], offset) == pastes[index..]
        invariant index == Count(ts[..k])
      {
        MoreToScan(ts, k, offset);
        ghost var j := FindPaste(ts, k);
        ScanMarks(ts, k, j);
        ScanText(ts, k, j);
        ScanExpand(ts, k, j);
        ScanCount(ts, k, j);
        ScanStep(ts, k, j, pastes, index);
        var paste := pastes[index];
        result := result + graphemes[offset..paste.start] + paste.payload;
        offset := paste.end;
        k := j + 1;
      }
      LastScan(ts, k);
      ScanEnd(ts, k, 1);
      result := result + graphemes[offset..];
    }

    method ExpandedByteLength() returns (n: nat)
      requires Settled()
      ensures n == Bytes(Expand(Tokens()))
    {
      var text := ExpandedText();
      n := Bytes(text);
    }

    lemma SettledParts()
      requires Settled()
      ensures graphemes == Text(Tokens()) && pastes == Marks(Tokens(), 0)
      ensures cursor == |Text(left)| == At(Tokens(), |left|) && 0 <= cursor <= |graphemes|
      ensures Tokens() == Canonical(Tokens(), 1) && InBudget(Tokens(), maxBytes) && AllShow(Tokens())
      ensures Titled(Tokens()) && Labelled(Tokens()) && Tokens() == left + right
      ensures |pastes| == Count(Tokens()) && Bytes(graphemes) == Fixed(Tokens()) + OrdinalDigits(1, Count(Tokens()))
    {
      hide Text, Marks, Canonical, InBudget, At, Labelled, Titled, Count, OrdinalDigits, Bytes, AllShow;
      CanonicalIsTitled(Tokens());
      CursorIsAt(left, right);
      MarksInside(Tokens(), 0);
      CanonicalBytes(Tokens(), 1);
    }

    method InsertChars(selected: string)
      requires Settled() && Bytes(selected) <= RoomFor(Tokens(), maxBytes) && Printable(selected)
      modifies this`graphemes, this`pastes, this`cursor, this`left
      ensures Settled() && left == old(left) + Chars(selected)
    {
      hide Text, Marks, Canonical, InBudget, Titled, At, Labelled, Alike, Bytes, Shifted, Chars, Count, OrdinalDigits;
      hide RoomFor, AllShow, Printable;
      CharsInserted(left, selected, right, maxBytes);
      CharsShowAll(selected);
      ShowInsert(left, Chars(selected), right);
      pastes := Shifted(pastes, cursor, |selected|);
      graphemes := graphemes[..cursor] + selected + graphemes[cursor..];
      cursor := cursor + |selected|;
      left := left + Chars(selected);
    }

    method Room() returns (available: nat)
      requires Settled()
      ensures available == RoomFor(Tokens(), maxBytes)
    {
      hide Text, Marks, Canonical, InBudget, Titled, At, Labelled, Bytes, Count, OrdinalDigits, Expand, Fixed;
      SettledParts();
      var expanded := ExpandedByteLength();
      var displayed := Bytes(graphemes);
      var room := if maxBytes - expanded < maxBytes - displayed then maxBytes - expanded else maxBytes - displayed;
      available := if room < 0 then 0 else room;
    }

    method InsertPlain(value: string) returns (ghost inserted: string)
      requires Valid()
      modifies this
      ensures Valid() && inserted == ByteTruncate(Sanitize(value), RoomFor(old(Tokens()), maxBytes))
      ensures left == old(left) + Chars(inserted) && right == old(right)
      ensures inserted != "" ==> !IsKill(lastAction)
      ensures inserted == "" ==> lastAction == old(lastAction)
      ensures killRing == old(killRing) && killHead == old(killHead)
    {
      hide Text, Marks, Canonical, InBudget, Titled, At, Labelled, Alike, Bytes, ByteTruncate, Sanitize, Chars;
      hide RoomFor, IsSpace, FragmentOf, Settled, RingOk, ChainOk, YankOk, Printable;
      NoChars(left);
      var safe := Sanitize(value);
      SanitizedShows(value);
      TruncatedShows(safe, RoomFor(Tokens(), maxBytes));
      inserted := ByteTruncate(safe, RoomFor(Tokens(), maxBytes));
      if safe == "" {
        return;
      }
      var available := Room();
      var selected := ByteTruncate(safe, available);
      if selected == "" {
        return;
      }
      var single := |selected| == 1;
      var action := if single && selected[0] == '\n' then InsertNewline
        else if single && IsSpace(selected[0]) then InsertBoundary else InsertWord;
      if !(single && action.InsertWord? && (lastAction.InsertWord? || lastAction.InsertBoundary?)) {
        RecordUndo();
      }
      InsertChars(selected);
      FinishInsert(if single then action else NoAction);
    }

    method FinishInsert(action: Action)
      requires Settled() && RingOk() && !IsKill(action) && !action.Yanked? && !action.YankPopped?
      modifies this`redo, this`lastYank, this`lastAction
      ensures Valid() && lastAction == action
    {
      hide Settled, RingOk;
      redo, lastYank := [], None;
      lastAction := action;
    }

    /** The tokens of a fragment with labels numbered on from the markers of the buffer. */
    method MaterializeFragment(fragment: Fragment, ghost f: seq<Token>) returns (m: Fragment)
      requires fragment == FragmentOf(f)
      ensures m == FragmentOf(Canonical(f, |pastes| + 1))
    {
      hide *;
      var n := |pastes| + 1;
      var shown, marks, offset: nat := "", [], 0;
      ghost var k: nat := 0;
      StartScan(f);
      FragmentParts(f);
      StartMaterial(f, n);
      FragmentMarksInside(f, 0);
      for index := 0 to |fragment.pastes|
        invariant k <= |f| && offset == At(f, k) && index == Count(f[..k])
        invariant FragmentMarks(f[k..], offset) == fragment.pastes[index..]
        invariant shown == Text(Canonical(f[..k], n)) && marks == FragmentMarks(Canonical(f[..k], n), 0)
        invariant |marks| == index
      {
        MoreToMaterialize(f, k, offset);
        ghost var j := FindPaste(f, k);
        ScanMarks(f, k, j);
        ScanText(f, k, j);
        ScanCount(f, k, j);
        FragmentStep(f, k, j, fragment.pastes, index);
        MaterialNext(f, k, j, n);
        var paste := fragment.pastes[index];
        shown := shown + fragment.graphemes[offset..paste.start];
        var title := PasteLabel(n + |marks|, paste.payload);
        marks := marks + [FragmentMarker(|shown|, |shown| + |title|, paste.payload)];
        shown := shown + title;
        offset := paste.end;
        k := j + 1;
      }
      LastScan(f, k);
      ScanEnd(f, k, n);
      MaterialEnd(Canonical(f[..k], n), f[k..]);
      FragmentParts(Canonical(f, n));
      m := Fragment(shown + fragment.graphemes[offset..], marks);
    }

    /** Inserts the tokens of a fragment at the cursor. The caller has checked what they expand to. */
    method InsertFragment(fragment: Fragment, ghost f: seq<Token>) returns (inserted: Option<(int, int)>)
      requires Settled() && Titled(f) && AllShow(f) && fragment == FragmentOf(f)
      requires Bytes(Expand(left + f + right)) <= maxBytes
      modifies this`graphemes, this`pastes, this`cursor, this`left, this`right
      ensures Settled()
      ensures inserted.Some? <==> f != [] && InBudget(old(left) + f + old(right), maxBytes)
      ensures inserted.None? ==> left == old(left) && right == old(right)
      ensures inserted.Some? ==>
        && Tokens() == Canonical(old(left) + f + old(right), 1) && |left| == |old(left)| + |f|
        && inserted.value.0 == At(Tokens(), |old(left)|) && inserted.value.1 == At(Tokens(), |left|)
    {
      hide Text, Marks, Canonical, InBudget, Titled, At, Labelled, Bytes, Shifted, Count, OrdinalDigits;
      hide FragmentMarks, Fixed, ToMarkers, SortByStart, Expand, AllShow;
      SettledParts();
      FragmentMarksInside(f, 0);
      InsertedCounts(left, f, right, maxBytes);
      if |pastes| + |fragment.pastes| > MAX_PASTE_MARKERS {
        return None;
      }
      var material := MaterializeFragment(fragment, f);
      ghost var us := Canonical(f, |pastes| + 1);
      MaterialIsSome(f, |pastes| + 1);
      if material.graphemes == "" {
        return None;
      }
      if Bytes(graphemes) + Bytes(material.graphemes) > maxBytes {
        return None;
      }
      var start := cursor;
      ghost var l, r := left, right;
      InsertedAlike(l, f, |pastes| + 1, r, maxBytes);
      TokensInserted(l, us, r);
      MarkersOf(Text(l), f, |pastes| + 1, Text(r));
      var ordinal := |pastes| + 1;
      pastes := Shifted(pastes, start, |material.graphemes|);
      graphemes := graphemes[..start] + material.graphemes + graphemes[start..];
      pastes := pastes + ToMarkers(graphemes, material.pastes, start, ordinal);
      cursor := start + |material.graphemes|;
      left := l + us;
      StartIs(l, us, r);
      var adjusted := RenumberPastes(start, |l|);
      SettledParts2(left, right);
      ShowInsert(l, f, r);
      ShowCanonical(l + f + r, 1);
      return Some((adjusted, cursor));
    }

    /** Puts one marker at the cursor. */
    method InsertMarker(payload: string)
      requires Settled() && InBudget(left + [Paste(payload, "", 0)] + right, maxBytes) && Printable(payload)
      modifies this`graphemes, this`pastes, this`cursor, this`left, this`right
      ensures Settled() && |left| == |old(left)| + 1
      ensures Tokens() == Canonical(old(left) + [Paste(payload, "", 0)] + old(right), 1)
    {
      hide Text, Marks, Canonical, InBudget, Titled, At, Labelled, Bytes, Shifted, Count, OrdinalDigits, Fixed;
      hide SortByStart, PasteLabel, AllShow, Printable;
      SettledParts();
      ghost var l, r := left, right;
      var n := |pastes| + 1;
      var title := PasteLabel(n, payload);
      ghost var us := [Paste(payload, title, n)];
      OneMarker(l, payload, n, r, maxBytes);
      TokensInserted(l, us, r);
      var start := cursor;
      pastes := Shifted(pastes, start, |title|);
      graphemes := graphemes[..start] + title + graphemes[start..];
      pastes := pastes + [Marker(start, start + |title|, payload, title, n)];
      cursor := start + |title|;
      left := l + us;
      AtZero(left + right);
      var _ := RenumberPastes(0, 0);
      OnePayloadShows(payload);
      ShowInsert(l, [Paste(payload, "", 0)], r);
      ShowCanonical(l + [Paste(payload, "", 0)] + r, 1);
    }

    /** Inserts a paste: small ones as text, large ones as a marker, cut to what still fits. */
    method InsertPaste(value: string) returns (ghost payload: string)
      requires Valid()
      modifies this
      ensures Valid()
      ensures !IsLarge(Sanitize(value)) ==>
        && payload == ByteTruncate(Sanitize(value), RoomFor(old(Tokens()), maxBytes))
        && Tokens() == old(left) + Chars(payload) + old(right)
      ensures IsLarge(Sanitize(value)) ==>
        payload == ByteTruncate(Sanitize(value), maxBytes - Bytes(Expand(old(Tokens()))))
      ensures IsLarge(Sanitize(value)) ==>
        if payload != "" && InBudget(old(left) + [Paste(payload, "", 0)] + old(right), maxBytes)
        then Tokens() == Canonical(old(left) + [Paste(payload, "", 0)] + old(right), 1) && |left| == |old(left)| + 1
        else Tokens() == old(Tokens()) && left == old(left)
    {
      hide Text, Marks, Canonical, Titled, At, Labelled, Alike, Bytes, ByteTruncate, Sanitize, Chars, RoomFor;
      hide FragmentOf, LineCount, Count, Fixed, OrdinalDigits, Settled, RingOk, PasteLabel, Expand, Printable, AllShow;
      var safe := Sanitize(value);
      SanitizedShows(value);
      NothingFits();
      SettledParts();
      NoChars(left);
      payload := "";
      if safe == "" {
        return;
      }
      if !IsLarge(safe) {
        payload := InsertPlain(safe);
        SanitizedTwice(value);
        return;
      }
      var expanded := ExpandedByteLength();
      var available := if maxBytes - expanded < 0 then 0 else maxBytes - expanded;
      payload := ByteTruncate(safe, available);
      MarkerFits(left, payload, |pastes| + 1, right, maxBytes);
      if |pastes| >= MAX_PASTE_MARKERS {
        return;
      }
      var kept := ByteTruncate(safe, available);
      TruncatedShows(safe, available);
      if kept == "" {
        return;
      }
      if Bytes(graphemes) + Bytes(PasteLabel(|pastes| + 1, kept)) > maxBytes {
        return;
      }
      RecordUndo();
      BreakAction();
      InsertMarker(kept);
      redo := [];
    }

    // ----- yanking -----

    /** Whether a fragment fits into the buffer: its markers, what it expands to, and what it shows. */
    method FragmentFits(fragment: Fragment, ghost f: seq<Token>) returns (ok: bool)
      requires Settled() && fragment == FragmentOf(f)
      ensures ok <==> InBudget(left + f + right, maxBytes)
      ensures ok ==> Bytes(Expand(left + f + right)) <= maxBytes
    {
      hide *;
      SettledParts();
      FragmentCounts(f);
      YankChecks(left, f, right, maxBytes);
      if |pastes| + |fragment.pastes| > MAX_PASTE_MARKERS {
        return false;
      }
      var expanded := ExpandedByteLength();
      if expanded + FragmentBytes(fragment) > maxBytes {
        return false;
      }
      var material := MaterializeFragment(fragment, f);
      FragmentParts(Canonical(f, |pastes| + 1));
      return Bytes(graphemes) + Bytes(material.graphemes) <= maxBytes;
    }

    lemma ChainParts()
      requires ChainOk()
      ensures IsKill(lastAction) ==>
        && ring != [] && killHead == 0
        && Alike(origin, left + ring[0] + right) && origin == Canonical(origin, 1) && InBudget(origin, maxBytes)
    {
      hide Alike, Canonical, InBudget;
    }

    /** After a yank: where its tokens are, and which entry they are. */
    method RememberYank(action: Action, start: int, end: int, ringIndex: nat, ghost from: nat, ghost to: nat)
      requires Settled() && RingOk() && (action.Yanked? || action.YankPopped?) && ringIndex < |ring|
      requires from < to <= |Tokens()| && start == At(Tokens(), from) && end == At(Tokens(), to)
      modifies this`lastAction, this`lastYank, this`yankAt, this`yankEnd, this`redo
      ensures Valid() && lastAction == action && lastYank == Some(YankRange(start, end, ringIndex))
      ensures yankAt == from && yankEnd == to
    {
      hide Settled, RingOk, At;
      lastAction, lastYank := action, Some(YankRange(start, end, ringIndex));
      yankAt, yankEnd := from, to;
      redo := [];
    }

    lemma HeadParts()
      requires RingOk()
      ensures |killRing| == |ring|
      ensures killRing != [] ==>
        && killHead < |ring| && killRing[killHead] == FragmentOf(ring[killHead])
        && ring[killHead] != [] && Titled(ring[killHead]) && AllShow(ring[killHead])
    {
      hide FragmentOf, Titled, AllShow;
    }

    /** Puts the entry at the head of the kill ring back at the cursor. It is refused exactly when
        there is none or the result would not fit; after kills that followed one another it is
        never refused, and brings back the buffer as it was before the first of them. */
    method Yank() returns (ok: bool)
      requires Valid()
      modifies this
      ensures Valid()
      ensures ok <==> old(killRing) != [] && InBudget(old(left) + old(ring[killHead]) + old(right), maxBytes)
      ensures ok ==>
        && Tokens() == Canonical(old(left) + old(ring[killHead]) + old(right), 1)
        && |left| == |old(left)| + |old(ring[killHead])|
      ensures !ok ==> Tokens() == old(Tokens()) && left == old(left)
      ensures IsKill(old(lastAction)) ==> ok && Tokens() == old(origin)
    {
      hide Text, Marks, Canonical, InBudget, Titled, At, Labelled, Alike, Bytes, Count, OrdinalDigits, Fixed, Expand;
      hide FragmentMarks, FragmentBytes, Settled, RingOk, FragmentOf, ChainOk, YankOk;
      HeadParts();
      ChainParts();
      if killRing == [] {
        return false;
      }
      var fragment := killRing[killHead];
      ghost var f := ring[killHead];
      ghost var l, r := left, right;
      KilledFits(left, f, right, origin, maxBytes);
      var fits := FragmentFits(fragment, f);
      if !fits {
        return false;
      }
      RecordUndo();
      BreakAction();
      var inserted := InsertFragment(fragment, f);
      assert inserted.Some?;
      RememberYank(Yanked, inserted.value.0, inserted.value.1, killHead, |l|, |left|);
      ok := true;
    }

    /** Whether a fragment fits in place of the tokens of the last yank. */
    method ReplacementFits(range: YankRange, replacement: Fragment, ghost i: nat, ghost j: nat, ghost f: seq<Token>)
      returns (ok: bool)
      requires Settled() && i <= j <= |Tokens()| && range.start == At(Tokens(), i) && range.end == At(Tokens(), j)
      requires replacement == FragmentOf(f)
      ensures ok <==> Replaceable(Tokens(), i, j, f, maxBytes)
      ensures ok ==> InBudget(Tokens()[..i] + f + Tokens()[j..], maxBytes)
    {
      hide *;
      ghost var ts := Tokens();
      ReplaceableIs(ts, i, j, f, maxBytes);
      SettledParts();
      AtOrder(ts, i, j);
      SliceIsText(ts, i, j);
      var current := Fragment(graphemes[range.start..range.end], Inside(pastes, range.start, range.end));
      InsideIsFragment(ts, i, j);
      FragmentCounts(ts[i..j]);
      FragmentCounts(f);
      FragmentParts(ts[i..j]);
      ReplacementChecks(ts, i, j, f, maxBytes);
      if |pastes| - |current.pastes| + |replacement.pastes| > MAX_PASTE_MARKERS {
        return false;
      }
      var expanded := ExpandedByteLength();
      if expanded - FragmentBytes(current) + FragmentBytes(replacement) > maxBytes {
        return false;
      }
      var material := MaterializeFragment(replacement, f);
      FragmentParts(Canonical(f, |pastes| + 1));
      return Bytes(graphemes) - Bytes(current.graphemes) + Bytes(material.graphemes) <= maxBytes;
    }

    /** Replaces the tokens of the last yank by those of a fragment that fits. */
    method Replace(
      range: YankRange, replacement: Fragment, ringIndex: nat, ghost i: nat, ghost j: nat, ghost f: seq<Token>)
      requires Settled() && RingOk() && i < j <= |Tokens()|
      requires range.start == At(Tokens(), i) && range.end == At(Tokens(), j)
      requires replacement == FragmentOf(f) && f != [] && Titled(f) && AllShow(f) && ringIndex < |ring|
      requires InBudget(Tokens()[..i] + f + Tokens()[j..], maxBytes)
      modifies this
      ensures Valid() && killHead == ringIndex
      ensures Tokens() == Canonical(old(Tokens())[..i] + f + old(Tokens())[j..], 1)
    {
      hide Text, Marks, Canonical, InBudget, Titled, At, Alike, Bytes, Expand, Settled, FragmentOf, Valid, AllShow;
      ghost var ts := Tokens();
      RecordUndo();
      BreakAction();
      var _ := DeleteRange(range.start, range.end, false, i, j);
      AfterDeletion(ts, i, j, left, right, f, maxBytes);
      var inserted := InsertFragment(replacement, f);
      assert inserted.Some?;
      killHead := ringIndex;
      RememberYank(YankPopped, inserted.value.0, inserted.value.1, ringIndex, i, |left|);
    }

    /** Replaces what the last yank inserted by the next older entry of the kill ring. When its
        checks pass, the insertion after the deletion cannot fail: nothing is lost. */
    method YankPop() returns (ok: bool)
      requires Valid()
      modifies this
      ensures Valid()
      ensures !ok ==> Tokens() == old(Tokens()) && left == old(left)
      ensures ok <==>
        && (old(lastAction).Yanked? || old(lastAction).YankPopped?) && old(lastYank).Some? && |old(ring)| >= 2
        && var next := (old(lastYank).value.ringIndex + 1) % |old(ring)|;
           Replaceable(old(Tokens()), old(yankAt), old(yankEnd), old(ring)[next], maxBytes)
      ensures ok ==>
        var next := (old(lastYank).value.ringIndex + 1) % |old(ring)|;
        && killHead == next
        && Tokens() == Canonical(
             old(Tokens())[..old(yankAt)] + old(ring)[next] + old(Tokens())[old(yankEnd)..], 1)
    {
      hide Text, Marks, Canonical, InBudget, Titled, At, Settled, ChainOk, FragmentOf, Replaceable, AllShow;
      if !(lastAction.Yanked? || lastAction.YankPopped?) || lastYank.None? || |killRing| < 2 {
        return false;
      }
      var previous := lastYank.value;
      var ringIndex := (previous.ringIndex + 1) % |killRing|;
      var replacement := killRing[ringIndex];
      ghost var f, i, j := ring[ringIndex], yankAt, yankEnd;
      ok := ReplacementFits(previous, replacement, i, j, f);
      if ok {
        Replace(previous, replacement, ringIndex, i, j, f);
      }
    }

    // ----- kills and a yank -----

    method RunKill(command: KillCommand) returns (ghost from: nat, ghost to: nat)
      requires Valid()
      modifies this
      ensures Valid() && from <= to <= |old(Tokens())|
      ensures from == to ==>
        Tokens() == old(Tokens()) && lastAction == old(lastAction) && ring == old(ring) && origin == old(origin)
      ensures from < to ==>
        && Killed(old(Tokens()), from, to, Tokens(), |left|) && IsKill(lastAction)
        && origin == if IsKill(old(lastAction)) then old(origin) else old(Tokens())
    {
      match command {
        case ToStart => from, to := DeleteToLineStart();
        case ToEnd => from, to := DeleteToLineEnd();
        case BackOneWord => from, to := DeleteWordBackward();
        case OnOneWord => from, to := DeleteWordForward();
      }
    }

    /** Any run of kills, forward and backward mixed, that took something is undone by one yank:
        the same text, the same markers, the same payloads. */
    method KillThenYank(commands: seq<KillCommand>) returns (ok: bool, ghost took: bool)
      requires Valid() && !IsKill(lastAction)
      modifies this
      ensures Valid() && (took ==> ok)
      ensures took ==> Tokens() == old(Tokens()) && graphemes == old(graphemes) && pastes == old(pastes)
    {
      hide Text, Marks, Canonical, InBudget, Alike, Killed, RingOk, ChainOk, YankOk;
      took := false;
      for i := 0 to |commands|
        invariant Valid() && took == IsKill(lastAction)
        invariant if took then origin == old(Tokens()) else Tokens() == old(Tokens())
      {
        ghost var from, to := RunKill(commands[i]);
        took := took || from < to;
      }
      ok := Yank();
    }

    // ----- snapshots and history -----

    /** The nearer end of a marker that a position lies inside, or the position itself. */
    method CursorBoundary(position: nat, ghost ts: seq<Token>) returns (p: int, ghost k: nat)
      requires Titled(ts) && pastes == Marks(ts, 0) && position <= |Text(ts)|
      ensures k <= |ts| && p == At(ts, k) && NearestPlace(ts, position, k)
    {
      hide Text, Marks, Titled, PasteAt, At, NearestPlace;
      AtEnds(ts);
      var paste := PasteAt(pastes, position);
      p := position;
      if position == |Text(ts)| {
        PasteAtEnd(ts, position);
        k := |ts|;
      } else {
        k := TokenAt(ts, position);
        PasteAtToken(ts, k, position);
        AtNext(ts, k);
      }
      ghost var inside := k;
      if paste.Some? && position != paste.value.start {
        if position - paste.value.start < paste.value.end - position {
          p := paste.value.start;
        } else {
          p, k := paste.value.end, k + 1;
        }
        PlaceInside(ts, inside, position, k);
      } else {
        PlaceHere(ts, k);
      }
    }

    /** The markers of a snapshot that come back with the text. */
    method ChooseMarkers(pastes: seq<Marker>) returns (choice: Choice)
      ensures choice == ChoiceFor(graphemes, pastes, maxBytes)
    {
      hide ConsiderAll, Consider, SortByStart, Start;
      var candidates := First(SortByStart(pastes), MAX_PASTE_MARKERS);
      choice := Start(graphemes);
      AllFrom(graphemes, choice, candidates, maxBytes);
      for index := 0 to |candidates|
        invariant ConsiderAll(graphemes, Start(graphemes), candidates, maxBytes)
          == ConsiderAll(graphemes, choice, candidates[index..], maxBytes)
      {
        OneFrom(graphemes, choice, candidates, index, maxBytes);
        choice := Consider(graphemes, choice, candidates[index], maxBytes);
      }
      NoneFrom(graphemes, choice, candidates, maxBytes);
    }

    lemma LooseWhole(ts: seq<Token>, k: nat)
      requires k <= |ts| && left == ts[..k] && right == ts[k..] && Titled(ts)
      requires graphemes == Text(ts) && pastes == Marks(ts, 0) && cursor == At(ts, k)
      ensures Loose() && Tokens() == ts && |Tokens()| == |ts|
    {
      hide Text, Marks, Titled, SortByStart;
      assert left + right == ts;
      MarksAscend(ts, 0);
      SortedAlready(pastes);
    }

    lemma SettledWhole(ts: seq<Token>)
      requires Titled(ts) && InBudget(ts, maxBytes) && AllShow(ts) && Tokens() == Canonical(ts, 1)
      requires graphemes == Text(Tokens()) && pastes == Marks(Tokens(), 0) && cursor == |Text(left)|
      ensures Settled()
    {
      hide Text, Marks, Titled, InBudget, Canonical, AllShow;
      CanonicalSettles(ts, maxBytes);
      ShowCanonical(ts, 1);
    }

    lemma SettledIsValid()
      requires Settled() && RingOk() && lastAction.NoAction?
      ensures Valid()
    {
      hide Settled, RingOk;
    }

    /** Puts a snapshot into the buffer, whatever it holds: markers that do not fit the text, or the
        budgets, become plain text. The cursor goes to its place, unless that is inside a marker. */
    method Restore(snapshot: Snapshot) returns (ghost ts: seq<Token>)
      requires RingOk()
      modifies this`graphemes, this`pastes, this`cursor, this`left, this`right, this`lastAction, this`lastYank
      ensures Valid() && lastAction.NoAction?
      ensures RestoresTo(Tokens(), ts, snapshot, maxBytes)
      ensures |ts| == |Tokens()| && NearestPlace(ts, Clamped(snapshot.cursor, |Text(ts)|), |left|)
    {
      hide *;
      graphemes := ByteTruncate(Sanitize(snapshot.text), maxBytes);
      var choice := ChooseMarkers(snapshot.pastes);
      ts := TokensOf(snapshot, maxBytes);
      pastes := choice.chosen;
      var clamped := Clamped(snapshot.cursor, |graphemes|);
      ghost var k;
      cursor, k := CursorBoundary(clamped, ts);
      left, right := ts[..k], ts[k..];
      LooseWhole(ts, k);
      AtZero(ts);
      var _ := RenumberPastes(0, 0);
      SettledWhole(ts);
      BreakAction();
      SettledIsValid();
    }

    /** Takes a snapshot of the buffer and restores it. The buffer and the cursor come back if and
        only if the text fits with its first markers expanded, however many. */
    method SnapshotThenRestore()
      requires Valid()
      modifies this`graphemes, this`pastes, this`cursor, this`left, this`right, this`lastAction, this`lastYank
      ensures Valid()
      ensures Tokens() == old(Tokens())
        <==> forall k :: 0 <= k <= |old(Tokens())| ==> PartlyExpanded(old(Tokens()), k) <= maxBytes
      ensures Tokens() == old(Tokens()) ==> left == old(left) && right == old(right)
    {
      hide *;
      ghost var us, n := Tokens(), |left|;
      ValidParts();
      SettledParts();
      SplitAgain(left, right);
      PayloadsAreShown(us);
      TextShows(us);
      AtOrder(us, n, |us|);
      SnapshotIs();
      var snapshot := CurrentSnapshot();
      ClampedIs(cursor, |graphemes|);
      ghost var ts := Restore(snapshot);
      RestoresToParts(Tokens(), ts, snapshot, maxBytes);
      RestoreBringsBack(us, snapshot.cursor, ts, maxBytes);
      if ts == us {
        PlaceIs(us, At(us, n), |left|, n);
      }
      ValidParts();
      SettledParts();
      SplitAgain(left, right);
    }

    lemma SnapshotIs()
      ensures CurrentSnapshot() == Snapshot(graphemes, cursor, PasteSnapshots(pastes))
    {
      hide PasteSnapshots;
    }

    /** Replaces the text. The markers whose labels still occur, in order, are put back with their
        payloads, as a snapshot with them would be. */
    method SetText(value: string, at: Option<int>) returns (ghost ts: seq<Token>)
      requires Valid()
      modifies this
      ensures Valid() && redo == [] && undo == Noted(old(undo), old(CurrentSnapshot()), maxUndo)
      ensures var safe := ByteTruncate(Sanitize(value), maxBytes);
        var place := if at.Some? then at.value else |safe|;
        && RestoresTo(Tokens(), ts, Snapshot(safe, place, StillShown(safe, old(pastes), 0)), maxBytes)
        && NearestPlace(ts, Clamped(place, |Text(ts)|), |left|)
    {
      hide Text, Marks, Titled, Canonical, ByteTruncate, Sanitize, ChoiceFor, Settled, ChainOk, YankOk, RingOk;
      hide StillShown;
      hide Occurrence;
      RecordUndo();
      var safe := ByteTruncate(Sanitize(value), maxBytes);
      var kept: seq<Marker>, from := [], 0;
      StillShownEnds(safe, kept, pastes, from);
      for index := 0 to |pastes|
        invariant 0 <= from <= |safe|
        invariant kept + StillShown(safe, pastes[index..], from) == StillShown(safe, pastes, 0)
        modifies {}
      {
        var paste := pastes[index];
        StillShownNext(safe, kept, pastes, index, from);
        var start := FindGraphemes(safe, paste.title, from);
        if start.Some? {
          from := start.value + |paste.title|;
          kept := kept + [Marker(start.value, from, paste.payload, paste.title, 0)];
        }
      }
      StillShownEnds(safe, kept, pastes, from);
      ts := Restore(Snapshot(safe, if at.Some? then at.value else |safe|, kept));
      redo := [];
    }

    method Undo() returns (ok: bool)
      requires Valid()
      modifies this
      ensures Valid() && (ok <==> old(undo) != [])
      ensures !ok ==> Tokens() == old(Tokens()) && left == old(left)
      ensures ok ==>
        undo == old(undo)[..|old(undo)| - 1] && redo == Bounded(old(redo) + [old(CurrentSnapshot())], maxUndo)
      ensures ok ==> Restored(Tokens(), |left|, old(undo)[|old(undo)| - 1], maxBytes)
    {
      hide Text, Marks, Titled, Canonical, InBudget, ByteTruncate, Sanitize, SortByStart, FragmentOf, PasteSnapshots;
      hide ChoiceFor, Settled, ChainOk, YankOk, RingOk;
      if undo == [] {
        return false;
      }
      var previous := undo[|undo| - 1];
      undo := undo[..|undo| - 1];
      redo := Bounded(redo + [CurrentSnapshot()], maxUndo);
      ghost var ts := Restore(previous);
      RestoredBy(Tokens(), |left|, ts, previous, maxBytes);
      return true;
    }

    method Redo() returns (ok: bool)
      requires Valid()
      modifies this
      ensures Valid() && (ok <==> old(redo) != [])
      ensures !ok ==> Tokens() == old(Tokens()) && left == old(left)
      ensures ok ==>
        redo == old(redo)[..|old(redo)| - 1] && undo == Bounded(old(undo) + [old(CurrentSnapshot())], maxUndo)
      ensures ok ==> Restored(Tokens(), |left|, old(redo)[|old(redo)| - 1], maxBytes)
    {
      hide Text, Marks, Titled, Canonical, InBudget, ByteTruncate, Sanitize, SortByStart, FragmentOf, PasteSnapshots;
      hide ChoiceFor, Settled, ChainOk, YankOk, RingOk;
      if redo == [] {
        return false;
      }
      var next := redo[|redo| - 1];
      redo := redo[..|redo| - 1];
      undo := Bounded(undo + [CurrentSnapshot()], maxUndo);
      ghost var ts := Restore(next);
      RestoredBy(Tokens(), |left|, ts, next, maxBytes);
      return true;
    }

    method Clear(record: bool)
      requires Valid()
      modifies this
      ensures Valid() && Tokens() == []
      ensures old(Tokens()) == [] ==> undo == old(undo) && redo == old(redo)
      ensures old(Tokens()) != [] ==>
        redo == [] && undo == if record then Noted(old(undo), old(CurrentSnapshot()), maxUndo) else old(undo)
    {
      hide *;
      ValidParts();
      SettledParts();
      NothingShown(Tokens());
      ghost var current := CurrentSnapshot();
      if graphemes == "" {
        return;
      }
      if record {
        RecordUndo();
      }
      graphemes, pastes, cursor := "", [], 0;
      left, right, redo := [], [], [];
      BreakAction();
      EmptyIsSettled();
      SettledIsValid();
    }

    lemma EmptyIsSettled()
      requires graphemes == "" && pastes == [] && cursor == 0 && left == [] && right == []
      ensures Settled() && Tokens() == []
    {
      hide Text, Marks, Canonical, InBudget;
      assert left + right == [];
      NothingShows(maxBytes);
    }

    /** The nearest occurrence of a character outside all markers, after or before the cursor. */
    method FindCharacter(c: char, forward: bool) returns (found: bool, index: int, ghost k: nat)
      requires Settled()
      ensures found ==> k < |Tokens()| && index == At(Tokens(), k) && JumpTarget(Tokens(), |left|, forward, c, k)
      ensures found ==> forall i :: JumpTarget(Tokens(), |left|, forward, c, i) ==> if forward then k <= i else i <= k
      ensures !found ==> forall i :: !JumpTarget(Tokens(), |left|, forward, c, i)
    {
      hide *;
      found, k := false, 0;
      SettledParts();
      ghost var ts, n := Tokens(), |left|;
      index := if forward then cursor + 1 else cursor - 1;
      NothingPassed(ts, n, forward, c);
      while 0 <= index < |graphemes| && !found
        invariant found ==> k < |ts| && index == At(ts, k) && ts[k] == Char(c)
        invariant if forward then index > cursor else index < cursor
        invariant Passed(ts, n, index, forward, c)
        decreases !found, if forward then |graphemes| - index else index
      {
        var paste := PasteAt(pastes, index);
        k := TokenAt(ts, index);
        PasteAtToken(ts, k, index);
        MarkerOfPaste(ts[k], At(ts, k));
        AtNext(ts, k);
        if paste.None? {
          CharIsAt(ts, k);
        }
        if paste.None? && graphemes[index] == c {
          found := true;
        } else {
          ghost var was := index;
          if paste.Some? {
            index := if forward then paste.value.end else paste.value.start - 1;
          } else {
            index := if forward then index + 1 else index - 1;
          }
          PassedOn(ts, n, k, was, index, forward, c);
        }
      }
      if found {
        AtOrder(ts, n, k);
        AtOrder(ts, k, n);
        NearestFound(ts, n, k, forward, c);
      } else {
        AllPassed(ts, n, index, forward, c);
      }
    }

    /** Moves to the next, or the previous, occurrence of a character outside all markers: the
        nearest one, if there is any. */
    method JumpToCharacter(value: string, forward: bool) returns (found: bool)
      requires Valid()
      modifies this`cursor, this`left, this`right, this`lastAction, this`lastYank
      ensures Valid() && Tokens() == old(Tokens())
      ensures !found ==> left == old(left)
      ensures found ==>
        var c := Sanitize(value);
        && c != "" && c[0] != '\n' && JumpTarget(Tokens(), |old(left)|, forward, c[0], |left|)
        && forall i :: JumpTarget(Tokens(), |old(left)|, forward, c[0], i) ==>
             if forward then |left| <= i else i <= |left|
      ensures (!found && Sanitize(value) != "" && Sanitize(value)[0] != '\n') ==>
        forall i :: !JumpTarget(Tokens(), |left|, forward, Sanitize(value)[0], i)
    {
      hide Text, Marks, Canonical, InBudget, Titled, At, Labelled, Alike, FragmentOf, Sanitize, RingOk, JumpTarget;
      BreakAction();
      var safe := Sanitize(value);
      if safe == "" || safe[0] == '\n' {
        return false;
      }
      var index;
      ghost var k;
      found, index, k := FindCharacter(safe[0], forward);
      if found {
        MoveTo(index, k);
      }
    }
  }

  // ----- jumping -----

  ghost predicate JumpTarget(ts: seq<Token>, n: int, forward: bool, c: char, i: int) {
    0 <= i < |ts| && ts[i] == Char(c) && if forward then n < i else i < n
  }

  /** The character has not been found between the cursor and `index`. */
  ghost predicate Passed(ts: seq<Token>, n: nat, index: int, forward: bool, c: char) {
    forall i :: (0 <= i < |ts| && if forward then n < i && At(ts, i) < index else i < n && At(ts, i) > index) ==>
      ts[i] != Char(c)
  }

  lemma NothingPassed(ts: seq<Token>, n: nat, forward: bool, c: char)
    requires Titled(ts) && n <= |ts|
    ensures Passed(ts, n, if forward then At(ts, n) + 1 else At(ts, n) - 1, forward, c)
  {
    hide At, Titled;
    forall i | 0 <= i < |ts| ensures i < n <==> At(ts, i) < At(ts, n)
      ensures n < i <==> At(ts, n) < At(ts, i)
    {
      AtOrder(ts, i, n);
      AtOrder(ts, n, i);
    }
  }

  lemma PassedOn(ts: seq<Token>, n: nat, k: nat, index: int, next: int, forward: bool, c: char)
    requires Titled(ts) && n <= |ts| && k < |ts| && Passed(ts, n, index, forward, c) && ts[k] != Char(c)
    requires At(ts, k) <= index < At(ts, k + 1)
    requires next == if forward then At(ts, k + 1) else At(ts, k) - 1
    ensures Passed(ts, n, next, forward, c)
  {
    hide At, Titled;
    forall i | 0 <= i < |ts| ensures i < k + 1 <==> At(ts, i) < At(ts, k + 1)
      ensures k <= i <==> At(ts, k) <= At(ts, i)
    {
      AtOrder(ts, i, k + 1);
      AtOrder(ts, k, i);
    }
  }

  lemma NearestFound(ts: seq<Token>, n: nat, k: nat, forward: bool, c: char)
    requires Titled(ts) && n <= |ts| && k < |ts| && ts[k] == Char(c) && Passed(ts, n, At(ts, k), forward, c)
    requires if forward then n < k else k < n
    ensures JumpTarget(ts, n, forward, c, k)
    ensures forall i :: JumpTarget(ts, n, forward, c, i) ==> if forward then k <= i else i <= k
  {
    hide At, Titled;
    forall i | 0 <= i < |ts| ensures i < k <==> At(ts, i) < At(ts, k)
      ensures k < i <==> At(ts, k) < At(ts, i)
    {
      AtOrder(ts, i, k);
      AtOrder(ts, k, i);
    }
  }

  lemma AllPassed(ts: seq<Token>, n: nat, index: int, forward: bool, c: char)
    requires Titled(ts) && n <= |ts| && Passed(ts, n, index, forward, c)
    requires if forward then index >= |Text(ts)| else index < 0
    ensures forall i :: !JumpTarget(ts, n, forward, c, i)
  {
    hide At, Titled, Text;
    AtEnds(ts);
    forall i | 0 <= i < |ts| ensures 0 <= At(ts, i) < |Text(ts)| {
      AtOrder(ts, i, |ts|);
      AtOrder(ts, 0, i);
    }
  }

  // ----- renumbering, step by step -----

  /** The first `done` markers, those among the first `k` tokens, carry their new numbers. */
  ghost predicate Renumbering(ts: seq<Token>, cur: seq<Token>, k: nat, done: nat)
    requires k <= |ts|
  {
    && |cur| == |ts| && cur[k..] == ts[k..] && cur[..k] == Canonical(ts[..k], 1)
    && Count(ts[..k]) == done && Titled(cur)
  }

  lemma StartRenumber(ts: seq<Token>, n: nat)
    requires Titled(ts) && n <= |ts|
    ensures Renumbering(ts, ts, 0, 0) && |Marks(ts, 0)| == Count(ts) && At(ts, n) == |Text(ts[..n])|
  {
    MarksInside(ts, 0);
    assert ts[..0] == [];
  }

  lemma AtIs(ts: seq<Token>, n: nat)
    requires n <= |ts|
    ensures At(ts, n) == |Text(ts[..n])|
  {
  }

  lemma MoreToRenumber(ts: seq<Token>, cur: seq<Token>, k: nat, done: nat) returns (j: nat)
    requires k <= |ts| && Renumbering(ts, cur, k, done) && done < Count(ts)
    ensures NextPaste(ts, k, j) && j < |cur| && cur[j] == ts[j] && cur[j].Paste?
    ensures Titled(cur) && Count(cur[..j]) == done
  {
    hide Canonical, Text, Count, Titled, AllChars, Alike, Labelled;
    CutsIn(ts, k);
    CountJoin(ts[..k], ts[k..]);
    j := FindPaste(ts, k);
    PrefixAgrees(cur, ts, k, j);
    CountJoin(cur[..k], ts[k..j]);
    CharsShow(ts[k..j]);
    CanonicalIsAlike(ts[..k], 1);
  }

  lemma CutsIn<T>(ts: seq<T>, k: nat)
    requires k <= |ts|
    ensures ts == ts[..k] + ts[k..]
  {
  }

  lemma PrefixAgrees<T>(cur: seq<T>, ts: seq<T>, k: nat, j: nat)
    requires |cur| == |ts| && k <= j < |ts| && cur[k..] == ts[k..]
    ensures cur[j] == ts[j] && cur[..j] == cur[..k] + ts[k..j]
  {
    assert cur[j] == cur[k..][j - k] && ts[j] == ts[k..][j - k];
    assert cur[..j] == cur[..k] + cur[k..][..j - k];
    assert ts[k..][..j - k] == ts[k..j];
  }

  lemma RenumberOne(ts: seq<Token>, cur: seq<Token>, k: nat, done: nat, j: nat)
    requires k <= |ts| && Renumbering(ts, cur, k, done) && NextPaste(ts, k, j) && cur[j] == ts[j]
    ensures Renumbering(ts, Relabel(cur, j, PasteLabel(done + 1, cur[j].payload), done + 1), j + 1, done + 1)
    ensures PasteLabel(done + 1, cur[j].payload) != ""
  {
    hide Canonical, Text, Count, PasteLabel, AllChars;
    var title := PasteLabel(done + 1, cur[j].payload);
    LabelSome(done + 1, cur[j].payload);
    RelabelIsTitled(cur, j, title, done + 1);
    var next := Relabel(cur, j, title, done + 1);
    ScanCount(ts, k, j);
    ScanCanonical(ts, k, j, 1);
    RelabelParts(cur, j, title, done + 1);
    assert cur[j + 1..] == cur[k..][j + 1 - k..] && ts[j + 1..] == ts[k..][j + 1 - k..];
    assert next[..j + 1] == next[..j] + [next[j]];
    assert cur[..j] == cur[..k] + cur[k..][..j - k] && ts[k..][..j - k] == ts[k..j];
  }

  /** What giving the next marker its label does to the text, the markers and two positions. */
  lemma OneLabel(ts: seq<Token>, cur: seq<Token>, k: nat, index: nat, j: nat, n: nat, q: nat)
    requires k <= |ts| && Renumbering(ts, cur, k, index) && NextPaste(ts, k, j)
    requires j < |cur| && cur[j] == ts[j] && cur[j].Paste? && Titled(cur) && Count(cur[..j]) == index
    requires n <= |ts| && q <= |ts|
    ensures var title, s, e, ms := PasteLabel(index + 1, cur[j].payload), At(cur, j), At(cur, j + 1), Marks(cur, 0);
      var next := Relabel(cur, j, title, index + 1);
      && j < |ts| == |cur| == |next| && Renumbering(ts, next, j + 1, index + 1)
      && index < |ms| && ms[index] == Marker(s, e, cur[j].payload, cur[j].title, cur[j].ordinal)
      && s <= e <= |Text(cur)| && Text(next) == Text(cur)[..s] + title + Text(cur)[e..]
      && Text(cur)[s..e] == cur[j].title
      && Marks(next, 0) == ms[..index] + [Marker(s, s + |title|, cur[j].payload, title, index + 1)]
           + MoveAll(ms[index + 1..], s + |title| - e)
      && At(next, n) == MultilineEditor.Adjusted(At(cur, n), s, e, s + |title|)
      && At(next, q) == MultilineEditor.Adjusted(At(cur, q), s, e, s + |title|)
  {
    hide Text, Marks, Canonical, Count, Titled, At, NextPaste, PasteLabel, MoveAll, Relabel, AllChars;
    var title := PasteLabel(index + 1, cur[j].payload);
    PasteFollows(ts, k, j);
    RelabelLength(cur, j, title, index + 1);
    RenumberOne(ts, cur, k, index, j);
    RelabelText(cur, j, title, index + 1);
    RelabelMarks(cur, j, title, index + 1);
    ShownAt(cur, j);
    AtNext(cur, j);
    AdjustedAt(cur, j, title, index + 1, n);
    AdjustedAt(cur, j, title, index + 1, q);
  }

  lemma RelabelLength(ts: seq<Token>, j: nat, title: string, ordinal: nat)
    requires j < |ts| && ts[j].Paste?
    ensures |Relabel(ts, j, title, ordinal)| == |ts|
  {
  }

  lemma PasteFollows(ts: seq<Token>, k: nat, j: nat)
    requires NextPaste(ts, k, j)
    ensures k <= j < |ts|
  {
    hide AllChars;
  }

  lemma AdjustedAt(ts: seq<Token>, j: nat, title: string, ordinal: nat, m: nat)
    requires j < |ts| && ts[j].Paste? && Titled(ts) && m <= |ts|
    ensures At(Relabel(ts, j, title, ordinal), m)
      == MultilineEditor.Adjusted(At(ts, m), At(ts, j), At(ts, j + 1), At(ts, j) + |title|)
  {
    hide At, Titled, Relabel;
    RelabelAt(ts, j, title, ordinal, m);
    AtNext(ts, j);
    AtOrder(ts, m, j);
    AtOrder(ts, j + 1, m);
  }

  lemma Replaced<T>(a: seq<T>, x: T, b: seq<T>, y: T)
    ensures (a + [x] + b)[|a|] == x && (a + [x] + b)[|a| := y] == a + [y] + b
  {
  }

  /** A marker whose label is already right. */
  lemma LabelUnchanged(ts: seq<Token>, cur: seq<Token>, k: nat, index: nat, j: nat, n: nat, q: nat)
    requires k <= |ts| && Renumbering(ts, cur, k, index) && NextPaste(ts, k, j)
    requires j < |cur| && cur[j] == ts[j] && cur[j].Paste? && Titled(cur) && Count(cur[..j]) == index
    requires n <= |ts| && q <= |ts| && cur[j].title == PasteLabel(index + 1, cur[j].payload)
    ensures var title, ms := cur[j].title, Marks(cur, 0);
      var next := Relabel(cur, j, title, index + 1);
      && index < |ms| && Text(next) == Text(cur) && At(next, n) == At(cur, n) && At(next, q) == At(cur, q)
      && Marks(next, 0) == ms[index := ms[index].(title := title, ordinal := index + 1)]
  {
    hide Text, Marks, Canonical, Count, Titled, At, NextPaste, PasteLabel, MoveAll, Relabel, Renumbering;
    OneLabel(ts, cur, k, index, j, n, q);
    AtOrder(cur, n, j);
    AtOrder(cur, j + 1, n);
    AtOrder(cur, q, j);
    AtOrder(cur, j + 1, q);
    var s, e, ms := At(cur, j), At(cur, j + 1), Marks(cur, 0);
    MoveByNothing(ms[index + 1..]);
    Rejoined(Text(cur), s, e);
    Rejoined(ms, index, index + 1);
    Replaced(ms[..index], ms[index], ms[index + 1..], ms[index].(title := cur[j].title, ordinal := index + 1));
  }

  lemma Rejoined<T>(s: seq<T>, i: nat, j: nat)
    requires i <= j <= |s|
    ensures s[..i] + s[i..j] + s[j..] == s
    ensures j == i + 1 ==> s[..i] + [s[i]] + s[j..] == s
  {
  }

  lemma CutCanonical(ts: seq<Token>, n: nat)
    requires n <= |ts|
    ensures |Canonical(ts, 1)| == |ts|
    ensures Canonical(ts, 1)[..n] + Canonical(ts, 1)[n..] == Canonical(ts, 1)
  {
    hide Canonical;
    CanonicalIsAlike(ts, 1);
  }

  lemma EndRenumber(ts: seq<Token>, cur: seq<Token>, k: nat, done: nat)
    requires k <= |ts| && Renumbering(ts, cur, k, done) && done == Count(ts)
    ensures cur == Canonical(ts, 1)
  {
    hide Canonical, Text;
    assert ts == ts[..k] + ts[k..];
    CountJoin(ts[..k], ts[k..]);
    ScanEnd(ts, k, 1);
    assert cur == cur[..k] + cur[k..];
  }

  // ----- snapshots -----

  /** The undo stack with a snapshot on top, unless it is there already. */
  function Noted(undo: seq<Snapshot>, current: Snapshot, maximum: nat): seq<Snapshot> {
    if undo != [] && undo[|undo| - 1] == current then undo else Bounded(undo + [current], maximum)
  }

  function Bounded<T>(s: seq<T>, maximum: nat): seq<T> {
    if |s| > maximum then s[|s| - maximum..] else s
  }

  // ----- facts about ranges of tokens -----

  lemma ShowInsert(l: seq<Token>, f: seq<Token>, r: seq<Token>)
    requires AllShow(l + r) && AllShow(f)
    ensures AllShow(l + f + r)
  {
    hide AllShow;
    assert (l + r)[0..|l|] == l && (l + r)[|l|..|l + r|] == r;
    ShowPart(l + r, 0, |l|);
    ShowPart(l + r, |l|, |l + r|);
    ShowJoin(l, f);
    ShowJoin(l + f, r);
  }

  lemma OnePayloadShows(payload: string)
    requires Printable(payload)
    ensures AllShow([Paste(payload, "", 0)])
  {
  }

  lemma CanonicalIsTitled(ts: seq<Token>)
    requires ts == Canonical(ts, 1)
    ensures Titled(ts) && Labelled(ts)
  {
    CanonicalIsAlike(ts, 1);
  }

  /** Renumbered tokens are numbered, and in budget if the tokens were. */
  lemma CanonicalSettles(ts: seq<Token>, maximum: nat)
    requires InBudget(ts, maximum)
    ensures Canonical(Canonical(ts, 1), 1) == Canonical(ts, 1) && InBudget(Canonical(ts, 1), maximum)
  {
    hide InBudget;
    CanonicalIsAlike(ts, 1);
    CanonicalOfAlike(ts, Canonical(ts, 1), 1);
    BudgetOfAlike(ts, Canonical(ts, 1), maximum);
  }

  lemma AtZero(ts: seq<Token>)
    ensures At(ts, 0) == 0
  {
  }

  lemma {:induction false} MarkIsToken(ts: seq<Token>, at: int, index: nat) returns (k: nat)
    requires index < |Marks(ts, at)|
    ensures k < |ts| && ts[k].Paste?
    ensures Marks(ts, at)[index].start == at + At(ts, k) && Marks(ts, at)[index].end == at + At(ts, k + 1)
  {
    hide Shown;
    if ts[0].Paste? && index == 0 {
      k := 0;
      AtNext(ts, 0);
      AtZero(ts);
      ShownIs(ts[0]);
    } else {
      var rest := ts[1..];
      var i := if ts[0].Paste? then index - 1 else index;
      var n := MarkIsToken(rest, at + |Shown(ts[0])|, i);
      k := n + 1;
      AtShift(ts, n);
      AtShift(ts, n + 1);
    }
  }

  lemma AtShift(ts: seq<Token>, k: nat)
    requires ts != [] && k <= |ts[1..]|
    ensures At(ts, k + 1) == |Shown(ts[0])| + At(ts[1..], k)
  {
    assert ts[..k + 1] == [ts[0]] + ts[1..][..k];
    TextJoin([ts[0]], ts[1..][..k]);
    TextOne(ts[0]);
  }

  /** A marker that overlaps a range between tokens lies inside it. */
  lemma MarkInRange(ts: seq<Token>, i: nat, j: nat, index: nat)
    requires Titled(ts) && i <= j <= |ts| && index < |Marks(ts, 0)|
    requires At(ts, i) < Marks(ts, 0)[index].end && At(ts, j) > Marks(ts, 0)[index].start
    ensures At(ts, i) <= Marks(ts, 0)[index].start && Marks(ts, 0)[index].end <= At(ts, j)
  {
    hide Titled, Marks, At;
    var k := MarkIsToken(ts, 0, index);
    AtOrder(ts, i, k + 1);
    AtOrder(ts, i, k);
    AtOrder(ts, k, j);
    AtOrder(ts, k + 1, j);
  }

  lemma SplitRange<T>(ts: seq<T>, i: nat, j: nat)
    requires i <= j <= |ts|
    ensures ts == ts[..i] + ts[i..j] + ts[j..]
  {
  }

  /** What is left of text and markers when a range of tokens is cut out. */
  lemma CutTokens(ts: seq<Token>, i: nat, j: nat)
    requires Titled(ts) && i < j <= |ts|
    ensures At(ts, i) < At(ts, j) <= |Text(ts)|
    ensures Text(ts)[..At(ts, i)] + Text(ts)[At(ts, j)..] == Text(ts[..i] + ts[j..])
    ensures Text(ts)[At(ts, i)..At(ts, j)] == Text(ts[i..j])
    ensures Remaining(Marks(ts, 0), At(ts, i), At(ts, j)) == Marks(ts[..i] + ts[j..], 0)
    ensures Inside(Marks(ts, 0), At(ts, i), At(ts, j)) == FragmentMarks(ts[i..j], 0)
    ensures SortByStart(Marks(ts[..i] + ts[j..], 0)) == Marks(ts[..i] + ts[j..], 0)
    ensures Titled(ts[..i] + ts[j..]) && |Text(ts[..i])| == At(ts, i)
  {
    hide Text, Marks, Remaining, Inside, FragmentMarks, SortByStart, Titled;
    TitledPart(ts, i, j);
    TitledPart(ts, 0, i);
    TitledPart(ts, j, |ts|);
    SliceIsText(ts, i, j);
    AtOrder(ts, i, j);
    TextParts(ts, i);
    TextParts(ts, j);
    TextJoin(ts[..i], ts[j..]);
    SplitRange(ts, i, j);
    CutMarks(ts[..i], ts[i..j], ts[j..]);
    TitledJoin(ts[..i], ts[j..]);
    MarksAscend(ts[..i] + ts[j..], 0);
    SortedAlready(Marks(ts[..i] + ts[j..], 0));
  }

  lemma CutBudget(ts: seq<Token>, i: nat, j: nat, maximum: nat)
    requires i <= j <= |ts| && InBudget(ts, maximum)
    ensures InBudget(ts[..i] + ts[j..], maximum)
  {
    SplitRange(ts, i, j);
    BudgetOfPart(ts[..i], ts[i..j], ts[j..], maximum);
  }

  // ----- lines -----

  /** Tokens `i..j` are the line around token `n`, without its line feeds. */
  ghost predicate IsLine(ts: seq<Token>, i: nat, n: nat, j: nat) {
    && i <= n <= j <= |ts|
    && (i > 0 ==> ts[i - 1] == Char('\n')) && (j < |ts| ==> ts[j] == Char('\n'))
    && forall k :: i <= k < j ==> ts[k] != Char('\n')
  }

  lemma LineIs(ts: seq<Token>, i: nat, n: nat, j: nat)
    requires i <= n <= j <= |ts| && (i > 0 ==> ts[i - 1] == Char('\n')) && (j < |ts| ==> ts[j] == Char('\n'))
    requires (forall k :: i <= k < n ==> ts[k] != Char('\n')) && (forall k :: n <= k < j ==> ts[k] != Char('\n'))
    ensures IsLine(ts, i, n, j)
  {
  }

  lemma CursorIsAt(l: seq<Token>, r: seq<Token>)
    ensures At(l + r, |l|) == |Text(l)| <= |Text(l + r)|
  {
    assert (l + r)[..|l|] == l;
    TextJoin(l, r);
  }

  lemma LineFeedShows(ts: seq<Token>, k: nat)
    requires k < |ts| && ts[k] == Char('\n')
    ensures At(ts, k) < |Text(ts)| && Text(ts)[At(ts, k)] == '\n' && At(ts, k) + 1 == At(ts, k + 1)
  {
    CharIsAt(ts, k);
  }

  lemma NoLineFeedBetween(ts: seq<Token>, i: nat, j: nat)
    requires i <= j <= |ts| && Titled(ts) && At(ts, j) <= |Text(ts)|
    requires forall p :: At(ts, i) <= p < At(ts, j) ==> Text(ts)[p] != '\n'
    ensures forall k :: i <= k < j ==> ts[k] != Char('\n')
  {
    hide At, Text, Titled;
    forall k | i <= k < j ensures ts[k] != Char('\n') {
      AtOrder(ts, i, k);
      AtOrder(ts, k, j);
      if ts[k] == Char('\n') {
        LineFeedShows(ts, k);
        assert false;
      }
    }
  }

  lemma LineBegins(ts: seq<Token>, n: nat, start: nat) returns (i: nat)
    requires Titled(ts) && Labelled(ts) && n <= |ts| && start <= At(ts, n) <= |Text(ts)|
    requires forall p :: start <= p < At(ts, n) ==> Text(ts)[p] != '\n'
    requires start > 0 ==> Text(ts)[start - 1] == '\n'
    ensures i <= n && At(ts, i) == start && (i > 0 ==> ts[i - 1] == Char('\n'))
    ensures forall k :: i <= k < n ==> ts[k] != Char('\n')
  {
    hide At, Text, Titled, Labelled;
    if start == 0 {
      i := 0;
      AtZero(ts);
    } else {
      var k := NewlineIsToken(ts, start - 1);
      i := k + 1;
    }
    AtOrder(ts, i, n);
    NoLineFeedBetween(ts, i, n);
  }

  lemma LineEnds(ts: seq<Token>, n: nat, end: nat) returns (j: nat)
    requires Titled(ts) && Labelled(ts) && n <= |ts| && At(ts, n) <= end <= |Text(ts)|
    requires forall p :: At(ts, n) <= p < end ==> Text(ts)[p] != '\n'
    requires end < |Text(ts)| ==> Text(ts)[end] == '\n'
    ensures n <= j <= |ts| && At(ts, j) == end && (j < |ts| ==> ts[j] == Char('\n'))
    ensures forall k :: n <= k < j ==> ts[k] != Char('\n')
  {
    hide At, Text, Titled, Labelled;
    if end == |Text(ts)| {
      j := |ts|;
      AtEnds(ts);
    } else {
      j := NewlineIsToken(ts, end);
    }
    AtOrder(ts, n, j);
    NoLineFeedBetween(ts, n, j);
  }

  // ----- units and words -----

  predicate IsSpaceToken(t: Token) {
    t.Char? && IsSpace(t.c)
  }

  predicate IsWordToken(t: Token) {
    t.Char? && IsWord(t.c)
  }

  /** A step to the left over tokens `k..n`: a line feed; or spaces and then one marker, one word
      or one other character. */
  ghost predicate WordBack(ts: seq<Token>, n: nat, k: nat) {
    && k <= n <= |ts|
    && (n > 0 ==>
          if ts[n - 1] == Char('\n') then k == n - 1
          else exists m :: k <= m <= n && OverSpacesBack(ts, n, m) && OneUnitBack(ts, m, k))
  }

  ghost predicate OverSpacesBack(ts: seq<Token>, n: nat, m: nat)
    requires m <= n <= |ts|
  {
    (forall i :: m <= i < n ==> IsSpaceToken(ts[i])) && (m > 0 ==> !IsSpaceToken(ts[m - 1]))
  }

  ghost predicate OneUnitBack(ts: seq<Token>, m: nat, k: nat)
    requires k <= m <= |ts|
  {
    if m == 0 then k == 0
    else if IsWordToken(ts[m - 1]) then
      && k < m && (forall i :: k <= i < m ==> IsWordToken(ts[i])) && (k > 0 ==> !IsWordToken(ts[k - 1]))
    else k == m - 1
  }

  ghost predicate WordOn(ts: seq<Token>, n: nat, k: nat) {
    && n <= k <= |ts|
    && (n < |ts| ==>
          if ts[n] == Char('\n') then k == n + 1
          else exists m :: n <= m <= k && OverSpacesOn(ts, n, m) && OneUnitOn(ts, m, k))
  }

  ghost predicate OverSpacesOn(ts: seq<Token>, n: nat, m: nat)
    requires n <= m <= |ts|
  {
    (forall i :: n <= i < m ==> IsSpaceToken(ts[i])) && (m < |ts| ==> !IsSpaceToken(ts[m]))
  }

  ghost predicate OneUnitOn(ts: seq<Token>, m: nat, k: nat)
    requires m <= k <= |ts|
  {
    if m == |ts| then k == m
    else if IsWordToken(ts[m]) then
      && m < k && (forall i :: m <= i < k ==> IsWordToken(ts[i])) && (k < |ts| ==> !IsWordToken(ts[k]))
    else k == m + 1
  }

  lemma WordBackBy(ts: seq<Token>, n: nat, m: nat, k: nat)
    requires k <= m <= n <= |ts| && OverSpacesBack(ts, n, m) && OneUnitBack(ts, m, k)
    requires n > 0 ==> ts[n - 1] != Char('\n')
    ensures WordBack(ts, n, k)
  {
    hide OverSpacesBack, OneUnitBack;
  }

  lemma WordBackMarker(ts: seq<Token>, n: nat, m: nat)
    requires 0 < m <= n <= |ts| && ts[m - 1].Paste? && (forall i :: m <= i < n ==> IsSpaceToken(ts[i]))
    requires ts[n - 1] != Char('\n')
    ensures WordBack(ts, n, m - 1)
  {
    WordBackBy(ts, n, m, m - 1);
  }

  lemma WordOnMarker(ts: seq<Token>, n: nat, m: nat)
    requires n <= m < |ts| && ts[m].Paste? && (forall i :: n <= i < m ==> IsSpaceToken(ts[i]))
    requires ts[n] != Char('\n')
    ensures WordOn(ts, n, m + 1)
  {
    WordOnBy(ts, n, m, m + 1);
  }

  lemma WordBackNewline(ts: seq<Token>, n: nat)
    requires 0 < n <= |ts| && ts[n - 1] == Char('\n')
    ensures WordBack(ts, n, n - 1)
  {
  }

  lemma WordOnNewline(ts: seq<Token>, n: nat)
    requires n < |ts| && ts[n] == Char('\n')
    ensures WordOn(ts, n, n + 1)
  {
  }

  lemma WordOnBy(ts: seq<Token>, n: nat, m: nat, k: nat)
    requires n <= m <= k <= |ts| && OverSpacesOn(ts, n, m) && OneUnitOn(ts, m, k)
    requires n < |ts| ==> ts[n] != Char('\n')
    ensures WordOn(ts, n, k)
  {
    hide OverSpacesOn, OneUnitOn;
  }

  /** What the text and the markers say just before token `k`. */
  lemma BeforeCursor(ts: seq<Token>, k: nat)
    requires Titled(ts) && Labelled(ts) && k <= |ts|
    ensures At(ts, k) <= |Text(ts)| && (At(ts, k) == 0 <==> k == 0)
    ensures k == 0 ==> PasteAt(Marks(ts, 0), At(ts, k) - 1).None?
    ensures k > 0 && ts[k - 1].Char? ==> Text(ts)[At(ts, k) - 1] == ts[k - 1].c && At(ts, k - 1) == At(ts, k) - 1
    ensures k > 0 ==> PasteAt(Marks(ts, 0), At(ts, k) - 1) == MarkerOf(ts[k - 1], At(ts, k - 1))
    ensures k > 0 && Text(ts)[At(ts, k) - 1] == '\n' ==> ts[k - 1] == Char('\n')
    ensures k > 0 && PasteAt(Marks(ts, 0), At(ts, k) - 1).None? ==>
      ts[k - 1].Char? && (IsSpaceToken(ts[k - 1]) <==> IsSpace(Text(ts)[At(ts, k) - 1]))
    ensures k > 0 && PasteAt(Marks(ts, 0), At(ts, k) - 1).Some? ==>
      ts[k - 1].Paste? && PasteAt(Marks(ts, 0), At(ts, k) - 1).value.start == At(ts, k - 1)
  {
    hide Text, Marks, Titled, Labelled, PasteAt, PasteLabel, Shown;
    SliceIsText(ts, 0, k);
    AtZero(ts);
    AtOrder(ts, 0, k);
    if k > 0 {
      AtOrder(ts, k - 1, k);
      PasteAtToken(ts, k - 1, At(ts, k) - 1);
      if ts[k - 1].Char? {
        CharIsAt(ts, k - 1);
      } else {
        LabelShows(ts, k - 1);
      }
    } else {
      PasteAtEnd(ts, -1);
    }
  }

  lemma AfterCursor(ts: seq<Token>, k: nat)
    requires Titled(ts) && Labelled(ts) && k <= |ts|
    ensures At(ts, k) <= |Text(ts)| && (At(ts, k) == |Text(ts)| <==> k == |ts|)
    ensures k == |ts| ==> PasteAt(Marks(ts, 0), At(ts, k)).None?
    ensures k < |ts| && ts[k].Char? ==> Text(ts)[At(ts, k)] == ts[k].c && At(ts, k + 1) == At(ts, k) + 1
    ensures k < |ts| ==> PasteAt(Marks(ts, 0), At(ts, k)) == MarkerOf(ts[k], At(ts, k))
    ensures k < |ts| && ts[k].Paste? ==> At(ts, k) + |ts[k].title| == At(ts, k + 1)
    ensures k < |ts| && Text(ts)[At(ts, k)] == '\n' ==> ts[k] == Char('\n')
    ensures k < |ts| && PasteAt(Marks(ts, 0), At(ts, k)).None? ==>
      ts[k].Char? && (IsSpaceToken(ts[k]) <==> IsSpace(Text(ts)[At(ts, k)]))
    ensures k < |ts| && PasteAt(Marks(ts, 0), At(ts, k)).Some? ==>
      ts[k].Paste? && PasteAt(Marks(ts, 0), At(ts, k)).value.end == At(ts, k + 1)
  {
    hide Text, Marks, Titled, Labelled, PasteAt, PasteLabel;
    SliceIsText(ts, 0, k);
    AtEnds(ts);
    AtOrder(ts, k, |ts|);
    if k < |ts| {
      AtOrder(ts, k, k + 1);
      PasteAtToken(ts, k, At(ts, k));
      AtNext(ts, k);
      if ts[k].Char? {
        CharIsAt(ts, k);
      } else {
        LabelShows(ts, k);
      }
    } else {
      PasteAtEnd(ts, |Text(ts)|);
    }
  }

  lemma WordsAreTokens(ts: seq<Token>, k: nat, m: nat)
    requires Titled(ts) && Labelled(ts) && k <= m <= |ts| && At(ts, k) <= At(ts, m) <= |Text(ts)|
    requires Words(Text(ts), At(ts, k), At(ts, m))
    ensures forall i :: k <= i < m ==> IsWordToken(ts[i])
  {
    hide At, Text, Titled, Labelled, IsWord;
    forall i | k <= i < m ensures IsWordToken(ts[i]) {
      AtOrder(ts, k, i);
      AtOrder(ts, i, m);
      AfterCursor(ts, i);
      if ts[i].Paste? {
        LabelShows(ts, i);
        assert false;
      }
    }
  }

  lemma CharBefore(ts: seq<Token>, k: nat)
    requires Titled(ts) && Labelled(ts) && k <= |ts|
    ensures At(ts, k) <= |Text(ts)| && (At(ts, k) == 0 <==> k == 0)
    ensures k > 0 && ts[k - 1].Char? ==> Text(ts)[At(ts, k) - 1] == ts[k - 1].c && At(ts, k - 1) == At(ts, k) - 1
  {
    hide *;
    BeforeCursor(ts, k);
  }

  lemma CharAfter(ts: seq<Token>, k: nat)
    requires Titled(ts) && Labelled(ts) && k <= |ts|
    ensures At(ts, k) <= |Text(ts)| && (At(ts, k) == |Text(ts)| <==> k == |ts|)
    ensures k < |ts| && ts[k].Char? ==> Text(ts)[At(ts, k)] == ts[k].c && At(ts, k + 1) == At(ts, k) + 1
  {
    hide *;
    AfterCursor(ts, k);
  }

  lemma WordTokensLeft(ts: seq<Token>, m: nat, n: nat, edge: nat, r: nat) returns (k: nat)
    requires Titled(ts) && Labelled(ts) && m <= n <= |ts| && At(ts, n) <= |Text(ts)|
    requires WordLeft(Text(ts), At(ts, n), edge, r)
    requires forall i :: m <= i < n ==> IsSpaceToken(ts[i])
    requires m > 0 ==> ts[m - 1].Char? && !IsSpaceToken(ts[m - 1])
    ensures k <= m && r == At(ts, k) && OverSpacesBack(ts, n, m) && OneUnitBack(ts, m, k)
  {
    hide Text, Titled, Labelled, At, IsSpace, IsWord;
    WordLeftIsBoundary(ts, m, n, edge, r);
    k :| 0 <= k <= |ts| && At(ts, k) == r;
    AtOrder(ts, k, m);
    AtZero(ts);
    CharBefore(ts, m);
    CharBefore(ts, k);
    if m > 0 {
      AtOrder(ts, k, m - 1);
      AtOrder(ts, m - 1, k);
      if IsWord(Text(ts)[edge - 1]) {
        WordsAreTokens(ts, k, m);
      }
    } else {
      AtOrder(ts, k, 0);
    }
  }

  lemma WordTokensRight(ts: seq<Token>, n: nat, m: nat, edge: nat, r: nat) returns (k: nat)
    requires Titled(ts) && Labelled(ts) && n <= m <= |ts| && At(ts, n) <= |Text(ts)|
    requires WordRight(Text(ts), At(ts, n), edge, r)
    requires forall i :: n <= i < m ==> IsSpaceToken(ts[i])
    requires m < |ts| ==> ts[m].Char? && !IsSpaceToken(ts[m])
    ensures m <= k <= |ts| && r == At(ts, k) && OverSpacesOn(ts, n, m) && OneUnitOn(ts, m, k)
  {
    hide Text, Titled, Labelled, At, IsSpace, IsWord;
    WordRightIsBoundary(ts, n, m, edge, r);
    k :| 0 <= k <= |ts| && At(ts, k) == r;
    AtOrder(ts, m, k);
    AtEnds(ts);
    CharAfter(ts, m);
    CharAfter(ts, k);
    if m < |ts| {
      AtOrder(ts, k, m + 1);
      AtOrder(ts, m + 1, k);
      if IsWord(Text(ts)[edge]) {
        WordsAreTokens(ts, m, k);
      }
    } else {
      AtOrder(ts, |ts|, k);
    }
  }

  // ----- kills -----

  /** Tokens `from..to` were cut out and the rest renumbered; the cursor is at the cut. */
  ghost predicate Killed(ts: seq<Token>, from: nat, to: nat, us: seq<Token>, n: nat)
    requires from <= to <= |ts|
  {
    us == Canonical(ts[..from] + ts[to..], 1) && n == from
  }

  /** Back to the line start, or over the line feed just before the cursor. */
  ghost predicate ToLineStart(ts: seq<Token>, k: nat, n: nat) {
    && k <= n <= |ts|
    && if n > 0 && ts[n - 1] == Char('\n') then k == n - 1
       else (k > 0 ==> ts[k - 1] == Char('\n')) && forall i :: k <= i < n ==> ts[i] != Char('\n')
  }

  ghost predicate ToLineEnd(ts: seq<Token>, n: nat, k: nat) {
    && n <= k <= |ts|
    && if n < |ts| && ts[n] == Char('\n') then k == n + 1
       else (k < |ts| ==> ts[k] == Char('\n')) && forall i :: n <= i < k ==> ts[i] != Char('\n')
  }

  lemma OneToTheLeft(l: seq<Token>, r: seq<Token>)
    requires l != []
    ensures (l + r)[..|l| - 1] + (l + r)[|l|..] == l[..|l| - 1] + r
  {
  }

  lemma MarkerOfPaste(t: Token, at: int)
    ensures MarkerOf(t, at).Some? <==> t.Paste?
    ensures t.Paste? ==> MarkerOf(t, at).value.start == at && MarkerOf(t, at).value.end == at + |t.title|
    ensures Shown(t) == if t.Paste? then t.title else [t.c]
  {
  }

  lemma OneToTheRight(l: seq<Token>, r: seq<Token>)
    requires r != []
    ensures (l + r)[..|l|] + (l + r)[|l| + 1..] == l + r[1..]
  {
  }

  lemma AlikeParts(a: seq<Token>, b: seq<Token>, c: seq<Token>, d: seq<Token>)
    requires Alike(a + b, c + d) && |a| == |c|
    ensures Alike(a, c) && Alike(b, d)
  {
    assert forall i :: 0 <= i < |a| ==> (a + b)[i] == a[i] && (c + d)[i] == c[i];
    assert forall i :: 0 <= i < |b| ==> (a + b)[|a| + i] == b[i] && (c + d)[|a| + i] == d[i];
  }

  lemma AlikeItself(ts: seq<Token>)
    ensures Alike(ts, ts)
  {
  }

  /** The tokens before a kill, put together from what it took and what it left. */
  lemma KillKeepsAlike(
    ts: seq<Token>, from: nat, to: nat, left: seq<Token>, right: seq<Token>,
    l: seq<Token>, r: seq<Token>, origin: seq<Token>, newest: seq<Token>, forward: bool)
    requires from <= to <= |ts| && ts == l + r && |left| == from
    requires left + right == Canonical(ts[..from] + ts[to..], 1)
    requires if forward then from == |l| else to == |l|
    ensures Alike(ts, left + ts[from..to] + right)
    ensures Alike(origin, l + newest + r) ==>
      Alike(origin, left + (if forward then newest + ts[from..to] else ts[from..to] + newest) + right)
  {
    hide Canonical, Alike;
    var before, taken, after := ts[..from], ts[from..to], ts[to..];
    CanonicalIsAlike(before + after, 1);
    AlikeParts(before, after, left, right);
    AlikeItself(taken);
    AlikeItself(newest);
    SplitRange(ts, from, to);
    AlikeJoin(before, taken, left, taken);
    AlikeJoin(before + taken, after, left + taken, right);
    if Alike(origin, l + newest + r) {
      var more := if forward then newest + taken else taken + newest;
      AlikeItself(more);
      AlikeJoin(before, more, left, more);
      AlikeJoin(before + more, after, left + more, right);
      RegroupKill(ts, l, r, from, to, newest, forward);
      AlikeOn(origin, before + more + after, left + more + right);
    }
  }

  lemma RegroupKill(
    ts: seq<Token>, l: seq<Token>, r: seq<Token>, from: nat, to: nat, newest: seq<Token>, forward: bool)
    requires from <= to <= |ts| && ts == l + r && if forward then from == |l| else to == |l|
    ensures ts[..from] + (if forward then newest + ts[from..to] else ts[from..to] + newest) + ts[to..] == l + newest + r
  {
    if forward {
      assert r == ts[from..to] + ts[to..] && l == ts[..from];
    } else {
      assert l == ts[..from] + ts[from..to] && r == ts[to..];
    }
  }

  /** What a run of kills took fits into the ring: it was part of a buffer that fits. */
  lemma NewestFits(left: seq<Token>, newest: seq<Token>, right: seq<Token>, origin: seq<Token>, maximum: nat)
    requires Alike(origin, left + newest + right) && InBudget(origin, maximum)
    ensures FragmentBytes(FragmentOf(newest)) <= maximum
  {
    hide Alike, FragmentBytes, FragmentOf, Expand;
    BudgetOfAlike(origin, left + newest + right, maximum);
    BudgetOfPart(left, newest, right, maximum);
    FragmentBytesAre(newest);
  }

  lemma OneEntry(entries: seq<Fragment>)
    requires |entries| == 1
    ensures MultilineEditor.RingBytes(entries) == FragmentBytes(entries[0])
  {
    hide FragmentBytes;
    assert entries[..0] == [];
    assert MultilineEditor.RingBytes(entries[..0]) == 0;
  }

  // ----- scanning the markers -----

  lemma StartScan(ts: seq<Token>)
    ensures At(ts, 0) == 0 && Expand(ts[..0]) == "" && ts[0..] == ts && Count(ts[..0]) == 0
    ensures Marks(ts, 0)[0..] == Marks(ts, 0) && FragmentMarks(ts, 0)[0..] == FragmentMarks(ts, 0)
    ensures forall n: nat :: Canonical(ts[..0], n) == []
    ensures Text([]) == "" && FragmentMarks([], 0) == []
  {
  }

  lemma MoreToScan(ts: seq<Token>, k: nat, at: int)
    requires Titled(ts) && k <= |ts| && Marks(ts[k..], at) != []
    ensures Count(ts[k..]) > 0
  {
    MarksInside(ts[k..], at);
  }

  lemma ScanStep(ts: seq<Token>, k: nat, j: nat, ms: seq<Marker>, index: nat)
    requires NextPaste(ts, k, j) && index < |ms| && Marks(ts[k..], At(ts, k)) == ms[index..]
    requires Marks(ts[k..], At(ts, k)) == MarkOf(ts[j], At(ts, j)) + Marks(ts[j + 1..], At(ts, j + 1))
    ensures ms[index] == Marker(At(ts, j), At(ts, j) + |ts[j].title|, ts[j].payload, ts[j].title, ts[j].ordinal)
    ensures Marks(ts[j + 1..], At(ts, j + 1)) == ms[index + 1..]
  {
    hide Marks, At;
    var rest := ms[index..];
    assert rest[0] == ms[index] && rest[1..] == ms[index + 1..];
    var one := MarkOf(ts[j], At(ts, j));
    assert |one| == 1 && rest[0] == one[0] && rest[1..] == Marks(ts[j + 1..], At(ts, j + 1));
  }

  lemma LastScan(ts: seq<Token>, k: nat)
    requires k <= |ts| && Count(ts[..k]) == Count(ts)
    ensures Count(ts[k..]) == 0
  {
    assert ts == ts[..k] + ts[k..];
    CountJoin(ts[..k], ts[k..]);
  }

  // ----- inserting -----

  /** How many more bytes the buffer takes, as displayed and as expanded. */
  function RoomFor(ts: seq<Token>, maximum: nat): nat {
    var expanded, displayed := Bytes(Expand(ts)), Fixed(ts) + OrdinalDigits(1, Count(ts));
    var room := if maximum - expanded < maximum - displayed then maximum - expanded else maximum - displayed;
    if room < 0 then 0 else room
  }

  lemma NoChars(ts: seq<Token>)
    ensures ts + Chars("") == ts
    ensures forall n :: ByteTruncate("", n) == ""
  {
  }

  lemma RoomLeft(ts: seq<Token>, maximum: nat)
    requires InBudget(ts, maximum)
    ensures Bytes(Expand(ts)) + RoomFor(ts, maximum) <= maximum
    ensures Fixed(ts) + OrdinalDigits(1, Count(ts)) + RoomFor(ts, maximum) <= maximum
  {
    hide Bytes, Expand, Fixed, OrdinalDigits, Count;
  }

  lemma {:induction false} CharsText(s: string)
    ensures Text(Chars(s)) == s && AllChars(Chars(s)) && Fixed(Chars(s)) == Bytes(s)
  {
    if s != "" {
      CharsText(s[1..]);
      assert Chars(s)[1..] == Chars(s[1..]);
    }
  }

  lemma InsertText(l: seq<Token>, f: seq<Token>, r: seq<Token>)
    ensures |Text(l)| <= |Text(l + r)| && |Text(l + f)| == |Text(l)| + |Text(f)|
    ensures Text(l + r)[..|Text(l)|] + Text(f) + Text(l + r)[|Text(l)|..] == Text(l + f + r)
  {
    hide Text;
    TextJoin(l, r);
    TextJoin(l + f, r);
    TextJoin(l, f);
    assert (Text(l) + Text(r))[..|Text(l)|] == Text(l) && (Text(l) + Text(r))[|Text(l)|..] == Text(r);
  }

  lemma MarksOfThree(l: seq<Token>, f: seq<Token>, r: seq<Token>)
    ensures Marks(l + f + r, 0) == Marks(l, 0) + Marks(f, |Text(l)|) + Marks(r, |Text(l)| + |Text(f)|)
  {
    hide Marks, Text;
    MarksJoin(l + f, r, 0);
    MarksJoin(l, f, 0);
    TextJoin(l, f);
  }

  /** Inserted characters keep every label. */
  lemma CharsInserted(l: seq<Token>, s: string, r: seq<Token>, maximum: nat)
    requires l + r == Canonical(l + r, 1) && InBudget(l + r, maximum)
    requires Bytes(s) <= RoomFor(l + r, maximum)
    ensures var ts := l + Chars(s) + r;
      && ts == Canonical(ts, 1) && InBudget(ts, maximum)
      && |Text(l)| <= |Text(l + r)| && |Text(l + Chars(s))| == |Text(l)| + |s|
      && Text(l + r)[..|Text(l)|] + s + Text(l + r)[|Text(l)|..] == Text(ts)
      && Shifted(Marks(l + r, 0), |Text(l)|, |s|) == Marks(ts, 0)
  {
    hide Text, Marks, Canonical, Shifted, Bytes, Chars, AllChars, Titled, RoomFor, InBudget;
    var f := Chars(s);
    CharsText(s);
    CharsShow(f);
    InsertText(l, f, r);
    CanonicalIsTitled(l + r);
    TitledPart(l + r, 0, |l|);
    TitledPart(l + r, |l|, |l + r|);
    assert (l + r)[..|l|] == l && (l + r)[|l|..] == r;
    ShiftMarks(l, r, |s|);
    MarksOfThree(l, f, r);
    assert Marks(l, 0) + [] == Marks(l, 0);
    CharsCanonical(l, f, r);
    CharsBudget(l, s, r, maximum);
  }

  lemma CharsCanonical(l: seq<Token>, f: seq<Token>, r: seq<Token>)
    requires AllChars(f) && l + r == Canonical(l + r, 1)
    ensures l + f + r == Canonical(l + f + r, 1)
  {
    hide Canonical, Count, AllChars, Alike;
    CharsShow(f);
    CanonicalJoin(l, r, 1);
    CanonicalJoin(l + f, r, 1);
    CanonicalJoin(l, f, 1);
    CountJoin(l, f);
    SameLength(l, 1);
    assert (l + r)[..|l|] == l && (Canonical(l, 1) + Canonical(r, 1 + Count(l)))[..|l|] == Canonical(l, 1);
    assert (l + r)[|l|..] == r;
  }

  lemma SameLength(ts: seq<Token>, n: nat)
    ensures |Canonical(ts, n)| == |ts|
  {
    hide Canonical;
    CanonicalIsAlike(ts, n);
  }

  lemma CharsBudget(l: seq<Token>, s: string, r: seq<Token>, maximum: nat)
    requires InBudget(l + r, maximum) && Bytes(s) <= RoomFor(l + r, maximum)
    ensures InBudget(l + Chars(s) + r, maximum)
  {
    RoomLeft(l + r, maximum);
    hide Bytes, Expand, Fixed, OrdinalDigits, Count, Chars, Text, RoomFor;
    var f := Chars(s);
    CharsText(s);
    CharsShow(f);
    ThreeSums(l, f, r);
  }

  lemma ThreeSums(l: seq<Token>, f: seq<Token>, r: seq<Token>)
    ensures Count(l + f + r) == Count(l + r) + Count(f)
    ensures Fixed(l + f + r) == Fixed(l + r) + Fixed(f)
    ensures Bytes(Expand(l + f + r)) == Bytes(Expand(l + r)) + Bytes(Expand(f))
  {
    hide Bytes, Expand, Count, Fixed;
    CountJoin(l + f, r);
    CountJoin(l, f);
    CountJoin(l, r);
    FixedJoin(l + f, r);
    FixedJoin(l, f);
    FixedJoin(l, r);
    ExpandJoin(l + f, r);
    ExpandJoin(l, f);
    ExpandJoin(l, r);
    BytesJoin(Expand(l + f), Expand(r));
    BytesJoin(Expand(l), Expand(f));
    BytesJoin(Expand(l), Expand(r));
  }

  lemma MoreToMaterialize(f: seq<Token>, k: nat, at: int)
    requires k <= |f| && FragmentMarks(f[k..], at) != []
    ensures Count(f[k..]) > 0
  {
    FragmentMarksInside(f[k..], at);
  }

  lemma FragmentStep(f: seq<Token>, k: nat, j: nat, ms: seq<FragmentMarker>, index: nat)
    requires NextPaste(f, k, j) && index < |ms| && FragmentMarks(f[k..], At(f, k)) == ms[index..]
    requires FragmentMarks(f[k..], At(f, k)) == FragmentMark(f[j], At(f, j)) + FragmentMarks(f[j + 1..], At(f, j + 1))
    ensures f[j].Paste? && ms[index] == FragmentMarker(At(f, j), At(f, j) + |f[j].title|, f[j].payload)
    ensures FragmentMarks(f[j + 1..], At(f, j + 1)) == ms[index + 1..]
  {
    hide FragmentMarks, At;
    var rest := ms[index..];
    assert rest[0] == ms[index] && rest[1..] == ms[index + 1..];
    var one := FragmentMark(f[j], At(f, j));
    assert |one| == 1 && rest[0] == one[0] && rest[1..] == FragmentMarks(f[j + 1..], At(f, j + 1));
  }

  lemma MaterialStep(a: seq<Token>, b: seq<Token>, t: Token, n: nat)
    requires AllChars(b) && t.Paste?
    ensures var title := PasteLabel(n, t.payload);
      && Text(a + b + [Numbered(t, n)]) == Text(a) + Text(b) + title
      && FragmentMarks(a + b + [Numbered(t, n)], 0)
        == FragmentMarks(a, 0) + [FragmentMarker(|Text(a) + Text(b)|, |Text(a) + Text(b)| + |title|, t.payload)]
  {
    hide Text, FragmentMarks, AllChars, PasteLabel;
    var u := Numbered(t, n);
    CharsShow(b);
    TextJoin(a + b, [u]);
    TextJoin(a, b);
    TextOne(u);
    FragmentMarksJoin(a + b, [u], 0);
    FragmentMarksJoin(a, b, 0);
    FragmentMarksOne(u, |Text(a + b)|);
    assert FragmentMarks(a, 0) + [] == FragmentMarks(a, 0);
  }

  lemma MaterialNext(f: seq<Token>, k: nat, j: nat, n: nat)
    requires NextPaste(f, k, j)
    ensures f[j].Paste?
    ensures var title := PasteLabel(n + Count(f[..k]), f[j].payload);
      var shown := Text(Canonical(f[..k], n)) + Text(f[k..j]);
      && Text(Canonical(f[..j + 1], n)) == shown + title
      && FragmentMarks(Canonical(f[..j + 1], n), 0)
        == FragmentMarks(Canonical(f[..k], n), 0) + [FragmentMarker(|shown|, |shown| + |title|, f[j].payload)]
  {
    hide Text, FragmentMarks, PasteLabel, Canonical, Count, Numbered;
    ScanCanonical(f, k, j, n);
    MaterialStep(Canonical(f[..k], n), f[k..j], f[j], n + Count(f[..k]));
  }

  lemma FragmentParts(ts: seq<Token>)
    ensures FragmentOf(ts) == Fragment(Text(ts), FragmentMarks(ts, 0))
  {
  }

  lemma StartMaterial(f: seq<Token>, n: nat)
    ensures Text(Canonical(f[..0], n)) == "" && FragmentMarks(Canonical(f[..0], n), 0) == []
  {
  }

  lemma MaterialEnd(a: seq<Token>, b: seq<Token>)
    requires Count(b) == 0
    ensures Text(a + b) == Text(a) + Text(b) && FragmentMarks(a + b, 0) == FragmentMarks(a, 0)
  {
    hide Text, FragmentMarks, Count;
    NoPasteLeft(b);
    CharsShow(b);
    TextJoin(a, b);
    FragmentMarksJoin(a, b, 0);
    assert FragmentMarks(a, 0) + [] == FragmentMarks(a, 0);
  }

  lemma MaterialIsSome(f: seq<Token>, n: nat)
    ensures Text(Canonical(f, n)) == "" <==> f == []
    ensures Bytes(Text(Canonical(f, n))) == Fixed(f) + OrdinalDigits(n, Count(f))
    ensures f == [] ==> Canonical(f, n) == []
  {
    CanonicalBytes(f, n);
    hide Bytes, OrdinalDigits, Count, Fixed;
    CanonicalIsAlike(f, n);
    if f != [] {
      TextSome(Canonical(f, n));
    }
  }

  /** The markers that are pushed for an inserted fragment. */
  function ToMarkers(g: string, ms: seq<FragmentMarker>, start: int, ordinal: nat): seq<Marker> {
    if ms == [] then []
    else
      var m := ms[0];
      [Marker(start + m.start, start + m.end, m.payload, Slice(g, start + m.start, start + m.end), ordinal)]
      + ToMarkers(g, ms[1..], start, ordinal + 1)
  }

  lemma {:induction false} ToMarkersJoin(
    g: string, a: seq<FragmentMarker>, b: seq<FragmentMarker>, start: int, ordinal: nat)
    ensures ToMarkers(g, a + b, start, ordinal)
      == ToMarkers(g, a, start, ordinal) + ToMarkers(g, b, start, ordinal + |a|)
  {
    hide Slice;
    if a == [] {
      assert a + b == b;
    } else {
      assert (a + b)[0] == a[0] && (a + b)[1..] == a[1..] + b;
      ToMarkersJoin(g, a[1..], b, start, ordinal + 1);
    }
  }

  lemma ToMarkersOne(before: string, t: Token, after: string, start: nat, n: nat)
    requires start <= |before|
    ensures var u := Numbered(t, n);
      ToMarkers(before + Shown(u) + after, FragmentMark(u, |before| - start), start, n) == MarkOf(u, |before|)
  {
    hide PasteLabel;
    var u := Numbered(t, n);
    var g := before + Shown(u) + after;
    if t.Paste? {
      assert Slice(g, |before|, |before| + |u.title|) == u.title;
      assert FragmentMark(u, |before| - start)[1..] == [];
      assert ToMarkers(g, [], start, n + 1) == [];
    }
  }

  lemma NumberedCount(t: Token, n: nat, at: int)
    ensures |FragmentMark(Numbered(t, n), at)| == Following(t, n) - n
  {
  }

  lemma {:induction false} ToMarkersAre(before: string, f: seq<Token>, n: nat, after: string, start: nat)
    requires start <= |before|
    ensures ToMarkers(
        before + Text(Canonical(f, n)) + after, FragmentMarks(Canonical(f, n), |before| - start), start, n)
      == Marks(Canonical(f, n), |before|)
    decreases |f|
  {
    hide Shown, Numbered, FragmentMark, MarkOf, ToMarkers;
    if f != [] {
      var next := Following(f[0], n);
      var us := Canonical(f, n);
      var u, rest := us[0], us[1..];
      assert rest == Canonical(f[1..], next) && u == Numbered(f[0], n);
      ToMarkersAre(before + Shown(u), f[1..], next, after, start);
      assert before + (Shown(u) + Text(rest)) + after == before + Shown(u) + Text(rest) + after
        == before + Shown(u) + (Text(rest) + after);
      ToMarkersOne(before, f[0], Text(rest) + after, start, n);
      NumberedCount(f[0], n, |before| - start);
      ToMarkersJoin(before + Text(us) + after, FragmentMark(u, |before| - start),
        FragmentMarks(rest, |before + Shown(u)| - start), start, n);
    } else {
      NoMarkers(before + Text([]) + after, start, n);
    }
  }

  lemma NoMarkers(g: string, start: int, n: nat)
    ensures ToMarkers(g, [], start, n) == []
  {
  }

  lemma MarkersOf(before: string, f: seq<Token>, n: nat, after: string)
    ensures ToMarkers(before + Text(Canonical(f, n)) + after, FragmentMarks(Canonical(f, n), 0), |before|, n)
      == Marks(Canonical(f, n), |before|)
  {
    hide ToMarkers, Canonical, Text;
    ToMarkersAre(before, f, n, after, |before|);
  }

  lemma MarksInserted(l: seq<Token>, us: seq<Token>, r: seq<Token>)
    requires Titled(l) && Titled(us) && Titled(r)
    ensures SortByStart(Shifted(Marks(l + r, 0), |Text(l)|, |Text(us)|) + Marks(us, |Text(l)|)) == Marks(l + us + r, 0)
  {
    hide Text, Marks, Shifted, SortByStart, Titled, Ascending;
    TitledJoin(l, us);
    TitledJoin(l + us, r);
    ShiftMarks(l, r, |Text(us)|);
    MarksOfThree(l, us, r);
    MarksAscend(l + us + r, 0);
    SortedIn(Marks(l, 0), Marks(r, |Text(l)| + |Text(us)|), Marks(us, |Text(l)|));
  }

  lemma TextOfThree(l: seq<Token>, us: seq<Token>, r: seq<Token>)
    ensures Text(l + us + r) == Text(l) + Text(us) + Text(r)
  {
    hide Text;
    TextJoin(l + us, r);
    TextJoin(l, us);
  }

  /** Text and markers after tokens were put between `l` and `r`, before renumbering. */
  lemma TokensInserted(l: seq<Token>, us: seq<Token>, r: seq<Token>)
    requires Titled(l + r) && Titled(us)
    ensures Titled(l + us + r)
    ensures |Text(l)| <= |Text(l + r)| && |Text(l + us)| == |Text(l)| + |Text(us)|
    ensures Text(l + us + r) == Text(l) + Text(us) + Text(r)
    ensures Text(l + r)[..|Text(l)|] + Text(us) + Text(l + r)[|Text(l)|..] == Text(l + us + r)
    ensures SortByStart(Shifted(Marks(l + r, 0), |Text(l)|, |Text(us)|) + Marks(us, |Text(l)|)) == Marks(l + us + r, 0)
  {
    hide Text, Marks, Shifted, SortByStart, Titled;
    TitledPart(l + r, 0, |l|);
    TitledPart(l + r, |l|, |l + r|);
    assert (l + r)[..|l|] == l && (l + r)[|l|..] == r;
    TitledJoin(l, us);
    TitledJoin(l + us, r);
    InsertText(l, us, r);
    TextOfThree(l, us, r);
    MarksInserted(l, us, r);
  }

  /** What the checks before an insertion add up to. */
  lemma InsertedCounts(l: seq<Token>, f: seq<Token>, r: seq<Token>, maximum: nat)
    requires Bytes(Expand(l + f + r)) <= maximum
    ensures InBudget(l + f + r, maximum) <==>
      && Count(l + r) + Count(f) <= MAX_PASTE_MARKERS
      && Fixed(l + r) + OrdinalDigits(1, Count(l + r))
           + (Fixed(f) + OrdinalDigits(Count(l + r) + 1, Count(f))) <= maximum
  {
    hide Bytes, Expand, Count, Fixed, OrdinalDigits;
    ThreeSums(l, f, r);
    DigitsSplit(1, Count(l + r), Count(f));
  }

  lemma InsertedAlike(l: seq<Token>, f: seq<Token>, n: nat, r: seq<Token>, maximum: nat)
    requires InBudget(l + f + r, maximum)
    ensures Canonical(l + Canonical(f, n) + r, 1) == Canonical(l + f + r, 1)
    ensures var ts := Canonical(l + f + r, 1); Canonical(ts, 1) == ts && InBudget(ts, maximum) && |ts| == |l + f + r|
    ensures |Canonical(f, n)| == |f| && Titled(Canonical(f, n))
  {
    hide Canonical, InBudget, Alike;
    CanonicalIsAlike(f, n);
    AlikeItself(l);
    AlikeItself(r);
    AlikeJoin(l, f, l, Canonical(f, n));
    AlikeJoin(l + f, r, l + Canonical(f, n), r);
    CanonicalOfAlike(l + f + r, l + Canonical(f, n) + r, 1);
    CanonicalSettles(l + f + r, maximum);
    SameLength(l + f + r, 1);
    SameLength(f, n);
  }

  lemma StartIs(l: seq<Token>, us: seq<Token>, r: seq<Token>)
    ensures At(l + us + r, |l|) == |Text(l)|
  {
    assert (l + us + r)[..|l|] == l;
  }

  lemma SettledParts2(l: seq<Token>, r: seq<Token>)
    ensures At(l + r, |l|) == |Text(l)|
  {
    assert (l + r)[..|l|] == l;
  }

  predicate IsLarge(safe: string) {
    LineCount(safe) > LARGE_PASTE_LINES || |safe| > LARGE_PASTE_CHARACTERS
  }

  lemma NothingFits()
    ensures forall n :: ByteTruncate("", n) == ""
    ensures !IsLarge("")
  {
  }

  /** When a marker fits: the order of the markers does not matter. */
  lemma MarkerFits(l: seq<Token>, payload: string, n: nat, r: seq<Token>, maximum: nat)
    requires InBudget(l + r, maximum) && n == Count(l + r) + 1
    requires Bytes(payload) + Bytes(Expand(l + r)) <= maximum
    ensures InBudget(l + [Paste(payload, "", 0)] + r, maximum) <==>
      && Count(l + r) < MAX_PASTE_MARKERS
      && Fixed(l + r) + OrdinalDigits(1, Count(l + r)) + Bytes(PasteLabel(n, payload)) <= maximum
  {
    hide Bytes, Expand, Count, Fixed, PasteLabel, OrdinalDigits;
    var t := Paste(payload, "", 0);
    ThreeSums(l, [t], r);
    OneMarkerSums(payload, n);
    DigitsSplit(1, Count(l + r), 1);
  }

  lemma OneMarkerSums(payload: string, n: nat)
    ensures var f := [Paste(payload, "", 0)];
      && Count(f) == 1 && Expand(f) == payload
      && Fixed(f) + OrdinalDigits(n, 1) == Bytes(PasteLabel(n, payload))
  {
    hide Bytes, PasteLabel;
    var f := [Paste(payload, "", 0)];
    assert f[1..] == [];
    LabelLength(n, payload);
    assert OrdinalDigits(n, 1) == OrdinalDigits(n, 0) + |NatText(n)|;
    assert payload + Expand([]) == payload;
  }

  lemma OneMarker(l: seq<Token>, payload: string, n: nat, r: seq<Token>, maximum: nat)
    requires InBudget(l + [Paste(payload, "", 0)] + r, maximum)
    ensures var us := [Paste(payload, PasteLabel(n, payload), n)];
      && Titled(us) && Text(us) == PasteLabel(n, payload)
      && Marks(us, |Text(l)|)
           == [Marker(|Text(l)|, |Text(l)| + |PasteLabel(n, payload)|, payload, PasteLabel(n, payload), n)]
      && Canonical(l + us + r, 1) == Canonical(l + [Paste(payload, "", 0)] + r, 1)
    ensures var ts := Canonical(l + [Paste(payload, "", 0)] + r, 1); Canonical(ts, 1) == ts && InBudget(ts, maximum)
  {
    hide Text, Marks, Canonical, InBudget, PasteLabel;
    var t, u := Paste(payload, "", 0), Paste(payload, PasteLabel(n, payload), n);
    LabelSome(n, payload);
    TextOne(u);
    MarksOne(u, |Text(l)|);
    AlikeItself(l);
    AlikeItself(r);
    AlikeJoin(l, [t], l, [u]);
    AlikeJoin(l + [t], r, l + [u], r);
    CanonicalOfAlike(l + [t] + r, l + [u] + r, 1);
    CanonicalSettles(l + [t] + r, maximum);
  }

  // ----- yanking -----

  /** What a run of kills took fits again where it was taken from. */
  lemma KilledFits(l: seq<Token>, f: seq<Token>, r: seq<Token>, origin: seq<Token>, maximum: nat)
    ensures Alike(origin, l + f + r) && InBudget(origin, maximum) && origin == Canonical(origin, 1) ==>
      InBudget(l + f + r, maximum) && Canonical(l + f + r, 1) == origin
  {
    hide Alike, InBudget, Canonical;
    if Alike(origin, l + f + r) && InBudget(origin, maximum) && origin == Canonical(origin, 1) {
      BudgetOfAlike(origin, l + f + r, maximum);
      CanonicalOfAlike(origin, l + f + r, 1);
    }
  }

  lemma FragmentCounts(f: seq<Token>)
    ensures |FragmentOf(f).pastes| == Count(f) && FragmentBytes(FragmentOf(f)) == Bytes(Expand(f))
    ensures FragmentOf(f).graphemes == Text(f)
  {
    hide Bytes, Count, Expand, FragmentBytes;
    FragmentMarksInside(f, 0);
    FragmentBytesAre(f);
  }

  /** The three checks of a yank come to this: the result fits. */
  lemma YankChecks(l: seq<Token>, f: seq<Token>, r: seq<Token>, maximum: nat)
    ensures InBudget(l + f + r, maximum) <==>
      && Count(l + r) + Count(f) <= MAX_PASTE_MARKERS
      && Bytes(Expand(l + r)) + Bytes(Expand(f)) <= maximum
      && Fixed(l + r) + OrdinalDigits(1, Count(l + r)) + Bytes(Text(Canonical(f, Count(l + r) + 1))) <= maximum
    ensures Bytes(Expand(l + f + r)) == Bytes(Expand(l + r)) + Bytes(Expand(f))
  {
    hide Bytes, Expand, Count, Fixed, OrdinalDigits, Canonical, Text;
    ThreeSums(l, f, r);
    CanonicalBytes(f, Count(l + r) + 1);
    DigitsSplit(1, Count(l + r), Count(f));
  }

  // ----- replacing the last yank -----

  lemma InsideIsFragment(ts: seq<Token>, i: nat, j: nat)
    requires Titled(ts) && i <= j <= |ts|
    ensures Inside(Marks(ts, 0), At(ts, i), At(ts, j)) == FragmentMarks(ts[i..j], 0)
  {
    hide Text, Marks, Inside, FragmentMarks, Titled;
    if i < j {
      CutTokens(ts, i, j);
    } else {
      EmptyRange(ts, i);
    }
  }

  lemma EmptyRange(ts: seq<Token>, i: nat)
    requires Titled(ts) && i <= |ts|
    ensures Inside(Marks(ts, 0), At(ts, i), At(ts, i)) == [] && FragmentMarks(ts[i..i], 0) == []
  {
    MarksInside(ts, 0);
    NoneInside(Marks(ts, 0), At(ts, i));
  }

  lemma {:induction false} NoneInside(ms: seq<Marker>, p: int)
    requires forall i :: 0 <= i < |ms| ==> ms[i].start < ms[i].end
    ensures Inside(ms, p, p) == []
  {
    if ms != [] {
      NoneInside(ms[1..], p);
    }
  }

  lemma MiddleOfCanonical(a: seq<Token>, b: seq<Token>, c: seq<Token>)
    requires a + b + c == Canonical(a + b + c, 1)
    ensures b == Canonical(b, 1 + Count(a))
  {
    hide Canonical, Count, Alike;
    CanonicalJoin(a + b, c, 1);
    CanonicalJoin(a, b, 1);
    SameLength(a, 1);
    SameLength(b, 1 + Count(a));
    MiddlesAgree(a, b, c, Canonical(a, 1), Canonical(b, 1 + Count(a)), Canonical(c, 1 + Count(a + b)));
  }

  lemma CanonicalPart(ts: seq<Token>, i: nat, j: nat)
    requires i <= j <= |ts| && ts == Canonical(ts, 1)
    ensures ts[i..j] == Canonical(ts[i..j], 1 + Count(ts[..i]))
  {
    hide Canonical, Count, Alike;
    SplitRange(ts, i, j);
    MiddleOfCanonical(ts[..i], ts[i..j], ts[j..]);
  }

  lemma MiddlesAgree<T>(a: seq<T>, b: seq<T>, c: seq<T>, x: seq<T>, y: seq<T>, z: seq<T>)
    requires a + b + c == x + y + z && |a| == |x| && |b| == |y|
    ensures b == y
  {
    assert b == (a + b + c)[|a|..|a| + |b|];
    assert y == (x + y + z)[|x|..|x| + |y|];
  }

  /** A fragment is accepted in place of some tokens: its markers, what it expands to, and what it
      would show with labels numbered after all present markers, those to be replaced included. */
  ghost predicate Replaceable(ts: seq<Token>, i: int, j: int, f: seq<Token>, maximum: nat) {
    && 0 <= i <= j <= |ts|
    && Count(ts) - Count(ts[i..j]) + Count(f) <= MAX_PASTE_MARKERS
    && Bytes(Expand(ts)) - Bytes(Expand(ts[i..j])) + Bytes(Expand(f)) <= maximum
    && Bytes(Text(ts)) - Bytes(Text(ts[i..j])) + Bytes(Text(Canonical(f, Count(ts) + 1))) <= maximum
  }

  lemma ReplaceableIs(ts: seq<Token>, i: nat, j: nat, f: seq<Token>, maximum: nat)
    requires i <= j <= |ts|
    ensures Replaceable(ts, i, j, f, maximum) <==>
      && Count(ts) - Count(ts[i..j]) + Count(f) <= MAX_PASTE_MARKERS
      && Bytes(Expand(ts)) - Bytes(Expand(ts[i..j])) + Bytes(Expand(f)) <= maximum
      && Bytes(Text(ts)) - Bytes(Text(ts[i..j])) + Bytes(Text(Canonical(f, Count(ts) + 1))) <= maximum
  {
    hide Bytes, Expand, Count, Canonical, Text;
  }

  /** Labels numbered later are never shorter than the labels in the end. */
  lemma ReplacementChecks(ts: seq<Token>, i: nat, j: nat, f: seq<Token>, maximum: nat)
    requires i <= j <= |ts| && ts == Canonical(ts, 1)
    ensures Replaceable(ts, i, j, f, maximum) ==> InBudget(ts[..i] + f + ts[j..], maximum)
  {
    hide Bytes, Expand, Count, Fixed, OrdinalDigits, Canonical, Text;
    var l, m, r := ts[..i], ts[i..j], ts[j..];
    SplitRange(ts, i, j);
    ThreeSums(l, m, r);
    ThreeSums(l, f, r);
    CountJoin(l, r);
    CanonicalPart(ts, i, j);
    CanonicalBytes(ts, 1);
    CanonicalBytes(m, 1 + Count(l));
    CanonicalBytes(f, Count(ts) + 1);
    DigitsSplit(1, Count(l), Count(m) + Count(r));
    DigitsSplit(1 + Count(l), Count(m), Count(r));
    DigitsGrow(1 + Count(l), 1 + Count(l) + Count(m), Count(r));
    DigitsSplit(1, Count(l), Count(r));
    DigitsGrow(Count(l) + Count(r) + 1, Count(ts) + 1, Count(f));
    DigitsSplit(1, Count(l) + Count(r), Count(f));
  }

  lemma AfterDeletion(
    ts: seq<Token>, i: nat, j: nat, left: seq<Token>, right: seq<Token>, f: seq<Token>, maximum: nat)
    requires i <= j <= |ts| && left + right == Canonical(ts[..i] + ts[j..], 1) && |left| == i
    requires InBudget(ts[..i] + f + ts[j..], maximum)
    ensures InBudget(left + f + right, maximum) && Bytes(Expand(left + f + right)) <= maximum
    ensures Canonical(left + f + right, 1) == Canonical(ts[..i] + f + ts[j..], 1)
  {
    hide Canonical, Alike, Bytes, Expand, Fixed, Count;
    CanonicalIsAlike(ts[..i] + ts[j..], 1);
    AlikeParts(ts[..i], ts[j..], left, right);
    AlikeItself(f);
    AlikeJoin(ts[..i], f, left, f);
    AlikeJoin(ts[..i] + f, ts[j..], left + f, right);
    CanonicalOfAlike(ts[..i] + f + ts[j..], left + f + right, 1);
    BudgetOfAlike(ts[..i] + f + ts[j..], left + f + right, maximum);
  }

  // ----- restoring -----

  predicate OccursAt(haystack: string, needle: string, i: int) {
    0 <= i && i + |needle| <= |haystack| && haystack[i..i + |needle|] == needle
  }

  /** Where a text first occurs from some place on; an empty one occurs nowhere. */
  function Occurrence(haystack: string, needle: string, from: nat): (start: Option<nat>)
    ensures start.Some? ==> needle != "" && from <= start.value && OccursAt(haystack, needle, start.value)
    decreases |haystack| - from
  {
    if needle == "" || from + |needle| > |haystack| then None
    else if OccursAt(haystack, needle, from) then Some(from)
    else Occurrence(haystack, needle, from + 1)
  }

  /** The markers whose labels still occur in a text, each after the one before. */
  function StillShown(g: string, ms: seq<Marker>, from: nat): seq<Marker> {
    if ms == [] then []
    else
      match Occurrence(g, ms[0].title, from)
      case None => StillShown(g, ms[1..], from)
      case Some(i) =>
        [Marker(i, i + |ms[0].title|, ms[0].payload, ms[0].title, 0)] + StillShown(g, ms[1..], i + |ms[0].title|)
  }

  lemma StillShownNext(g: string, kept: seq<Marker>, ms: seq<Marker>, index: nat, from: nat)
    requires index < |ms|
    ensures kept + StillShown(g, ms[index..], from) ==
      match Occurrence(g, ms[index].title, from)
      case None => kept + StillShown(g, ms[index + 1..], from)
      case Some(i) =>
        var next := i + |ms[index].title|;
        kept + [Marker(i, next, ms[index].payload, ms[index].title, 0)] + StillShown(g, ms[index + 1..], next)
  {
    hide Occurrence;
    assert ms[index..][0] == ms[index] && ms[index..][1..] == ms[index + 1..];
  }

  lemma StillShownEnds(g: string, kept: seq<Marker>, ms: seq<Marker>, from: nat)
    ensures kept + StillShown(g, ms[|ms|..], from) == kept && [] + StillShown(g, ms[0..], 0) == StillShown(g, ms, 0)
  {
    assert ms[0..] == ms;
  }

  method FindGraphemes(haystack: string, needle: string, from: nat) returns (start: Option<nat>)
    requires from <= |haystack|
    ensures start.Some? ==> needle != "" && from <= start.value && OccursAt(haystack, needle, start.value)
    ensures start == Occurrence(haystack, needle, from)
  {
    if needle == "" {
      return None;
    }
    var i := from;
    while i + |needle| <= |haystack|
      invariant from <= i
      invariant Occurrence(haystack, needle, from) == Occurrence(haystack, needle, i)
      decreases |haystack| - i
    {
      if OccursAt(haystack, needle, i) {
        return Some(i);
      }
      i := i + 1;
    }
    return None;
  }

  function First<T>(s: seq<T>, n: nat): seq<T> {
    if |s| > n then s[..n] else s
  }

  /** The markers of a snapshot that come back with text `g`. */
  function ChoiceFor(g: string, pastes: seq<Marker>, maximum: nat): Choice {
    ConsiderAll(g, Start(g), First(SortByStart(pastes), MAX_PASTE_MARKERS), maximum)
  }

  lemma AllFrom(g: string, s: Choice, cs: seq<Marker>, maximum: nat)
    ensures ConsiderAll(g, s, cs[0..], maximum) == ConsiderAll(g, s, cs, maximum)
  {
    assert cs[0..] == cs;
  }

  lemma OneFrom(g: string, s: Choice, cs: seq<Marker>, index: nat, maximum: nat)
    requires index < |cs|
    ensures ConsiderAll(g, s, cs[index..], maximum)
      == ConsiderAll(g, Consider(g, s, cs[index], maximum), cs[index + 1..], maximum)
  {
    hide Consider;
    assert cs[index..][1..] == cs[index + 1..];
  }

  lemma NoneFrom(g: string, s: Choice, cs: seq<Marker>, maximum: nat)
    ensures ConsiderAll(g, s, cs[|cs|..], maximum) == s
  {
  }

  /** The tokens that a restored text and its chosen markers stand for. */
  lemma RestoredTokens(g: string, pastes: seq<Marker>, maximum: nat) returns (ts: seq<Token>)
    requires Bytes(g) <= maximum
    ensures Titled(ts) && Text(ts) == g && Marks(ts, 0) == ChoiceFor(g, pastes, maximum).chosen
    ensures InBudget(ts, maximum) && (Printable(g) ==> AllShow(ts))
  {
    hide Bytes, Text, Marks, Titled, InBudget, Chosen, ConsiderAll, SortByStart, Count, Printable, AllShow;
    StartsChosen(g, maximum);
    NoTokens();
    var done := ConsiderAllKeeps(g, Start(g), [], First(SortByStart(pastes), MAX_PASTE_MARKERS), maximum);
    ts := ChosenTokens(g, ChoiceFor(g, pastes, maximum), done, maximum);
    if Printable(g) {
      ChosenShow(g, Start(g), First(SortByStart(pastes), MAX_PASTE_MARKERS), maximum);
      TokensShow(ts, 0);
    }
  }

  /** Text and markers that show are those of tokens that show. */
  lemma {:induction false} TokensShow(ts: seq<Token>, at: int)
    requires Titled(ts) && Printable(Text(ts)) && MarkersShow(Marks(ts, at))
    ensures AllShow(ts)
    decreases |ts|
  {
    hide Text, Marks, Titled, Shown, Printable, AllShow, MarkersShow;
    if ts == [] {
      NoneShow();
    } else {
      FirstMark(ts, at);
      FirstShown(ts);
      FirstShows(ts, at);
      TokensShow(ts[1..], at + |Shown(ts[0])|);
      assert ts == [ts[0]] + ts[1..];
      ShowJoin([ts[0]], ts[1..]);
    }
  }

  ghost predicate MarkersShow(ms: seq<Marker>) {
    forall i :: 0 <= i < |ms| ==> Printable(ms[i].payload)
  }

  lemma NoneShow()
    ensures AllShow([])
  {
  }

  lemma FirstShows(ts: seq<Token>, at: int)
    requires ts != [] && Titled(ts) && Printable(Text(ts)) && MarkersShow(Marks(ts, at))
    ensures AllShow([ts[0]]) && Printable(Text(ts[1..])) && MarkersShow(Marks(ts[1..], at + |Shown(ts[0])|))
  {
    hide Text, Marks, Shown, Titled;
    FirstMark(ts, at);
    FirstShown(ts);
    var rest := Text(ts)[|Shown(ts[0])|..];
    assert forall i :: 0 <= i < |rest| ==> rest[i] == Text(ts)[i + |Shown(ts[0])|];
    if ts[0].Paste? {
      assert forall i :: 0 <= i < |Marks(ts, at)[1..]| ==> Marks(ts, at)[1..][i] == Marks(ts, at)[i + 1];
    }
  }

  lemma ChosenShow(g: string, s: Choice, cs: seq<Marker>, maximum: nat)
    requires MarkersShow(s.chosen)
    ensures MarkersShow(ConsiderAll(g, s, cs, maximum).chosen)
    decreases |cs|
  {
    hide Consider, MarkersShow;
    if cs != [] {
      OneChosenShows(g, s, cs[0], maximum);
      ChosenShow(g, Consider(g, s, cs[0], maximum), cs[1..], maximum);
    }
  }

  lemma OneChosenShows(g: string, s: Choice, c: Marker, maximum: nat)
    requires MarkersShow(s.chosen)
    ensures MarkersShow(Consider(g, s, c, maximum).chosen)
  {
    hide Sanitize, ByteTruncate, Printable, Bytes, PasteLabel;
    SanitizedShows(c.payload);
    TruncatedShows(Sanitize(c.payload), maximum);
  }

  lemma NoTokens()
    ensures Count([]) == 0
  {
  }

  /** `us` is what restoring a snapshot gives, with `n` of the tokens before the cursor. */
  ghost predicate Restored(us: seq<Token>, n: nat, snapshot: Snapshot, maximum: nat) {
    exists ts ::
      RestoresTo(us, ts, snapshot, maximum) && NearestPlace(ts, Clamped(snapshot.cursor, |Text(ts)|), n)
  }

  /** The place between tokens that is at a position, or, inside a marker, its nearer end. */
  ghost predicate NearestPlace(ts: seq<Token>, position: int, n: nat) {
    && n <= |ts|
    && (forall i :: 0 <= i <= |ts| && At(ts, i) == position ==> n == i)
    && (forall i :: 0 <= i < |ts| && At(ts, i) < position < At(ts, i + 1) ==>
          n == if position - At(ts, i) < At(ts, i + 1) - position then i else i + 1)
  }

  ghost predicate RestoresTo(us: seq<Token>, ts: seq<Token>, snapshot: Snapshot, maximum: nat) {
    var g := ByteTruncate(Sanitize(snapshot.text), maximum);
    && us == Canonical(ts, 1) && Titled(ts)
    && Text(ts) == g && Marks(ts, 0) == ChoiceFor(g, snapshot.pastes, maximum).chosen
  }

  /** The tokens that a snapshot stands for. */
  lemma TokensOf(snapshot: Snapshot, maximum: nat) returns (ts: seq<Token>)
    ensures var g := ByteTruncate(Sanitize(snapshot.text), maximum);
      && Titled(ts) && Text(ts) == g && Marks(ts, 0) == ChoiceFor(g, snapshot.pastes, maximum).chosen
      && InBudget(ts, maximum) && AllShow(ts)
    ensures RestoresTo(Canonical(ts, 1), ts, snapshot, maximum)
  {
    hide Text, Marks, Titled, ByteTruncate, Sanitize, ChoiceFor, Canonical, InBudget, AllShow, Bytes, Printable;
    ts := RestoredTokens(ByteTruncate(Sanitize(snapshot.text), maximum), snapshot.pastes, maximum);
    SanitizedShows(snapshot.text);
    TruncatedShows(Sanitize(snapshot.text), maximum);
  }

  lemma RestoresToParts(us: seq<Token>, ts: seq<Token>, snapshot: Snapshot, maximum: nat)
    requires RestoresTo(us, ts, snapshot, maximum)
    ensures us == Canonical(ts, 1)
  {
    hide Text, Marks, Titled, ByteTruncate, Sanitize, ChoiceFor, Canonical;
  }

  lemma PayloadsAreShown(ts: seq<Token>)
    requires AllShow(ts)
    ensures PayloadsShow(ts)
  {
    hide Printable;
  }

  lemma SplitAgain<T>(a: seq<T>, b: seq<T>)
    ensures (a + b)[..|a|] == a && (a + b)[|a|..] == b
  {
  }

  lemma ClampedIs(cursor: int, length: nat)
    requires 0 <= cursor <= length
    ensures Clamped(cursor, length) == cursor
  {
  }

  function Clamped(cursor: int, length: nat): (p: nat)
    ensures p <= length
  {
    if cursor < 0 then 0 else if cursor > length then length else cursor
  }

  lemma PlacesDiffer(ts: seq<Token>)
    requires Titled(ts)
    ensures forall i, j :: 0 <= i <= |ts| && 0 <= j <= |ts| && At(ts, i) == At(ts, j) ==> i == j
  {
    hide At, Titled;
    forall i, j | 0 <= i <= |ts| && 0 <= j <= |ts| && At(ts, i) == At(ts, j) ensures i == j {
      AtOrder(ts, i, j);
      AtOrder(ts, j, i);
    }
  }

  lemma NoPlaceInside(ts: seq<Token>, k: nat)
    requires Titled(ts) && k < |ts|
    ensures forall i :: 0 <= i <= |ts| && At(ts, k) <= At(ts, i) < At(ts, k + 1) ==> i == k
  {
    hide At, Titled;
    forall i | 0 <= i <= |ts| && At(ts, k) <= At(ts, i) < At(ts, k + 1) ensures i == k {
      AtOrder(ts, i, k + 1);
      AtOrder(ts, k, i);
    }
  }

  lemma PlaceHere(ts: seq<Token>, k: nat)
    requires Titled(ts) && k <= |ts|
    ensures NearestPlace(ts, At(ts, k), k)
  {
    hide At, Titled;
    PlacesDiffer(ts);
    forall i | 0 <= i < |ts| && At(ts, i) < At(ts, k) < At(ts, i + 1) ensures false {
      NoPlaceInside(ts, i);
    }
  }

  lemma PlaceInside(ts: seq<Token>, k: nat, position: int, n: nat)
    requires Titled(ts) && k < |ts| && At(ts, k) < position < At(ts, k + 1)
    requires n == if position - At(ts, k) < At(ts, k + 1) - position then k else k + 1
    ensures NearestPlace(ts, position, n)
  {
    hide At, Titled;
    NoPlaceInside(ts, k);
    forall i | 0 <= i < |ts| && At(ts, i) < position < At(ts, i + 1) ensures i == k {
      if i < k {
        AtOrder(ts, i + 1, k);
      } else {
        AtOrder(ts, k + 1, i);
      }
    }
  }

  lemma PlaceIs(ts: seq<Token>, position: int, n: nat, k: nat)
    requires NearestPlace(ts, position, n) && k <= |ts| && At(ts, k) == position
    ensures n == k
  {
    hide At;
  }

  lemma RestoredBy(us: seq<Token>, n: nat, ts: seq<Token>, snapshot: Snapshot, maximum: nat)
    requires RestoresTo(us, ts, snapshot, maximum) && NearestPlace(ts, Clamped(snapshot.cursor, |Text(ts)|), n)
    ensures Restored(us, n, snapshot, maximum)
  {
    hide RestoresTo, NearestPlace, Clamped, Text;
  }

  lemma NothingShows(maximum: nat)
    ensures Text([]) == "" && Marks([], 0) == [] && Canonical([], 1) == [] && InBudget([], maximum)
  {
  }

  lemma NothingShown(ts: seq<Token>)
    requires Titled(ts)
    ensures Text(ts) == "" <==> ts == []
  {
    if ts != [] {
      TextSome(ts);
    }
  }

  /** Text and markers determine the tokens. */
  lemma {:induction false} TokensAreDetermined(ts: seq<Token>, us: seq<Token>, at: int)
    requires Titled(ts) && Titled(us) && Text(ts) == Text(us) && Marks(ts, at) == Marks(us, at)
    ensures ts == us
    decreases |ts|
  {
    if ts == [] || us == [] {
      if ts != [] {
        TextSome(ts);
        assert false;
      } else if us != [] {
        TextSome(us);
        assert false;
      }
    } else {
      FirstTokens(ts, us, at);
      var t := ts[0];
      TokensAreDetermined(ts[1..], us[1..], at + |Shown(t)|);
      assert ts == [t] + ts[1..] && us == [t] + us[1..];
    }
  }

  lemma FirstMark(ts: seq<Token>, at: int)
    requires ts != [] && Titled(ts)
    ensures ts[0].Paste? <==> Marks(ts, at) != [] && Marks(ts, at)[0].start == at
    ensures ts[0].Paste? ==>
      && Marks(ts, at)[0] == Marker(at, at + |ts[0].title|, ts[0].payload, ts[0].title, ts[0].ordinal)
      && Marks(ts, at)[1..] == Marks(ts[1..], at + |Shown(ts[0])|)
    ensures ts[0].Char? ==> Marks(ts, at) == Marks(ts[1..], at + |Shown(ts[0])|)
    ensures Titled(ts[1..])
  {
    TitledPart(ts, 1, |ts|);
    hide Titled;
    MarksInside(ts[1..], at + |Shown(ts[0])|);
  }

  lemma FirstShown(ts: seq<Token>)
    requires ts != []
    ensures Text(ts) == Shown(ts[0]) + Text(ts[1..]) && Text(ts)[|Shown(ts[0])|..] == Text(ts[1..])
    ensures ts[0].Char? ==> Shown(ts[0]) == [ts[0].c] && Text(ts)[0] == ts[0].c
  {
  }

  lemma FirstTokens(ts: seq<Token>, us: seq<Token>, at: int)
    requires ts != [] && us != [] && Titled(ts) && Titled(us)
    requires Text(ts) == Text(us) && Marks(ts, at) == Marks(us, at)
    ensures ts[0] == us[0] && Titled(ts[1..]) && Titled(us[1..])
    ensures Text(ts[1..]) == Text(us[1..])
    ensures Marks(ts[1..], at + |Shown(ts[0])|) == Marks(us[1..], at + |Shown(ts[0])|)
  {
    hide Text, Titled, Marks, Shown;
    FirstMark(ts, at);
    FirstMark(us, at);
    FirstShown(ts);
    FirstShown(us);
  }

  /** Restoring the snapshot of a numbered buffer in budget brings the buffer back if and only if
      the text fits with its first markers expanded, however many. */
  lemma RestoreBringsBack(us: seq<Token>, cursor: int, ts: seq<Token>, maximum: nat)
    requires us == Canonical(us, 1) && InBudget(us, maximum)
    requires PayloadsShow(us) && Printable(Text(us))
    requires RestoresTo(Canonical(ts, 1), ts, Snapshot(Text(us), cursor, PasteSnapshots(Marks(us, 0))), maximum)
    ensures Canonical(ts, 1) == us <==> forall k :: 0 <= k <= |us| ==> PartlyExpanded(us, k) <= maximum
    ensures Canonical(ts, 1) == us ==> ts == us
  {
    hide Text, Marks, Canonical, InBudget, ByteTruncate, Sanitize, SortByStart, PasteSnapshots, ConsiderAll, Titled;
    hide PartlyExpanded, Printable, PayloadsShow, Bytes, Expand, Count;
    TitledCanonical(us, maximum);
    PrintableStays(Text(us), maximum);
    OwnCandidates(us, maximum);
    SnapshotComesBack(us, maximum);
    if Marks(ts, 0) == Marks(us, 0) {
      TokensAreDetermined(ts, us, 0);
    } else if Canonical(ts, 1) == us {
      AsManyMarks(ts, 1);
      assert false;
    }
  }

  lemma AsManyMarks(ts: seq<Token>, n: nat)
    requires Titled(ts)
    ensures |Marks(ts, 0)| == |Marks(Canonical(ts, n), 0)|
  {
    hide Text, Marks, Canonical, Titled, Labelled, Alike, Expand;
    CanonicalIsAlike(ts, n);
    MarksInside(ts, 0);
    MarksInside(Canonical(ts, n), 0);
  }

  lemma OwnCandidates(us: seq<Token>, maximum: nat)
    requires Titled(us) && InBudget(us, maximum)
    ensures First(SortByStart(PasteSnapshots(Marks(us, 0))), MAX_PASTE_MARKERS) == PasteSnapshots(Marks(us, 0))
  {
    hide Marks, SortByStart, Titled, Text;
    MarksInside(us, 0);
    MarksAscend(us, 0);
    SnapshotsAscend(Marks(us, 0));
    SnapshotCount(Marks(us, 0));
    SortedAlready(PasteSnapshots(Marks(us, 0)));
  }

  lemma {:induction false} SnapshotsAscend(ms: seq<Marker>)
    requires Ascending(ms)
    ensures Ascending(PasteSnapshots(ms)) && |PasteSnapshots(ms)| == |ms|
    ensures forall i :: 0 <= i < |ms| ==> PasteSnapshots(ms)[i].start == ms[i].start
  {
    if ms != [] {
      SnapshotsAscend(ms[1..]);
    }
  }
}
