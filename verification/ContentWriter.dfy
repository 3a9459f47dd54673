/** The writer that turns protocol events into an assistant message and its event stream. */
module ContentWriter {
  import opened Options
  import opened JsonLines
  import opened CanonicalJson
  import opened OrderedMap
  import opened ContentBudget
  import opened ContentEvents

  /** Which identities are acceptable, what is blank, how arguments parse, and how they are made
      canonical (`None` where the program throws) are left open. */
  const IDENTITY_FITS: string -> bool
  const IS_BLANK_TEXT: string -> bool
  const PARSE_JSON: string -> Option<Json>
  const CANONICALIZE: Json -> Option<Canonical>

  function ParseArguments(raw: string): Option<Json> {
    if IS_BLANK_TEXT(raw) then Some(Object(map[]))
    else if Bytes(raw) > MAX_FIELD_BYTES then None
    else PARSE_JSON(raw)
  }

  function CanonicalArguments(value: Json): (c: Option<Canonical>)
    ensures c.Some? ==> c.value.bytes <= MAX_FIELD_BYTES
  {
    var c := CANONICALIZE(value);
    if c.Some? && c.value.bytes <= MAX_FIELD_BYTES then c else None
  }

  class CanonicalWriter {
    var content: seq<Block>
    var args: Pairs<string>
    var argumentBytes: Pairs<nat>
    var fieldBytes: Pairs<nat>
    var signatureBytes: Pairs<nat>
    var open: Pairs<()>
    var contentBytes: int

    /** The events pushed so far. */
    ghost var log: seq<Event>
    /** No discarded tool found keys out of order. */
    ghost var sound: bool
    /** Every tool was started at the end of the content or behind it. */
    ghost var appended: bool
    /** Every tool was started exactly at the end, as when no index is passed. */
    ghost var inTurn: bool
    /** How many tools were discarded. */
    ghost var discards: nat
    /** Every tool was started exactly at the end, and none was discarded. */
    ghost var clean: bool

    ghost function Now(): State
      reads this
    {
      State(content, args, argumentBytes, fieldBytes, signatureBytes, open, contentBytes)
    }

    ghost predicate Valid()
      reads this
    {
      && (sound ==> Accounted(Now()))
      && (appended ==> sound && AllAscending(Now()))
      && (clean ==> appended && Bracketing(log, Now()))
      && Counted(|content|, log, appended, inTurn, discards, clean)
    }

    constructor ()
      ensures Valid() && Now() == State([], [], [], [], [], [], 0) && log == []
      ensures sound && appended && inTurn && discards == 0 && clean
    {
      content, args, argumentBytes, fieldBytes, signatureBytes, open, contentBytes := [], [], [], [], [], [], 0;
      log, sound, appended, inTurn, discards, clean := [], true, true, true, 0, true;
    }

    // ----- text and thinking -----

    method StartBlock(b: Block)
      requires Valid() && IsEmptyBlock(b) && |content| < MAX_BLOCKS
      modifies this
      ensures Valid() && Now() == Opened(old(Now()), b) && log == old(log) + [Started(|old(content)|, KindOf(b))]
      ensures sound == old(sound) && appended == old(appended) && clean == old(clean)
      ensures inTurn == old(inTurn) && discards == old(discards)
    {
      hide *;
      ghost var s := Now();
      Parts();
      OpenedIs(s, b);
      OpenedKeeps(s, b, log, sound, appended, clean);
      CountedStart(|content|, log, |content|, KindOf(b), appended, inTurn, discards, clean);
      open := Put(open, |content|, ());
      content := content + [b];
      log := log + [Started(|s.content|, KindOf(b))];
      Whole();
    }

    method Extend(index: nat, delta: string, field: nat)
      requires Valid() && index + 1 == |content| && !content[index].ToolBlock? && Find(open, index).Some?
      requires sound ==> field == OrZero(Find(fieldBytes, index))
      requires Bytes(delta) <= MAX_FIELD_BYTES - field && Bytes(delta) <= MAX_CONTENT_BYTES - contentBytes
      modifies this
      ensures Valid() && Now() == Extended(old(Now()), index, delta, field) && log == old(log) + [Grew(index, delta)]
      ensures sound == old(sound) && appended == old(appended) && clean == old(clean)
      ensures inTurn == old(inTurn) && discards == old(discards)
    {
      hide *;
      ghost var s := Now();
      Parts();
      ExtendedIs(s, index, delta, field);
      ExtendedKeeps(s, index, delta, field, log, sound, appended, clean);
      CountedStays(|content|, log, Grew(index, delta), appended, inTurn, discards, clean);
      content := content[index := Longer(content[index], delta)];
      fieldBytes := Put<nat>(fieldBytes, index, field + Bytes(delta));
      contentBytes := contentBytes + Bytes(delta);
      log := log + [Grew(index, delta)];
      Whole();
    }

    /** Appends to the last block if it is open and of the right kind, and otherwise starts one. */
    method Text(delta: string, thinking: bool) returns (ok: bool)
      requires Valid()
      modifies this
      ensures Valid() && sound == old(sound) && appended == old(appended) && clean == old(clean)
      ensures inTurn == old(inTurn) && discards == old(discards)
      ensures ok <==> delta == "" || TakesText(old(Now()), thinking, delta)
      ensures !ok || delta == "" ==> Now() == old(Now()) && log == old(log)
      ensures ok && delta != "" ==>
        var s := Begun(old(Now()), thinking);
        && Now() == Extended(s, |s.content| - 1, delta, FieldFor(old(Now()), thinking))
        && log == old(log) + Beginning(old(Now()), thinking) + [Grew(|s.content| - 1, delta)]
    {
      hide Bytes, Find, Put, Accounted, AllAscending, Bracketing, KindOf, Counted;
      if delta == "" {
        return true;
      }
      var continues := |content| > 0 && IsKind(content[|content| - 1], thinking) && Find(open, |content| - 1).Some?;
      var index := if continues then |content| - 1 else |content|;
      var field := if continues then OrZero(Find(fieldBytes, index)) else 0;
      if Bytes(delta) > MAX_FIELD_BYTES - field || Bytes(delta) > MAX_CONTENT_BYTES - contentBytes {
        return false;
      }
      if !continues {
        if |content| >= MAX_BLOCKS {
          return false;
        }
        FindPut(open, index, (), index);
        NoField(Now(), index, sound);
        StartBlock(EmptyBlock(thinking));
      }
      Extend(index, delta, field);
      return true;
    }

    // ----- tools -----

    /** Fills the content up to an index with empty text blocks that are never open. */
    method FillGap(target: nat)
      requires Valid() && |content| <= target < MAX_BLOCKS
      modifies this`content, this`clean, this`inTurn
      ensures Valid() && log == old(log) && sound == old(sound) && appended == old(appended)
      ensures clean == (old(clean) && |old(content)| == target) && inTurn == (old(inTurn) && |old(content)| == target)
      ensures Now() == Filled(old(Now()), target) && |content| == target && discards == old(discards)
    {
      hide Accounted, AllAscending, Bracketing, Counted;
      CountedGap(|content|, target, log, appended, inTurn, discards, clean);
      ghost var s := Now();
      clean, inTurn := clean && |content| == target, inTurn && |content| == target;
      while |content| < target
        invariant |s.content| <= |content| <= target
        invariant content == s.content + seq(|content| - |s.content|, i => TextBlock(""))
        decreases target - |content|
        modifies this`content
      {
        content := content + [TextBlock("")];
      }
      GapKeeps(s, Now(), target, sound, appended);
      assert |s.content| == target ==> Now() == s;
    }

    method ReplaceByTool(k: nat, id: string, name: string)
      requires k <= |content|
      modifies this`content, this`args, this`argumentBytes, this`fieldBytes, this`signatureBytes, this`open
      modifies this`contentBytes
      ensures content == PutBlock(old(content), k, ToolBlock(id, name, None)) && args == Put(old(args), k, "")
      ensures argumentBytes == Put<nat>(old(argumentBytes), k, 0) && open == Put(old(open), k, ())
      ensures fieldBytes == Delete(old(fieldBytes), k) && signatureBytes == Delete(old(signatureBytes), k)
      ensures contentBytes
        == old(contentBytes) - OrZero(Find(old(fieldBytes), k)) - OrZero(Find(old(signatureBytes), k))
           + EMPTY_TOOL_ARGUMENT_BYTES
    {
      hide *;
      contentBytes := contentBytes - OrZero(Find(fieldBytes, k)) - OrZero(Find(signatureBytes, k))
        + EMPTY_TOOL_ARGUMENT_BYTES;
      fieldBytes, signatureBytes := Delete(fieldBytes, k), Delete(signatureBytes, k);
      content := PutBlock(content, k, ToolBlock(id, name, None));
      args, argumentBytes, open := Put(args, k, ""), Put<nat>(argumentBytes, k, 0), Put(open, k, ());
    }

    method PlaceTool(k: nat, id: string, name: string)
      requires Valid() && k <= |content| && k < MAX_BLOCKS && (k < |content| ==> !content[k].ToolBlock?)
      requires contentBytes - OrZero(Find(fieldBytes, k)) - OrZero(Find(signatureBytes, k)) + EMPTY_TOOL_ARGUMENT_BYTES
        <= MAX_CONTENT_BYTES
      modifies this
      ensures Valid() && Now() == PlacedTool(old(Now()), k, id, name) && log == old(log) + [Started(k, ToolKind)]
      ensures sound == old(sound)
      ensures appended == (old(appended) && k == |old(content)|) && inTurn == (old(inTurn) && k == |old(content)|)
      ensures clean == (old(clean) && k == |old(content)|) && discards == old(discards)
    {
      hide *;
      ghost var s := Now();
      Parts();
      PlacedIs(s, k, id, name);
      PlacedKeeps(s, k, id, name, log, sound, appended, clean);
      CountedStart(|content|, log, k, ToolKind, appended, inTurn, discards, clean);
      ReplaceByTool(k, id, name);
      log := log + [Started(k, ToolKind)];
      appended, inTurn := appended && k == |s.content|, inTurn && k == |s.content|;
      clean := clean && k == |s.content|;
      Whole();
    }

    /** Starts a tool call at an index, by default at the end. An index that already holds a tool
        is left alone; other content there is replaced. */
    method StartTool(id: string, name: string, index: Option<int>) returns (started: Option<nat>)
      requires Valid()
      modifies this
      ensures Valid() && sound == old(sound) && discards == old(discards)
      ensures started.Some? <==>
        IDENTITY_FITS(id) && IDENTITY_FITS(name) && RoomForTool(old(Now()), Target(old(Now()), index))
      ensures started.Some? ==> started.value == Target(old(Now()), index)
      ensures started.None? || HoldsTool(old(Now()), started.value) ==>
        && Now() == old(Now()) && log == old(log) && appended == old(appended) && inTurn == old(inTurn)
        && clean == old(clean)
      ensures started.Some? && !HoldsTool(old(Now()), started.value) ==>
        && Now() == PlacedTool(Filled(old(Now()), started.value), started.value, id, name)
        && log == old(log) + [Started(started.value, ToolKind)]
        && appended == (old(appended) && started.value >= |old(content)|)
        && inTurn == (old(inTurn) && started.value == |old(content)|)
        && clean == (old(clean) && started.value == |old(content)|)
      ensures index.None? ==> inTurn == old(inTurn)
    {
      hide Accounted, AllAscending, Bracketing, Find, Put, Counted, PlacedTool;
      if !IDENTITY_FITS(id) || !IDENTITY_FITS(name) {
        return None;
      }
      var target := if index.Some? then index.value else |content|;
      if target < 0 || target >= MAX_BLOCKS {
        return None;
      }
      if target < |content| && content[target].ToolBlock? {
        return Some(target);
      }
      var retained := contentBytes - OrZero(Find(fieldBytes, target)) - OrZero(Find(signatureBytes, target));
      if EMPTY_TOOL_ARGUMENT_BYTES > MAX_CONTENT_BYTES - retained {
        return None;
      }
      if |content| < target {
        FillGap(target);
      }
      PlaceTool(target, id, name);
      return Some(target);
    }

    method Widen(k: nat, delta: string, raw: string, count: nat)
      requires Valid() && k < |content| && content[k].ToolBlock? && Find(open, k).Some?
      requires sound ==> Find(args, k) == Some(raw) && Find(argumentBytes, k) == Some(count)
      requires Bytes(delta) <= MAX_FIELD_BYTES - count
      requires WidenedBytes(Now(), count, delta) <= MAX_CONTENT_BYTES
      modifies this
      ensures Valid() && Now() == Widened(old(Now()), k, delta, raw, count) && log == old(log) + [Grew(k, delta)]
      ensures sound == old(sound) && appended == old(appended) && clean == old(clean)
      ensures inTurn == old(inTurn) && discards == old(discards)
    {
      hide *;
      ghost var s := Now();
      Parts();
      WidenedIs(s, k, delta, raw, count);
      WidenedKeeps(s, k, delta, raw, count, log, sound, appended, clean);
      CountedStays(|content|, log, Grew(k, delta), appended, inTurn, discards, clean);
      args, argumentBytes := Put(args, k, raw + delta), Put<nat>(argumentBytes, k, count + Bytes(delta));
      contentBytes := contentBytes - Larger(count, EMPTY_TOOL_ARGUMENT_BYTES)
        + Larger(count + Bytes(delta), EMPTY_TOOL_ARGUMENT_BYTES);
      log := log + [Grew(k, delta)];
      Whole();
    }

    method ToolDelta(index: nat, delta: string) returns (ok: bool)
      requires Valid()
      modifies this
      ensures Valid() && sound == old(sound) && appended == old(appended) && clean == old(clean)
      ensures inTurn == old(inTurn) && discards == old(discards)
      ensures ok <==> delta == "" || TakesDelta(old(Now()), index, delta)
      ensures !ok || delta == "" ==> Now() == old(Now()) && log == old(log)
      ensures ok && delta != "" ==>
        && Now() == Widened(old(Now()), index, delta, Text0(Find(old(Now()).args, index)),
                            OrZero(Find(old(Now()).argumentBytes, index)))
        && log == old(log) + [Grew(index, delta)]
    {
      hide Accounted, AllAscending, Bracketing, Find, Put, Bytes, Counted;
      if delta == "" {
        return true;
      }
      if index >= |content| || !content[index].ToolBlock? || Find(open, index).None? {
        return false;
      }
      var count := OrZero(Find(argumentBytes, index));
      if Bytes(delta) > MAX_FIELD_BYTES - count {
        return false;
      }
      var retained := contentBytes - Larger(count, EMPTY_TOOL_ARGUMENT_BYTES);
      var next := retained + Larger(count + Bytes(delta), EMPTY_TOOL_ARGUMENT_BYTES);
      if next > MAX_CONTENT_BYTES {
        return false;
      }
      ToolIsKept(Now(), index, sound);
      Widen(index, delta, Text0(Find(args, index)), count);
      return true;
    }

    method Sign(k: nat, delta: string, count: nat)
      requires Valid() && k + 1 == |content| && content[k].ThinkingBlock? && Find(open, k).Some?
      requires sound ==> count == OrZero(Find(signatureBytes, k))
      requires Bytes(delta) <= MAX_FIELD_BYTES - count && Bytes(delta) <= MAX_CONTENT_BYTES - contentBytes
      modifies this
      ensures Valid() && Now() == Signed(old(Now()), k, delta, count) && log == old(log)
      ensures sound == old(sound) && appended == old(appended) && clean == old(clean)
      ensures inTurn == old(inTurn) && discards == old(discards)
    {
      hide *;
      ghost var s := Now();
      Parts();
      SignedIs(s, k, delta, count);
      SignedKeeps(s, k, delta, count, log, sound, appended, clean);
      content := content[k := LongerSignature(content[k], delta)];
      signatureBytes := Put<nat>(signatureBytes, k, count + Bytes(delta));
      contentBytes := contentBytes + Bytes(delta);
      Whole();
    }

    method ThinkingSignature(delta: string) returns (ok: bool)
      requires Valid()
      modifies this
      ensures Valid() && sound == old(sound) && appended == old(appended) && clean == old(clean) && log == old(log)
      ensures inTurn == old(inTurn) && discards == old(discards)
      ensures ok <==> delta == "" || TakesSignature(old(Now()), delta)
      ensures !ok || delta == "" ==> Now() == old(Now())
      ensures ok && delta != "" ==>
        var k := |old(content)| - 1;
        Now() == Signed(old(Now()), k, delta, OrZero(Find(old(signatureBytes), k)))
    {
      hide Accounted, AllAscending, Bracketing, Find, Put, Bytes, Counted;
      if delta == "" {
        return true;
      }
      var index := |content| - 1;
      if index < 0 || !content[index].ThinkingBlock? || Find(open, index).None? {
        return false;
      }
      var count := OrZero(Find(signatureBytes, index));
      if Bytes(delta) > MAX_FIELD_BYTES - count || Bytes(delta) > MAX_CONTENT_BYTES - contentBytes {
        return false;
      }
      Sign(index, delta, count);
      return true;
    }

    // ----- finishing -----

    method CompleteTool(k: nat, c: Canonical, retained: int)
      requires Valid() && k < |content| && content[k].ToolBlock? && Find(open, k).Some?
      requires retained == contentBytes - Larger(OrZero(Find(argumentBytes, k)), EMPTY_TOOL_ARGUMENT_BYTES)
      requires c.bytes <= MAX_FIELD_BYTES && c.bytes <= MAX_CONTENT_BYTES - retained
      modifies this
      ensures Valid() && Now() == CompletedTool(old(Now()), k, c) && log == old(log) + [Ended(k, content[k])]
      ensures sound == old(sound) && appended == old(appended) && clean == old(clean)
      ensures inTurn == old(inTurn) && discards == old(discards)
    {
      hide *;
      ghost var s := Now();
      Parts();
      CompletedIs(s, k, c);
      CompletedKeeps(s, k, c, log, sound, appended, clean);
      CountedStays(|content|, log, Ended(k, content[k].(arguments := Some(c))), appended, inTurn, discards, clean);
      content := content[k := content[k].(arguments := Some(c))];
      contentBytes := retained + c.bytes;
      args, argumentBytes, open := Delete(args, k), Delete(argumentBytes, k), Delete(open, k);
      log := log + [Ended(k, content[k])];
      Whole();
    }

    method RemoveBlock(k: nat, retained: int)
      requires k < |content|
      modifies this`content, this`args, this`argumentBytes, this`fieldBytes, this`signatureBytes, this`open
      modifies this`contentBytes
      ensures content == old(content)[..k] + old(content)[k + 1..] && contentBytes == retained
      ensures args == Removed(old(args), k) && argumentBytes == Removed(old(argumentBytes), k)
      ensures fieldBytes == Removed(old(fieldBytes), k) && signatureBytes == Removed(old(signatureBytes), k)
      ensures open == Removed(old(open), k)
    {
      hide Renumbered, Delete;
      content := content[..k] + content[k + 1..];
      contentBytes := retained;
      args := RemoveIndex(args, k);
      argumentBytes := RemoveIndex(argumentBytes, k);
      fieldBytes := RemoveIndex(fieldBytes, k);
      signatureBytes := RemoveIndex(signatureBytes, k);
      open := RemoveIndex(open, k);
    }

    /** Takes a tool out. The loops that renumber the later blocks go through the keys in the order
        in which they were inserted; out of order they make entries collide. */
    method DiscardTool(k: nat, retained: int)
      requires Valid() && k < |content| && content[k].ToolBlock? && Find(open, k).Some?
      requires retained == contentBytes - Larger(OrZero(Find(argumentBytes, k)), EMPTY_TOOL_ARGUMENT_BYTES)
      modifies this
      ensures Valid() && Now() == Discarded(old(Now()), k, retained) && log == old(log)
      ensures sound == (old(sound) && AllInOrder(old(Now()), k)) && appended == old(appended) && !clean
      ensures inTurn == old(inTurn) && discards == old(discards) + 1
    {
      hide *;
      ghost var s := Now();
      Parts();
      DiscardedIs(s, k, retained);
      DiscardedKeeps(s, k, retained, log, sound, appended, clean);
      CountedDiscard(|content| - 1, log, appended, inTurn, discards, clean);
      RemoveBlock(k, retained);
      sound, discards, clean := sound && AllInOrder(s, k), discards + 1, false;
      Whole();
    }

    /** Finishes a tool call with its final, or else its streamed, arguments. When those are not
        acceptable the tool is discarded. */
    method FinishTool(index: nat, final: Option<Json>) returns (ok: bool)
      requires Valid()
      modifies this
      ensures Valid() && appended == old(appended) && inTurn == old(inTurn)
      ensures ok <==> !IsActive(old(Now()), index) || Fits(old(Now()), index, FinalArguments(old(Now()), index, final))
      ensures !IsActive(old(Now()), index) ==> Now() == old(Now()) && log == old(log)
      ensures ok ==> sound == old(sound) && clean == old(clean) && discards == old(discards)
      ensures ok && IsActive(old(Now()), index) ==>
        && Now() == CompletedTool(old(Now()), index, FinalArguments(old(Now()), index, final).value)
        && log == old(log) + [Ended(index, content[index])]
      ensures !ok ==>
        && Now() == Discarded(old(Now()), index, Retained(old(Now()), index)) && log == old(log)
        && sound == (old(sound) && AllInOrder(old(Now()), index)) && discards == old(discards) + 1 && !clean
    {
      hide Accounted, AllAscending, Bracketing, Find, Put, Delete, Bytes, AllInOrder, Renumbered, Counted, Discarded;
      if index >= |content| || !content[index].ToolBlock? || Find(open, index).None? {
        return true;
      }
      var raw := Text0(Find(args, index));
      var retained := contentBytes - Larger(OrZero(Find(argumentBytes, index)), EMPTY_TOOL_ARGUMENT_BYTES);
      var value := if final.Some? then final else ParseArguments(raw);
      var finalized := if value.Some? then CanonicalArguments(value.value) else None;
      if finalized.None? || finalized.value.bytes > MAX_CONTENT_BYTES - retained {
        DiscardTool(index, retained);
        return false;
      }
      CompleteTool(index, finalized.value, retained);
      return true;
    }

    method CloseText(k: nat)
      requires Valid() && k < |content| && !content[k].ToolBlock? && (clean ==> Find(open, k).Some?)
      modifies this
      ensures Valid() && Now() == old(Now()).(open := Delete(old(open), k)) && log == old(log) + [Ended(k, content[k])]
      ensures sound == old(sound) && appended == old(appended) && clean == old(clean)
      ensures inTurn == old(inTurn) && discards == old(discards)
    {
      hide *;
      ghost var s := Now();
      Parts();
      ClosedIs(s, k);
      ClosedKeeps(s, k, log, sound, appended, clean);
      CountedStays(|content|, log, Ended(k, content[k]), appended, inTurn, discards, clean);
      open := Delete(open, k);
      log := log + [Ended(k, content[k])];
      Whole();
    }

    /** Closes one block of the snapshot of open ones; only a tool can fail, and is discarded then. */
    method CloseBlock(index: nat) returns (closed: bool)
      requires Valid() && (clean && index < |content| ==> Find(open, index).Some?)
      modifies this
      ensures Valid() && appended == old(appended) && inTurn == old(inTurn)
      ensures var c := CloseOne(old(Now()), index);
        Now() == c.state && log == old(log) + c.events && closed == c.whole
      ensures closed ==>
        sound == old(sound) && clean == old(clean) && discards == old(discards) && |content| == |old(content)|
      ensures closed && index < |content| && Find(old(open), index).Some? ==> open == Delete(old(open), index)
      ensures !closed ==> !clean
    {
      hide Accounted, AllAscending, Bracketing, Find, Put, Delete, Bytes, AllInOrder, Renumbered, Valid, KindOf;
      hide Counted, FinalArguments, Discarded, Fits, Retained;
      if index >= |content| {
        return true;
      }
      if content[index].ToolBlock? {
        closed := FinishTool(index, None);
      } else {
        CloseText(index);
        closed := true;
      }
    }

    /** Closes every open block, in the order in which they were opened. A tool that cannot be
        finished is discarded; unless such failures are ignored, the first one ends the closing. */
    method CloseParts(ignoreToolErrors: bool) returns (ok: bool, ghost intact: bool)
      requires Valid()
      modifies this
      ensures Valid() && appended == old(appended) && inTurn == old(inTurn)
      ensures var c := Closing(old(Now()), old(open), ignoreToolErrors);
        Now() == c.state && log == old(log) + c.events && intact == c.whole && ok == (c.whole || ignoreToolErrors)
      ensures intact ==>
        && sound == old(sound) && clean == old(clean) && discards == old(discards) && |content| == |old(content)|
        && (sound ==> forall x: int :: Find(open, x).None?)
    {
      hide *;
      Parts();
      ghost var s := Now();
      var snapshot := open;
      ghost var events: seq<Event> := [];
      intact := true;
      SoundIsClean(s, log, sound, appended, clean);
      StartClosing(s, sound);
      ClosingStarts(s, snapshot, ignoreToolErrors);
      for n := 0 to |snapshot|
        invariant Valid() && appended == old(appended) && inTurn == old(inTurn) && (!ignoreToolErrors ==> intact)
        invariant !intact ==> !clean
        invariant log == old(log) + events
        invariant Closing(s, snapshot, ignoreToolErrors)
          == Before(events, intact, Closing(Now(), snapshot[n..], ignoreToolErrors))
        invariant intact ==>
          sound == old(sound) && clean == old(clean) && discards == old(discards) && |content| == |old(content)|
        invariant intact && sound ==> StillOpen(open, snapshot, n) && KeysIn(snapshot, |content|)
      {
        var index := snapshot[n].key;
        Parts();
        SoundIsClean(Now(), log, sound, appended, clean);
        if intact && sound {
          NextToClose(open, snapshot, n, |content|);
        }
        ClosingGoesOn(s, snapshot, ignoreToolErrors, Now(), events, intact, n);
        events := events + CloseOne(Now(), index).events;
        var closed := CloseBlock(index);
        if !closed {
          intact := false;
          if !ignoreToolErrors {
            return false, intact;
          }
        }
      }
      if intact && sound {
        AllClosed(open, snapshot);
      }
      ClosingEnds(Now(), snapshot, ignoreToolErrors, events, intact);
      ok := true;
    }

    /** Ends the message. When every tool was started at the end of the content, as when no index
        is passed, each block has one start, deltas that spell it, and one later end, if and only
        if no tool was discarded on the way. */
    method Done() returns (ok: bool)
      requires Valid()
      modifies this
      ensures Valid() && appended == old(appended) && inTurn == old(inTurn)
      ensures var c := Closing(old(Now()), old(open), false);
        && ok == c.whole && Now() == c.state
        && log == if ok then old(log) + c.events + [Finished] else old(log) + c.events
      ensures ok ==>
        sound == old(sound) && clean == old(clean) && discards == old(discards) && |content| == |old(content)|
      ensures ok && inTurn ==> (Bracketing(log, Now()) <==> discards == 0)
      ensures ok && sound ==> Accounted(Now()) && forall x: int :: Find(open, x).None?
      ensures ok && clean ==>
        forall i :: 0 <= i < |content| ==> Bracketed(Trace(log, i), i, content[i], Find(args, i), false)
    {
      hide Accounted, AllAscending, Find, Bracketed, Trace, Counted, Bracketing, Closing;
      ghost var intact;
      ok, intact := CloseParts(false);
      if !ok {
        return;
      }
      PushLast(Finished);
      if inTurn {
        BracketedUnlessDiscarded(Now(), log, sound, appended, inTurn, discards, clean);
      }
      if clean {
        AllBracketed(log, Now());
        forall i | 0 <= i < |content| ensures Bracketed(Trace(log, i), i, content[i], Find(args, i), false) {
          assert BracketedAt(log, Now(), i) && Find(open, i as int).None?;
        }
      }
    }

    /** Ends the message with an error. A tool that cannot be finished is discarded on the way, and
        the blocks after it, which the snapshot of the open ones knows by their old indexes, may
        then stay open. */
    method Fail()
      requires Valid()
      modifies this
      ensures Valid() && appended == old(appended) && inTurn == old(inTurn)
      ensures var c := Closing(old(Now()), old(open), true);
        && Now() == c.state && log == old(log) + c.events + [Failed]
        && (c.whole ==> discards == old(discards))
      ensures appended ==> Accounted(Now())
      ensures inTurn ==> (Bracketing(log, Now()) <==> discards == 0)
    {
      hide Accounted, AllAscending, Bracketing, Counted, Closing;
      var _, _ := CloseParts(true);
      PushLast(Failed);
      if inTurn {
        BracketedUnlessDiscarded(Now(), log, sound, appended, inTurn, discards, clean);
      }
    }

    ghost method PushLast(e: Event)
      requires Valid() && IsLast(e)
      modifies this`log
      ensures Valid() && log == old(log) + [e]
    {
      hide Accounted, AllAscending, Bracketing, Counted;
      Parts();
      SoundIsClean(Now(), log, sound, appended, clean);
      if clean {
        NothingMoves(log, e, Now());
      }
      CountedStays(|content|, log, e, appended, inTurn, discards, clean);
      log := log + [e];
    }

    lemma Parts()
      requires Valid()
      ensures Sound(Now(), log, sound, appended, clean)
      ensures Counted(|content|, log, appended, inTurn, discards, clean)
      ensures Now() == State(content, args, argumentBytes, fieldBytes, signatureBytes, open, contentBytes)
    {
      hide Accounted, AllAscending, Bracketing, Counted;
    }

    lemma Whole()
      requires Sound(
        State(content, args, argumentBytes, fieldBytes, signatureBytes, open, contentBytes), log, sound, appended,
        clean)
      requires Counted(|content|, log, appended, inTurn, discards, clean)
      ensures Valid()
      ensures Now() == State(content, args, argumentBytes, fieldBytes, signatureBytes, open, contentBytes)
    {
      hide Accounted, AllAscending, Bracketing, Counted;
    }
  }

  /** What `Valid` says, as a predicate of values. */
  ghost predicate Sound(s: State, log: seq<Event>, sound: bool, appended: bool, clean: bool) {
    && (sound ==> Accounted(s))
    && (appended ==> sound && AllAscending(s))
    && (clean ==> appended && Bracketing(log, s))
  }

  /** While every tool is started at the end of the content, the events bracket the blocks if and
      only if no tool was discarded: a discarded one leaves a start without a block. */
  lemma BracketedUnlessDiscarded(
    s: State, log: seq<Event>, sound: bool, appended: bool, inTurn: bool, discards: nat, clean: bool)
    requires clean ==> Bracketing(log, s)
    requires Counted(|s.content|, log, appended, inTurn, discards, clean) && inTurn
    ensures Bracketing(log, s) <==> discards == 0
  {
    hide Bracketing, Starts;
    if Bracketing(log, s) {
      BracketingCounts(log, s);
    }
  }

  lemma AllBracketed(log: seq<Event>, s: State)
    requires Bracketing(log, s)
    ensures forall i :: 0 <= i < |s.content| ==>
      Bracketed(Trace(log, i), i, s.content[i], Find(s.args, i), Find(s.open, i).Some?)
  {
    hide Bracketed, Trace, Find;
    forall i | 0 <= i < |s.content|
      ensures Bracketed(Trace(log, i), i, s.content[i], Find(s.args, i), Find(s.open, i).Some?)
    {
      assert BracketedAt(log, s, i);
    }
  }

  function Target(s: State, index: Option<int>): int {
    if index.Some? then index.value else |s.content|
  }

  predicate HoldsTool(s: State, k: int) {
    0 <= k < |s.content| && s.content[k].ToolBlock?
  }

  predicate RoomForTool(s: State, k: int) {
    && 0 <= k < MAX_BLOCKS
    && (!HoldsTool(s, k) ==>
          s.contentBytes - OrZero(Find(s.fieldBytes, k)) - OrZero(Find(s.signatureBytes, k)) + EMPTY_TOOL_ARGUMENT_BYTES
          <= MAX_CONTENT_BYTES)
  }

  /** A tool call that still takes arguments. */
  predicate IsActive(s: State, k: nat) {
    HoldsTool(s, k) && Find(s.open, k).Some?
  }

  predicate TakesDelta(s: State, k: nat, delta: string) {
    && IsActive(s, k) && Bytes(delta) <= MAX_FIELD_BYTES - OrZero(Find(s.argumentBytes, k))
    && WidenedBytes(s, OrZero(Find(s.argumentBytes, k)), delta) <= MAX_CONTENT_BYTES
  }

  predicate TakesSignature(s: State, delta: string) {
    var k := |s.content| - 1;
    && k >= 0 && s.content[k].ThinkingBlock? && Find(s.open, k).Some?
    && Bytes(delta) <= MAX_FIELD_BYTES - OrZero(Find(s.signatureBytes, k))
    && Bytes(delta) <= MAX_CONTENT_BYTES - s.contentBytes
  }

  function FinalArguments(s: State, k: nat, final: Option<Json>): Option<Canonical> {
    var value := if final.Some? then final else ParseArguments(Text0(Find(s.args, k)));
    if value.Some? then CanonicalArguments(value.value) else None
  }

  /** What the other blocks are charged for. */
  function Retained(s: State, k: nat): int {
    s.contentBytes - Larger(OrZero(Find(s.argumentBytes, k)), EMPTY_TOOL_ARGUMENT_BYTES)
  }

  predicate Fits(s: State, k: nat, final: Option<Canonical>) {
    final.Some? && final.value.bytes <= MAX_CONTENT_BYTES - Retained(s, k)
  }

  predicate IsEmptyBlock(b: Block) {
    b == TextBlock("") || b == ThinkingBlock("", "")
  }

  function EmptyBlock(thinking: bool): (b: Block)
    ensures IsEmptyBlock(b) && !b.ToolBlock?
  {
    if thinking then ThinkingBlock("", "") else TextBlock("")
  }

  predicate IsKind(b: Block, thinking: bool) {
    if thinking then b.ThinkingBlock? else b.TextBlock?
  }

  lemma NoField(s: State, n: nat, sound: bool)
    requires n == |s.content|
    ensures sound && Accounted(s) ==> Find(s.fieldBytes, n).None?
  {
    hide Find, OkAt, Total;
  }

  /** The last block takes more text. */
  predicate Continues(s: State, thinking: bool) {
    && |s.content| > 0 && IsKind(s.content[|s.content| - 1], thinking)
    && Find(s.open, |s.content| - 1).Some?
  }

  /** The bytes of the field that more text goes to. */
  function FieldFor(s: State, thinking: bool): nat {
    if Continues(s, thinking) then OrZero(Find(s.fieldBytes, |s.content| - 1)) else 0
  }

  predicate TakesText(s: State, thinking: bool, delta: string) {
    && Bytes(delta) <= MAX_FIELD_BYTES - FieldFor(s, thinking)
    && Bytes(delta) <= MAX_CONTENT_BYTES - s.contentBytes
    && (Continues(s, thinking) || |s.content| < MAX_BLOCKS)
  }

  /** The content with a block for more text at its end. */
  function Begun(s: State, thinking: bool): (t: State)
    ensures |t.content| > 0 && IsKind(t.content[|t.content| - 1], thinking)
  {
    if Continues(s, thinking) then s else Opened(s, EmptyBlock(thinking))
  }

  function Beginning(s: State, thinking: bool): seq<Event> {
    if Continues(s, thinking) then [] else [Started(|s.content|, KindOf(EmptyBlock(thinking)))]
  }

  function Opened(s: State, b: Block): State {
    s.(content := s.content + [b], open := Put(s.open, |s.content|, ()))
  }

  lemma OpenedIs(s: State, b: Block)
    ensures Opened(s, b) == State(
      s.content + [b], s.args, s.argumentBytes, s.fieldBytes, s.signatureBytes, Put(s.open, |s.content|, ()),
      s.contentBytes)
  {
  }

  lemma OpenedKeeps(s: State, b: Block, log: seq<Event>, sound: bool, appended: bool, clean: bool)
    requires Sound(s, log, sound, appended, clean) && IsEmptyBlock(b) && |s.content| < MAX_BLOCKS
    ensures Sound(Opened(s, b), log + [Started(|s.content|, KindOf(b))], sound, appended, clean)
  {
    hide Accounted, AllAscending, Bracketing, Opened;
    if sound {
      OpenedIsAccounted(s, b);
    }
    if appended {
      OpenedAscends(s, b);
    }
    if clean {
      OpenedIsBracketed(s, b, log);
    }
  }

  lemma OpenedIsAccounted(s: State, b: Block)
    requires Accounted(s) && IsEmptyBlock(b) && |s.content| < MAX_BLOCKS
    ensures Accounted(Opened(s, b))
  {
    hide Find, Bytes, Total, Put, KeysIn;
    var t, n := Opened(s, b), |s.content|;
    AllKeysInMore(s, s.(content := s.content + [b]));
    MoreKeysIn(s.open, n, n + 1);
    PutKeyIn(s.open, n, (), n + 1);
    forall i: int ensures Find(t.open, i) == if i == n then Some(()) else Find(s.open, i) {
      FindPut(s.open, n, (), i);
    }
    NoBytesIn();
    OneBlockChanged(s, t, n);
  }

  lemma NoBytesIn()
    ensures Bytes("") == 0
  {
  }

  lemma OpenedAscends(s: State, b: Block)
    requires Accounted(s) && AllAscending(s)
    ensures AllAscending(Opened(s, b))
  {
    hide Find, Total, Put, OkAt, KeysIn, Ascending;
    PutAscending(s.open, |s.content|, ());
  }

  lemma OpenedIsBracketed(s: State, b: Block, log: seq<Event>)
    requires Accounted(s) && Bracketing(log, s) && IsEmptyBlock(b)
    ensures Bracketing(log + [Started(|s.content|, KindOf(b))], Opened(s, b))
  {
    hide Bracketed, Find, Trace, Put, Accounted;
    var t, n, e := Opened(s, b), |s.content|, Started(|s.content|, KindOf(b));
    forall i: int ensures Find(t.open, i) == if i == n then Some(()) else Find(s.open, i) {
      FindPut(s.open, n, (), i);
    }
    TraceOn(log, e, n);
    assert [] + [e] == [e];
    BlockStarts(n, b, Find(t.args, n));
    OneBlockMoves(log, e, s, t, n);
  }

  function Longer(b: Block, delta: string): Block
    requires !b.ToolBlock?
  {
    match b
    case TextBlock(text) => TextBlock(text + delta)
    case ThinkingBlock(thinking, signature) => ThinkingBlock(thinking + delta, signature)
  }

  function Extended(s: State, k: nat, delta: string, field: nat): State
    requires k < |s.content| && !s.content[k].ToolBlock?
  {
    s.(content := s.content[k := Longer(s.content[k], delta)],
       fieldBytes := Put<nat>(s.fieldBytes, k, field + Bytes(delta)),
       contentBytes := s.contentBytes + Bytes(delta))
  }

  lemma ExtendedIs(s: State, k: nat, delta: string, field: nat)
    requires k < |s.content| && !s.content[k].ToolBlock?
    ensures Extended(s, k, delta, field) == State(
      s.content[k := Longer(s.content[k], delta)], s.args, s.argumentBytes,
      Put<nat>(s.fieldBytes, k, field + Bytes(delta)), s.signatureBytes, s.open,
      s.contentBytes + Bytes(delta))
  {
  }

  lemma ExtendedKeeps(
    s: State, k: nat, delta: string, field: nat, log: seq<Event>, sound: bool, appended: bool, clean: bool)
    requires sound ==> field == OrZero(Find(s.fieldBytes, k))
    requires Sound(s, log, sound, appended, clean) && k + 1 == |s.content| && !s.content[k].ToolBlock?
    requires Find(s.open, k).Some?
    requires Bytes(delta) <= MAX_FIELD_BYTES - field
    requires Bytes(delta) <= MAX_CONTENT_BYTES - s.contentBytes
    ensures Sound(Extended(s, k, delta, field), log + [Grew(k, delta)], sound, appended, clean)
  {
    hide Accounted, AllAscending, Bracketing, Extended, Bytes, Find;
    if sound {
      ExtendedIsAccounted(s, k, delta, field);
    }
    if appended {
      ExtendedAscends(s, k, delta, field);
    }
    if clean {
      ExtendedIsBracketed(s, k, delta, field, log);
    }
  }

  lemma ExtendedIsAccounted(s: State, k: nat, delta: string, field: nat)
    requires Accounted(s) && k < |s.content| && !s.content[k].ToolBlock? && field == OrZero(Find(s.fieldBytes, k))
    requires Bytes(delta) <= MAX_FIELD_BYTES - field
    requires Bytes(delta) <= MAX_CONTENT_BYTES - s.contentBytes
    ensures Accounted(Extended(s, k, delta, field))
  {
    hide Find, Bytes, Total, Put, KeysIn;
    var t := Extended(s, k, delta, field);
    assert OkAt(s, k);
    PutKeyIn<nat>(s.fieldBytes, k, field + Bytes(delta), |s.content|);
    var n: nat := field + Bytes(delta);
    forall i: int ensures Find<nat>(t.fieldBytes, i) == if i == k then Some(n) else Find<nat>(s.fieldBytes, i) {
      FindPut<nat>(s.fieldBytes, k, n, i);
    }
    match s.content[k] {
      case TextBlock(text) => BytesJoin(text, delta);
      case ThinkingBlock(thinking, _) => BytesJoin(thinking, delta);
    }
    OneBlockChanged(s, t, k);
  }

  lemma ExtendedAscends(s: State, k: nat, delta: string, field: nat)
    requires Accounted(s) && AllAscending(s) && k + 1 == |s.content| && !s.content[k].ToolBlock?
    ensures AllAscending(Extended(s, k, delta, field))
  {
    hide Total, Put, OkAt, Ascending, Bytes;
    if Find(s.fieldBytes, k).None? {
      LastKey(s.fieldBytes, k);
    }
    PutAscending<nat>(s.fieldBytes, k, field + Bytes(delta));
  }

  lemma LastKey<T(!new)>(m: Pairs<T>, k: nat)
    requires KeysIn(m, k + 1) && Find(m, k).None?
    ensures KeysIn(m, k)
  {
    hide Find;
  }

  lemma ExtendedIsBracketed(s: State, k: nat, delta: string, field: nat, log: seq<Event>)
    requires Bracketing(log, s) && k < |s.content| && !s.content[k].ToolBlock? && Find(s.open, k).Some?
    ensures Bracketing(log + [Grew(k, delta)], Extended(s, k, delta, field))
  {
    hide Bracketed, Find, Trace, Put, Bytes;
    var t := Extended(s, k, delta, field);
    assert BracketedAt(log, s, k);
    forall i: int ensures i != k ==> Find(t.fieldBytes, i) == Find(s.fieldBytes, i) {
      FindPut<nat>(s.fieldBytes, k, field + Bytes(delta), i);
    }
    TraceOn(log, Grew(k, delta), k);
    BlockGrows(Trace(log, k), k, s.content[k], Find(s.args, k), delta, t.content[k], Find(t.args, k));
    OneBlockMoves(log, Grew(k, delta), s, t, k);
  }

  function Text0(raw: Option<string>): string {
    if raw.Some? then raw.value else ""
  }

  // ----- gaps -----

  /** The content filled up to an index with empty text blocks. */
  function Filled(s: State, target: nat): State {
    if target <= |s.content| then s
    else s.(content := s.content + seq(target - |s.content|, i => TextBlock("")))
  }

  lemma GapKeeps(s: State, t: State, target: nat, sound: bool, appended: bool)
    requires |s.content| <= target < MAX_BLOCKS
    requires t == s.(content := s.content + seq(target - |s.content|, i => TextBlock("")))
    ensures sound && Accounted(s) ==> Accounted(t)
    ensures appended && AllAscending(s) ==> AllAscending(t)
  {
    hide Accounted, Find, Total;
    if sound && Accounted(s) {
      GapFilled(s, t, target);
    }
  }

  // ----- placing a tool -----

  function PutBlock(content: seq<Block>, k: nat, b: Block): (r: seq<Block>)
    requires k <= |content|
    ensures |r| == if k < |content| then |content| else |content| + 1
  {
    if k < |content| then content[k := b] else content + [b]
  }

  function PlacedTool(s: State, k: nat, id: string, name: string): State
    requires k <= |s.content|
  {
    State(PutBlock(s.content, k, ToolBlock(id, name, None)), Put(s.args, k, ""), Put<nat>(s.argumentBytes, k, 0),
          Delete(s.fieldBytes, k), Delete(s.signatureBytes, k), Put(s.open, k, ()),
          s.contentBytes - OrZero(Find(s.fieldBytes, k)) - OrZero(Find(s.signatureBytes, k))
            + EMPTY_TOOL_ARGUMENT_BYTES)
  }

  lemma PlacedIs(s: State, k: nat, id: string, name: string)
    requires k <= |s.content|
    ensures PlacedTool(s, k, id, name) == State(
      PutBlock(s.content, k, ToolBlock(id, name, None)), Put(s.args, k, ""), Put<nat>(s.argumentBytes, k, 0),
      Delete(s.fieldBytes, k), Delete(s.signatureBytes, k), Put(s.open, k, ()),
      s.contentBytes - OrZero(Find(s.fieldBytes, k)) - OrZero(Find(s.signatureBytes, k)) + EMPTY_TOOL_ARGUMENT_BYTES)
  {
  }

  lemma PlacedFinds(s: State, k: nat, id: string, name: string, i: int)
    requires k <= |s.content| && AllKeysIn(s)
    ensures var t := PlacedTool(s, k, id, name);
      && Find(t.args, i) == (if i == k then Some("") else Find(s.args, i))
      && Find<nat>(t.argumentBytes, i) == (if i == k then Some(0) else Find<nat>(s.argumentBytes, i))
      && Find(t.fieldBytes, i) == (if i == k then None else Find(s.fieldBytes, i))
      && Find(t.signatureBytes, i) == (if i == k then None else Find(s.signatureBytes, i))
      && Find(t.open, i) == (if i == k then Some(()) else Find(s.open, i))
  {
    hide Find, Put, Delete;
    FindPut(s.args, k, "", i);
    FindPut<nat>(s.argumentBytes, k, 0, i);
    FindDelete(s.fieldBytes, k, i);
    FindDelete(s.signatureBytes, k, i);
    FindPut(s.open, k, (), i);
  }

  lemma PlacedKeysIn(s: State, k: nat, id: string, name: string)
    requires k <= |s.content| && AllKeysIn(s)
    ensures AllKeysIn(PlacedTool(s, k, id, name))
    ensures |PlacedTool(s, k, id, name).content| == if k < |s.content| then |s.content| else k + 1
  {
    hide Find, Put, Delete, KeysIn;
    var n := |PlacedTool(s, k, id, name).content|;
    MoreKeysIn(s.args, |s.content|, n);
    MoreKeysIn(s.argumentBytes, |s.content|, n);
    MoreKeysIn(s.fieldBytes, |s.content|, n);
    MoreKeysIn(s.signatureBytes, |s.content|, n);
    MoreKeysIn(s.open, |s.content|, n);
    PutKeyIn(s.args, k, "", n);
    PutKeyIn<nat>(s.argumentBytes, k, 0, n);
    DeleteKeyIn(s.fieldBytes, k, n);
    DeleteKeyIn(s.signatureBytes, k, n);
    PutKeyIn(s.open, k, (), n);
  }

  lemma PlacedIsAccounted(s: State, k: nat, id: string, name: string)
    requires Accounted(s) && k <= |s.content| && k < MAX_BLOCKS && (k < |s.content| ==> !s.content[k].ToolBlock?)
    requires s.contentBytes - OrZero(Find(s.fieldBytes, k)) - OrZero(Find(s.signatureBytes, k))
      + EMPTY_TOOL_ARGUMENT_BYTES
      <= MAX_CONTENT_BYTES
    ensures Accounted(PlacedTool(s, k, id, name))
  {
    var t := PlacedTool(s, k, id, name);
    PlacedKeysIn(s, k, id, name);
    AllKeysInMore(s, s);
    NoBytesIn();
    hide Find, Put, Delete, KeysIn, Bytes, Total;
    forall i: int ensures
      && Find(t.args, i) == (if i == k then Some("") else Find(s.args, i))
      && Find<nat>(t.argumentBytes, i) == (if i == k then Some(0) else Find<nat>(s.argumentBytes, i))
      && Find(t.fieldBytes, i) == (if i == k then None else Find(s.fieldBytes, i))
      && Find(t.signatureBytes, i) == (if i == k then None else Find(s.signatureBytes, i))
      && Find(t.open, i) == (if i == k then Some(()) else Find(s.open, i))
    {
      PlacedFinds(s, k, id, name, i);
    }
    if k < |s.content| {
      assert OkAt(s, k);
    }
    OneBlockChanged(s, t, k);
  }

  lemma PlacedAscends(s: State, k: nat, id: string, name: string)
    requires Accounted(s) && AllAscending(s) && k == |s.content|
    ensures AllAscending(PlacedTool(s, k, id, name))
  {
    hide Find, Put, Delete, KeysIn, Ascending, Total, OkAt;
    PutAscending(s.args, k, "");
    PutAscending<nat>(s.argumentBytes, k, 0);
    DeleteAscending(s.fieldBytes, k);
    DeleteAscending(s.signatureBytes, k);
    PutAscending(s.open, k, ());
  }

  lemma PlacedIsBracketed(s: State, k: nat, id: string, name: string, log: seq<Event>)
    requires AllKeysIn(s) && Bracketing(log, s) && k == |s.content|
    ensures Bracketing(log + [Started(k, ToolKind)], PlacedTool(s, k, id, name))
  {
    hide Find, Put, Delete, KeysIn, Bracketed, Trace;
    var t, b := PlacedTool(s, k, id, name), ToolBlock(id, name, None);
    forall i: int ensures i != k ==>
      && Find(t.args, i) == Find(s.args, i) && Find(t.argumentBytes, i) == Find(s.argumentBytes, i)
      && Find(t.fieldBytes, i) == Find(s.fieldBytes, i) && Find(t.signatureBytes, i) == Find(s.signatureBytes, i)
      && Find(t.open, i) == Find(s.open, i)
    {
      PlacedFinds(s, k, id, name, i);
    }
    PlacedFinds(s, k, id, name, k);
    TraceOn(log, Started(k, ToolKind), k);
    assert [] + [Started(k, KindOf(b))] == [Started(k, KindOf(b))];
    BlockStarts(k, b, Some(""));
    OneBlockMoves(log, Started(k, ToolKind), s, t, k);
  }

  lemma PlacedKeeps(
    s: State, k: nat, id: string, name: string, log: seq<Event>, sound: bool, appended: bool, clean: bool)
    requires Sound(s, log, sound, appended, clean)
    requires k <= |s.content| && k < MAX_BLOCKS && (k < |s.content| ==> !s.content[k].ToolBlock?)
    requires s.contentBytes - OrZero(Find(s.fieldBytes, k)) - OrZero(Find(s.signatureBytes, k))
      + EMPTY_TOOL_ARGUMENT_BYTES
      <= MAX_CONTENT_BYTES
    ensures Sound(PlacedTool(s, k, id, name), log + [Started(k, ToolKind)], sound,
      appended && k == |s.content|, clean && k == |s.content|)
  {
    hide AllAscending, Bracketing, PlacedTool, Find, OkAt, KeysIn, Total;
    if sound {
      PlacedIsAccounted(s, k, id, name);
    }
    if appended && k == |s.content| {
      PlacedAscends(s, k, id, name);
    }
    if clean && k == |s.content| {
      PlacedIsBracketed(s, k, id, name, log);
    }
  }

  // ----- tool arguments -----

  function WidenedBytes(s: State, count: nat, delta: string): int {
    s.contentBytes - Larger(count, EMPTY_TOOL_ARGUMENT_BYTES) + Larger(count + Bytes(delta), EMPTY_TOOL_ARGUMENT_BYTES)
  }

  function Widened(s: State, k: nat, delta: string, raw: string, count: nat): State {
    s.(args := Put(s.args, k, raw + delta), argumentBytes := Put<nat>(s.argumentBytes, k, count + Bytes(delta)),
       contentBytes := WidenedBytes(s, count, delta))
  }

  lemma WidenedIs(s: State, k: nat, delta: string, raw: string, count: nat)
    ensures Widened(s, k, delta, raw, count) == State(
      s.content, Put(s.args, k, raw + delta), Put<nat>(s.argumentBytes, k, count + Bytes(delta)), s.fieldBytes,
      s.signatureBytes, s.open, s.contentBytes - Larger(count, EMPTY_TOOL_ARGUMENT_BYTES)
        + Larger(count + Bytes(delta), EMPTY_TOOL_ARGUMENT_BYTES))
  {
  }

  lemma WidenedFinds(s: State, k: nat, delta: string, raw: string, count: nat, i: int)
    ensures var t := Widened(s, k, delta, raw, count);
      && Find(t.args, i) == (if i == k then Some(raw + delta) else Find(s.args, i))
      && Find<nat>(t.argumentBytes, i) == (if i == k then Some(count + Bytes(delta)) else Find<nat>(s.argumentBytes, i))
  {
    hide Find, Put, Bytes;
    FindPut(s.args, k, raw + delta, i);
    FindPut<nat>(s.argumentBytes, k, count + Bytes(delta), i);
  }

  lemma WidenedIsAccounted(s: State, k: nat, delta: string, raw: string, count: nat)
    requires Accounted(s) && k < |s.content| && s.content[k].ToolBlock? && Find(s.open, k).Some?
    requires Find(s.args, k) == Some(raw) && Find(s.argumentBytes, k) == Some(count)
    requires Bytes(delta) <= MAX_FIELD_BYTES - count && WidenedBytes(s, count, delta) <= MAX_CONTENT_BYTES
    ensures Accounted(Widened(s, k, delta, raw, count))
  {
    hide Find, Put, KeysIn, Bytes, Total;
    var t := Widened(s, k, delta, raw, count);
    PutKeyIn(s.args, k, raw + delta, |s.content|);
    PutKeyIn<nat>(s.argumentBytes, k, count + Bytes(delta), |s.content|);
    forall i: int ensures
      && Find(t.args, i) == (if i == k then Some(raw + delta) else Find(s.args, i))
      && Find<nat>(t.argumentBytes, i) == (if i == k then Some(count + Bytes(delta)) else Find<nat>(s.argumentBytes, i))
    {
      WidenedFinds(s, k, delta, raw, count, i);
    }
    assert OkAt(s, k);
    BytesJoin(raw, delta);
    OneBlockChanged(s, t, k);
  }

  lemma WidenedAscends(s: State, k: nat, delta: string, raw: string, count: nat)
    requires AllAscending(s) && Find(s.args, k).Some? && Find(s.argumentBytes, k).Some?
    ensures AllAscending(Widened(s, k, delta, raw, count))
  {
    hide Find, Put, Ascending, Bytes;
    PutAscending(s.args, k, raw + delta);
    PutAscending<nat>(s.argumentBytes, k, count + Bytes(delta));
  }

  lemma WidenedIsBracketed(s: State, k: nat, delta: string, raw: string, count: nat, log: seq<Event>)
    requires Bracketing(log, s) && k < |s.content| && s.content[k].ToolBlock? && Find(s.open, k).Some?
    requires Find(s.args, k) == Some(raw)
    ensures Bracketing(log + [Grew(k, delta)], Widened(s, k, delta, raw, count))
  {
    hide Find, Put, Bytes, Bracketed, Trace;
    var t := Widened(s, k, delta, raw, count);
    forall i: int ensures i != k ==>
      Find(t.args, i) == Find(s.args, i) && Find(t.argumentBytes, i) == Find(s.argumentBytes, i)
    {
      WidenedFinds(s, k, delta, raw, count, i);
    }
    WidenedFinds(s, k, delta, raw, count, k);
    assert BracketedAt(log, s, k);
    TraceOn(log, Grew(k, delta), k);
    BlockGrows(Trace(log, k), k, s.content[k], Some(raw), delta, t.content[k], Some(raw + delta));
    OneBlockMoves(log, Grew(k, delta), s, t, k);
  }

  lemma WidenedKeeps(
    s: State, k: nat, delta: string, raw: string, count: nat, log: seq<Event>, sound: bool, appended: bool, clean: bool)
    requires Sound(s, log, sound, appended, clean) && k < |s.content| && s.content[k].ToolBlock?
    requires Find(s.open, k).Some?
    requires sound ==> Find(s.args, k) == Some(raw) && Find(s.argumentBytes, k) == Some(count)
    requires Bytes(delta) <= MAX_FIELD_BYTES - count && WidenedBytes(s, count, delta) <= MAX_CONTENT_BYTES
    ensures Sound(Widened(s, k, delta, raw, count), log + [Grew(k, delta)], sound, appended, clean)
  {
    hide Accounted, AllAscending, Bracketing, Widened, Find, Bytes, WidenedBytes;
    if sound {
      WidenedIsAccounted(s, k, delta, raw, count);
    }
    if appended {
      WidenedAscends(s, k, delta, raw, count);
    }
    if clean {
      WidenedIsBracketed(s, k, delta, raw, count, log);
    }
  }

  lemma ToolIsKept(s: State, k: nat, sound: bool)
    requires k < |s.content| && s.content[k].ToolBlock? && Find(s.open, k).Some?
    ensures sound && Accounted(s) ==>
      Find(s.args, k).Some? && Find(s.argumentBytes, k) == Some(OrZero(Find(s.argumentBytes, k)))
  {
    hide Find, Total, KeysIn, Bytes;
    if sound && Accounted(s) {
      assert OkAt(s, k);
    }
  }

  // ----- signatures -----

  function LongerSignature(b: Block, delta: string): Block
    requires b.ThinkingBlock?
  {
    b.(signature := b.signature + delta)
  }

  function Signed(s: State, k: nat, delta: string, count: nat): State
    requires k < |s.content| && s.content[k].ThinkingBlock?
  {
    s.(content := s.content[k := LongerSignature(s.content[k], delta)],
       signatureBytes := Put<nat>(s.signatureBytes, k, count + Bytes(delta)),
       contentBytes := s.contentBytes + Bytes(delta))
  }

  lemma SignedIs(s: State, k: nat, delta: string, count: nat)
    requires k < |s.content| && s.content[k].ThinkingBlock?
    ensures Signed(s, k, delta, count) == State(
      s.content[k := LongerSignature(s.content[k], delta)], s.args, s.argumentBytes, s.fieldBytes,
      Put<nat>(s.signatureBytes, k, count + Bytes(delta)), s.open, s.contentBytes + Bytes(delta))
  {
  }

  lemma SignedIsAccounted(s: State, k: nat, delta: string, count: nat)
    requires Accounted(s) && k < |s.content| && s.content[k].ThinkingBlock?
    requires count == OrZero(Find(s.signatureBytes, k))
    requires Bytes(delta) <= MAX_FIELD_BYTES - count && Bytes(delta) <= MAX_CONTENT_BYTES - s.contentBytes
    ensures Accounted(Signed(s, k, delta, count))
  {
    hide Find, Put, KeysIn, Bytes, Total;
    var t := Signed(s, k, delta, count);
    var n: nat := count + Bytes(delta);
    PutKeyIn<nat>(s.signatureBytes, k, n, |s.content|);
    forall i: int ensures Find<nat>(t.signatureBytes, i) == if i == k then Some(n) else Find<nat>(s.signatureBytes, i) {
      FindPut<nat>(s.signatureBytes, k, n, i);
    }
    assert OkAt(s, k);
    BytesJoin(s.content[k].signature, delta);
    OneBlockChanged(s, t, k);
  }

  lemma SignedAscends(s: State, k: nat, delta: string, count: nat)
    requires Accounted(s) && AllAscending(s) && k + 1 == |s.content| && s.content[k].ThinkingBlock?
    ensures AllAscending(Signed(s, k, delta, count))
  {
    hide Total, Put, OkAt, Ascending, Bytes;
    if Find(s.signatureBytes, k).None? {
      LastKey(s.signatureBytes, k);
    }
    PutAscending<nat>(s.signatureBytes, k, count + Bytes(delta));
  }

  lemma SignedIsBracketed(s: State, k: nat, delta: string, count: nat, log: seq<Event>)
    requires Bracketing(log, s) && k < |s.content| && s.content[k].ThinkingBlock? && Find(s.open, k).Some?
    ensures Bracketing(log, Signed(s, k, delta, count))
  {
    hide Find, Put, Bytes, Trace;
    var t := Signed(s, k, delta, count);
    assert BracketedAt(log, s, k);
    var deltas :| BracketedBy(Trace(log, k), k, s.content[k], Find(s.args, k), true, deltas);
    assert BracketedBy(Trace(log, k), k, t.content[k], Find(t.args, k), true, deltas);
    hide Bracketed;
    forall i | 0 <= i < |t.content| ensures BracketedAt(log, t, i) {
      if i != k {
        assert BracketedAt(log, s, i);
      }
    }
  }

  lemma SignedKeeps(
    s: State, k: nat, delta: string, count: nat, log: seq<Event>, sound: bool, appended: bool, clean: bool)
    requires Sound(s, log, sound, appended, clean) && k + 1 == |s.content| && s.content[k].ThinkingBlock?
    requires Find(s.open, k).Some? && (sound ==> count == OrZero(Find(s.signatureBytes, k)))
    requires Bytes(delta) <= MAX_FIELD_BYTES - count && Bytes(delta) <= MAX_CONTENT_BYTES - s.contentBytes
    ensures Sound(Signed(s, k, delta, count), log, sound, appended, clean)
  {
    hide Accounted, AllAscending, Bracketing, Signed, Find, Bytes;
    if sound {
      SignedIsAccounted(s, k, delta, count);
    }
    if appended {
      SignedAscends(s, k, delta, count);
    }
    if clean {
      SignedIsBracketed(s, k, delta, count, log);
    }
  }

  // ----- finishing a tool -----

  function CompletedTool(s: State, k: nat, c: Canonical): State
    requires k < |s.content| && s.content[k].ToolBlock?
  {
    s.(content := s.content[k := s.content[k].(arguments := Some(c))], args := Delete(s.args, k),
       argumentBytes := Delete(s.argumentBytes, k), open := Delete(s.open, k),
       contentBytes := s.contentBytes - Larger(OrZero(Find(s.argumentBytes, k)), EMPTY_TOOL_ARGUMENT_BYTES) + c.bytes)
  }

  lemma CompletedIs(s: State, k: nat, c: Canonical)
    requires k < |s.content| && s.content[k].ToolBlock?
    ensures CompletedTool(s, k, c) == State(
      s.content[k := s.content[k].(arguments := Some(c))], Delete(s.args, k), Delete(s.argumentBytes, k), s.fieldBytes,
      s.signatureBytes, Delete(s.open, k),
      s.contentBytes - Larger(OrZero(Find(s.argumentBytes, k)), EMPTY_TOOL_ARGUMENT_BYTES) + c.bytes)
  {
  }

  lemma CompletedFinds(s: State, k: nat, c: Canonical, i: int)
    requires k < |s.content| && s.content[k].ToolBlock? && AllKeysIn(s)
    ensures var t := CompletedTool(s, k, c);
      && Find(t.args, i) == (if i == k then None else Find(s.args, i))
      && Find(t.argumentBytes, i) == (if i == k then None else Find(s.argumentBytes, i))
      && Find(t.open, i) == (if i == k then None else Find(s.open, i))
  {
    hide Find, Delete;
    FindDelete(s.args, k, i);
    FindDelete(s.argumentBytes, k, i);
    FindDelete(s.open, k, i);
  }

  lemma CompletedIsAccounted(s: State, k: nat, c: Canonical)
    requires Accounted(s) && k < |s.content| && s.content[k].ToolBlock? && Find(s.open, k).Some?
    requires c.bytes <= MAX_FIELD_BYTES && CompletedTool(s, k, c).contentBytes <= MAX_CONTENT_BYTES
    ensures Accounted(CompletedTool(s, k, c))
  {
    hide Find, Delete, KeysIn, Bytes, Total;
    var t := CompletedTool(s, k, c);
    DeleteKeyIn(s.args, k, |s.content|);
    DeleteKeyIn(s.argumentBytes, k, |s.content|);
    DeleteKeyIn(s.open, k, |s.content|);
    forall i: int ensures
      && Find(t.args, i) == (if i == k then None else Find(s.args, i))
      && Find(t.argumentBytes, i) == (if i == k then None else Find(s.argumentBytes, i))
      && Find(t.open, i) == (if i == k then None else Find(s.open, i))
    {
      CompletedFinds(s, k, c, i);
    }
    assert OkAt(s, k);
    OneBlockChanged(s, t, k);
  }

  lemma CompletedAscends(s: State, k: nat, c: Canonical)
    requires AllAscending(s) && k < |s.content| && s.content[k].ToolBlock?
    ensures AllAscending(CompletedTool(s, k, c))
  {
    hide Find, Delete, Ascending;
    DeleteAscending(s.args, k);
    DeleteAscending(s.argumentBytes, k);
    DeleteAscending(s.open, k);
  }

  lemma CompletedIsBracketed(s: State, k: nat, c: Canonical, log: seq<Event>)
    requires AllKeysIn(s) && Bracketing(log, s) && k < |s.content| && s.content[k].ToolBlock? && Find(s.open, k).Some?
    ensures var t := CompletedTool(s, k, c); Bracketing(log + [Ended(k, t.content[k])], t)
  {
    hide Find, Delete, Bracketed, Trace, KeysIn;
    var t := CompletedTool(s, k, c);
    forall i: int ensures i != k ==>
      && Find(t.args, i) == Find(s.args, i) && Find(t.argumentBytes, i) == Find(s.argumentBytes, i)
      && Find(t.open, i) == Find(s.open, i)
    {
      CompletedFinds(s, k, c, i);
    }
    CompletedFinds(s, k, c, k);
    assert BracketedAt(log, s, k);
    TraceOn(log, Ended(k, t.content[k]), k);
    BlockEnds(Trace(log, k), k, s.content[k], Find(s.args, k), t.content[k]);
    OneBlockMoves(log, Ended(k, t.content[k]), s, t, k);
  }

  lemma CompletedKeeps(s: State, k: nat, c: Canonical, log: seq<Event>, sound: bool, appended: bool, clean: bool)
    requires Sound(s, log, sound, appended, clean) && k < |s.content| && s.content[k].ToolBlock?
    requires Find(s.open, k).Some?
    requires c.bytes <= MAX_FIELD_BYTES && CompletedTool(s, k, c).contentBytes <= MAX_CONTENT_BYTES
    ensures var t := CompletedTool(s, k, c); Sound(t, log + [Ended(k, t.content[k])], sound, appended, clean)
    ensures CompletedTool(s, k, c).content[k] == s.content[k].(arguments := Some(c))
  {
    hide AllAscending, Bracketing, Find, OkAt, KeysIn, Total, Delete;
    if sound {
      CompletedIsAccounted(s, k, c);
    }
    if appended {
      CompletedAscends(s, k, c);
    }
    if clean {
      CompletedIsBracketed(s, k, c, log);
    }
  }

  // ----- discarding and closing -----

  lemma DiscardedIs(s: State, k: nat, retained: int)
    requires k < |s.content|
    ensures Discarded(s, k, retained) == State(
      s.content[..k] + s.content[k + 1..], Removed(s.args, k), Removed(s.argumentBytes, k), Removed(s.fieldBytes, k),
      Removed(s.signatureBytes, k), Removed(s.open, k), retained)
  {
    hide Removed;
  }

  lemma DiscardedKeeps(
    s: State, k: nat, retained: int, log: seq<Event>, sound: bool, appended: bool, clean: bool)
    requires Sound(s, log, sound, appended, clean) && k < |s.content| && s.content[k].ToolBlock?
    requires Find(s.open, k).Some?
    requires retained == s.contentBytes - Larger(OrZero(Find(s.argumentBytes, k)), EMPTY_TOOL_ARGUMENT_BYTES)
    ensures Sound(Discarded(s, k, retained), log, sound && AllInOrder(s, k), appended, false)
  {
    hide AllAscending, Bracketing, Find, KeysIn, Total, Delete, Discarded, AllInOrder;
    if sound {
      assert OkAt(s, k);
      assert Charge(s.content[k], Find(s.args, k))
        == Larger(OrZero(Find(s.argumentBytes, k)), EMPTY_TOOL_ARGUMENT_BYTES);
      if AllInOrder(s, k) {
        DiscardKeepsAccounts(s, k);
      }
    }
    if appended {
      DiscardKeepsAscending(s, k, retained);
    }
  }

  lemma ClosedIs(s: State, k: nat)
    ensures s.(open := Delete(s.open, k)) == State(
      s.content, s.args, s.argumentBytes, s.fieldBytes, s.signatureBytes, Delete(s.open, k), s.contentBytes)
  {
  }

  lemma ClosedKeeps(s: State, k: nat, log: seq<Event>, sound: bool, appended: bool, clean: bool)
    requires Sound(s, log, sound, appended, clean) && k < |s.content| && !s.content[k].ToolBlock?
    requires clean ==> Find(s.open, k).Some?
    ensures Sound(s.(open := Delete(s.open, k)), log + [Ended(k, s.content[k])], sound, appended, clean)
  {
    hide Bracketing, Find, KeysIn, Total, Delete, Ascending, Trace, Bracketed, Bytes;
    if sound {
      assert OkAt(s, k);
      ClosedIsAccounted(s, k);
    }
    if appended {
      DeleteAscending(s.open, k);
    }
    if clean {
      ClosedIsBracketed(s, k, log);
    }
  }

  lemma ClosedIsAccounted(s: State, k: nat)
    requires Accounted(s) && k < |s.content| && !s.content[k].ToolBlock?
    ensures Accounted(s.(open := Delete(s.open, k)))
  {
    hide Find, Total, Delete, Bytes, KeysDiffer;
    var t := s.(open := Delete(s.open, k));
    DeleteKeyIn(s.open, k, |s.content|);
    forall i: int ensures Find(t.open, i) == if i == k then None else Find(s.open, i) {
      FindDelete(s.open, k, i);
    }
    assert OkAt(s, k);
    OneBlockChanged(s, t, k);
  }

  lemma ClosedIsBracketed(s: State, k: nat, log: seq<Event>)
    requires AllKeysIn(s) && Bracketing(log, s) && k < |s.content| && !s.content[k].ToolBlock? && Find(s.open, k).Some?
    requires Find(s.args, k).None?
    ensures Bracketing(log + [Ended(k, s.content[k])], s.(open := Delete(s.open, k)))
  {
    hide Find, KeysDiffer, Delete, Trace, Bracketed;
    var t := s.(open := Delete(s.open, k));
    forall i: int ensures Find(t.open, i) == if i == k then None else Find(s.open, i) {
      FindDelete(s.open, k, i);
    }
    assert BracketedAt(log, s, k);
    TraceOn(log, Ended(k, s.content[k]), k);
    BlockEnds(Trace(log, k), k, s.content[k], Find(s.args, k), s.content[k]);
    OneBlockMoves(log, Ended(k, s.content[k]), s, t, k);
  }

  // ----- closing all parts -----

  /** What closing leads to: the state, the events, and whether no tool was discarded. */
  datatype Outcome = Outcome(state: State, events: seq<Event>, whole: bool)

  function CloseOne(s: State, k: nat): Outcome {
    if k >= |s.content| then Outcome(s, [], true)
    else if !s.content[k].ToolBlock? then Outcome(s.(open := Delete(s.open, k)), [Ended(k, s.content[k])], true)
    else if !IsActive(s, k) then Outcome(s, [], true)
    else
      var final := FinalArguments(s, k, None);
      if Fits(s, k, final) then
        var t := CompletedTool(s, k, final.value);
        Outcome(t, [Ended(k, t.content[k])], true)
      else Outcome(Discarded(s, k, Retained(s, k)), [], false)
  }

  function Before(events: seq<Event>, whole: bool, c: Outcome): Outcome {
    Outcome(c.state, events + c.events, whole && c.whole)
  }

  /** Closes the blocks of a snapshot of the open ones, by the indexes they have in the snapshot. */
  function Closing(s: State, snapshot: Pairs<()>, ignoreToolErrors: bool): Outcome
    decreases |snapshot|
  {
    if snapshot == [] then Outcome(s, [], true)
    else
      var c := CloseOne(s, snapshot[0].key);
      if !c.whole && !ignoreToolErrors then c
      else Before(c.events, c.whole, Closing(c.state, snapshot[1..], ignoreToolErrors))
  }

  lemma ClosingStarts(s: State, snapshot: Pairs<()>, ignoreToolErrors: bool)
    ensures var c := Closing(s, snapshot[0..], ignoreToolErrors);
      Before([], true, c) == Closing(s, snapshot, ignoreToolErrors)
  {
    hide *;
    assert snapshot[0..] == snapshot;
    BeforeNothing(Closing(s, snapshot, ignoreToolErrors));
  }

  lemma BeforeNothing(c: Outcome)
    ensures Before([], true, c) == c
  {
    assert [] + c.events == c.events;
  }

  lemma ClosingGoesOn(
    s: State, snapshot: Pairs<()>, ignoreToolErrors: bool, t: State, events: seq<Event>, whole: bool, n: nat)
    requires n < |snapshot|
    requires Closing(s, snapshot, ignoreToolErrors)
      == Before(events, whole, Closing(t, snapshot[n..], ignoreToolErrors))
    ensures var c := CloseOne(t, snapshot[n].key);
      Closing(s, snapshot, ignoreToolErrors)
        == if !c.whole && !ignoreToolErrors then Outcome(c.state, events + c.events, false)
           else Before(events + c.events, whole && c.whole, Closing(c.state, snapshot[n + 1..], ignoreToolErrors))
  {
    hide CloseOne;
    var c := CloseOne(t, snapshot[n].key);
    assert snapshot[n..][0] == snapshot[n] && snapshot[n..][1..] == snapshot[n + 1..];
    var rest := Closing(c.state, snapshot[n + 1..], ignoreToolErrors);
    assert events + (c.events + rest.events) == (events + c.events) + rest.events;
  }

  lemma ClosingEnds(s: State, snapshot: Pairs<()>, ignoreToolErrors: bool, events: seq<Event>, whole: bool)
    ensures Before(events, whole, Closing(s, snapshot[|snapshot|..], ignoreToolErrors)) == Outcome(s, events, whole)
  {
    assert snapshot[|snapshot|..] == [] && events + [] == events;
  }

  /** What is open are the pairs of the snapshot that are still to be gone through. */
  ghost predicate StillOpen(open: Pairs<()>, snapshot: Pairs<()>, n: nat)
    requires n <= |snapshot|
  {
    KeysDiffer(open) && forall x: int :: Find(open, x).Some? <==> Find(snapshot[n..], x).Some?
  }

  lemma StartClosing(s: State, sound: bool)
    ensures sound && Accounted(s) ==> StillOpen(s.open, s.open, 0) && KeysIn(s.open, |s.content|)
  {
    hide Find, Total, OkAt, KeysDiffer;
    assert s.open[0..] == s.open;
  }

  lemma SoundIsClean(s: State, log: seq<Event>, sound: bool, appended: bool, clean: bool)
    requires Sound(s, log, sound, appended, clean)
    ensures clean ==> appended && sound
    ensures sound ==> Accounted(s)
  {
    hide Accounted, AllAscending, Bracketing;
  }

  lemma NextToClose(open: Pairs<()>, snapshot: Pairs<()>, n: nat, size: nat)
    requires n < |snapshot| && StillOpen(open, snapshot, n) && KeysIn(snapshot, size)
    ensures snapshot[n].key < size && Find(open, snapshot[n].key).Some?
    ensures StillOpen(Delete(open, snapshot[n].key), snapshot, n + 1)
  {
    hide Find, Delete, KeysDiffer;
    var k := snapshot[n].key;
    FindIs(snapshot, k);
    FindNext(snapshot, n, k);
    TailLacks(snapshot, n);
    DeleteIsDistinct(open, k);
    forall x: int ensures Find(Delete(open, k), x).Some? <==> Find(snapshot[n + 1..], x).Some? {
      FindDelete(open, k, x);
      FindNext(snapshot, n, x);
    }
  }

  lemma AllClosed(open: Pairs<()>, snapshot: Pairs<()>)
    requires StillOpen(open, snapshot, |snapshot|)
    ensures forall x: int :: Find(open, x).None?
  {
    assert snapshot[|snapshot|..] == [];
    assert forall x: int :: Find<()>([], x).None?;
  }

  // ----- two runs that go wrong, and that no caller in the file makes -----

  lemma FirstTool(id: string, name: string)
    ensures var tool := ToolBlock(id, name, None);
      && PlacedTool(State([], [], [], [], [], [], 0), 0, id, name)
         == State([tool], [Pair(0, "")], [Pair(0, 0)], [], [], [Pair(0, ())], 2)
      && Filled(State([], [], [], [], [], [], 0), 0) == State([], [], [], [], [], [], 0)
      && Discarded(State([tool], [Pair(0, "")], [Pair(0, 0)], [], [], [Pair(0, ())], 2), 0, 0)
         == State([], [], [], [], [], [], 0)
  {
    hide Renumbered;
    OneRemoved("");
    OneRemoved<nat>(0);
    OneRemoved(());
    NothingRemoved<nat>([], 0);
  }

  lemma OneRemoved<T(!new)>(v: T)
    ensures Removed([Pair(0, v)], 0) == []
  {
    assert [Pair(0, v)][1..] == [];
    assert Delete([Pair(0, v)], 0) == [];
  }

  /** A run without indexes whose only tool is discarded: it ends in `done`, and the start of the
      discarded tool is left without an end. */
  method DiscardThenDone(id: string, name: string, bad: Json) returns (w: CanonicalWriter)
    requires IDENTITY_FITS(id) && IDENTITY_FITS(name) && CanonicalArguments(bad).None?
    ensures fresh(w) && w.inTurn && w.log != [] && w.log[|w.log| - 1] == Finished && !Bracketing(w.log, w.Now())
  {
    w := new CanonicalWriter();
    FirstTool(id, name);
    AtZero(());
    AtZero<nat>(0);
    NoBytesIn();
    hide Accounted, AllAscending, Bracketing, Find, Counted, PlacedTool, Discarded, Filled, Bytes, AllInOrder;
    assert w.contentBytes == 0;
    NothingFound<nat>(0);
    var started := w.StartTool(id, name, None);
    assert started == Some(0);
    var finished := w.FinishTool(0, Some(bad));
    assert !finished && w.discards == 1;
    var ended := w.Done();
  }

  lemma NothingFound<T(!new)>(x: int)
    ensures Find<T>([], x) == None
  {
  }

  /** The states on the way to three tools that are opened backwards. */
  function Halfway(id: string, name: string, second: bool): State {
    var tool := ToolBlock(id, name, None);
    if second then
      State([TextBlock(""), tool, tool], [Pair(2, ""), Pair(1, "")], [Pair(2, 0), Pair(1, 0)], [], [],
            [Pair(2, ()), Pair(1, ())], 4)
    else State([TextBlock(""), TextBlock(""), tool], [Pair(2, "")], [Pair(2, 0)], [], [], [Pair(2, ())], 2)
  }

  lemma OpenedAtTwo(id: string, name: string)
    ensures var s := State([], [], [], [], [], [], 0);
      && !HoldsTool(s, 2) && RoomForTool(s, Target(s, Some(2))) && Target(s, Some(2)) == 2
      && PlacedTool(Filled(s, 2), 2, id, name) == Halfway(id, name, false)
  {
    assert [] + seq(2, i => TextBlock("")) == [TextBlock(""), TextBlock("")];
  }

  lemma PutSecond<T>(x: T, y: T)
    ensures Put([Pair(2, x)], 1, y) == [Pair(2, x), Pair(1, y)]
    ensures Put([Pair(2, x), Pair(1, y)], 0, y) == ThreePairs(x, y, y)
    ensures forall z: T :: Put(ThreePairs(x, y, y), 2, z) == ThreePairs(z, y, y)
  {
    assert [Pair(2, x)][1..] == [] && [Pair(2, x), Pair(1, y)][1..] == [Pair(1, y)] && [Pair(1, y)][1..] == [];
    assert Put<T>([], 1, y) == [Pair(1, y)] && Put<T>([], 0, y) == [Pair(0, y)];
    assert Put([Pair(1, y)], 0, y) == [Pair(1, y)] + [Pair(0, y)];
    assert [Pair(2, x)] + ([Pair(1, y)] + [Pair(0, y)]) == ThreePairs(x, y, y);
    forall z: T ensures Put(ThreePairs(x, y, y), 2, z) == ThreePairs(z, y, y) {
      assert [Pair(2, z)] + ThreePairs(x, y, y)[1..] == ThreePairs(z, y, y);
    }
  }

  lemma OpenedAtOne(id: string, name: string)
    ensures var s := Halfway(id, name, false);
      && !HoldsTool(s, 1) && RoomForTool(s, Target(s, Some(1))) && Target(s, Some(1)) == 1
      && PlacedTool(Filled(s, 1), 1, id, name) == Halfway(id, name, true)
  {
    hide Put, Find, ThreePairs;
    var tool := ToolBlock(id, name, None);
    assert [TextBlock(""), TextBlock(""), tool][1 := tool] == [TextBlock(""), tool, tool];
    PutSecond("", "");
    PutSecond<nat>(0, 0);
    PutSecond((), ());
    NothingFound<nat>(1);
  }

  lemma OpenedAtZero(id: string, name: string)
    ensures var s := Halfway(id, name, true);
      && !HoldsTool(s, 0) && RoomForTool(s, Target(s, Some(0))) && Target(s, Some(0)) == 0
      && PlacedTool(Filled(s, 0), 0, id, name) == Backwards(id, name, "")
  {
    hide Put, Bytes, Find, ThreePairs;
    var tool := ToolBlock(id, name, None);
    assert [TextBlock(""), tool, tool][0 := tool] == [tool, tool, tool];
    PutSecond("", "");
    PutSecond<nat>(0, 0);
    PutSecond((), ());
    NoBytesIn();
    NothingFound<nat>(0);
  }

  lemma WidenedBackwards(id: string, name: string, raw: string)
    requires Bytes(raw) <= MAX_FIELD_BYTES
    ensures var s := Backwards(id, name, "");
      && TakesDelta(s, 2, raw)
      && Widened(s, 2, raw, Text0(Find(s.args, 2)), OrZero(Find(s.argumentBytes, 2))) == Backwards(id, name, raw)
  {
    hide Put, Bytes, Find, KeysIn, ThreePairs;
    PutSecond("", "");
    PutSecond<nat>(0, 0);
    NoBytesIn();
    assert "" + raw == raw;
    ThreeFound<nat>(0, 0, 0);
    ThreeFound("", "", "");
    ThreeFound((), (), ());
  }

  lemma LastToFinish(id: string, name: string, raw: string, bad: Json)
    requires CanonicalArguments(bad).None?
    ensures var s := Backwards(id, name, raw);
      && IsActive(s, 0) && !Fits(s, 0, FinalArguments(s, 0, Some(bad)))
      && |s.content| == 3 && Retained(s, 0) == Larger(Bytes(raw), 2) + 2
  {
    hide Bytes, Find, KeysIn, ThreePairs, CanonicalArguments;
    ThreeFound<nat>(Bytes(raw), 0, 0);
    ThreeFound(raw, "", "");
    ThreeFound((), (), ());
  }

  lemma SixBytes()
    ensures Bytes("abcdef") == 6 <= MAX_FIELD_BYTES && Larger(6, 2) == 6
  {
    BytesJoin("ab", "cdef");
    BytesJoin("cd", "ef");
    assert "cd" + "ef" == "cdef" && "ab" + "cdef" == "abcdef";
    TwoBytes('a', 'b');
    TwoBytes('c', 'd');
    TwoBytes('e', 'f');
  }

  lemma TwoBytes(x: char, y: char)
    requires x as int < 0x80 && y as int < 0x80
    ensures Bytes([x, y]) == 2
  {
    assert [x, y][1..] == [y] && [y][1..] == [];
    assert |Utf8Char(x)| == |Utf8Char(y)| == 1;
    assert Bytes([y]) == 1;
  }

  /** A run that makes the accounts wrong: three tools are started at indexes 2, 1 and 0, and the
      last of them fails to finish. The sum that is kept is twice what the blocks are charged for. */
  method LoseATool(id: string, name: string, bad: Json) returns (w: CanonicalWriter)
    requires IDENTITY_FITS(id) && IDENTITY_FITS(name) && CanonicalArguments(bad).None?
    ensures fresh(w) && !Accounted(w.Now()) && w.contentBytes == 8 && Total(w.content, w.args) == 4
  {
    hide *;
    w := new CanonicalWriter();
    OpenedAtTwo(id, name);
    OpenedAtOne(id, name);
    OpenedAtZero(id, name);
    var two := w.StartTool(id, name, Some(2));
    var one := w.StartTool(id, name, Some(1));
    var zero := w.StartTool(id, name, Some(0));
    assert w.Now() == Backwards(id, name, "");
    SixBytes();
    WidenedBackwards(id, name, "abcdef");
    var grown := w.ToolDelta(2, "abcdef");
    assert w.Now() == Backwards(id, name, "abcdef");
    LastToFinish(id, name, "abcdef", bad);
    var finished := w.FinishTool(0, Some(bad));
    DiscardCanLoseATool(id, name, "abcdef");
    w.Parts();
  }
}
