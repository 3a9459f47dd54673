/** The asynchronous writer: appends may be called at any time, and run one after the other.

    A call waits for a promise, the tail of the chain, and puts a new tail in its place, which
    settles some time after the call has ended. In between an append waits for the disk. Whatever
    may go on does so in any order. */
module Appends {
  import opened Options
  import opened SessionTypes
  import opened Reducer
  import opened Log
  import opened Durability

  datatype Phase = Waiting | Running(prepared: Prepared) | Ended(reply: Reply)

  /** A call, the promise that it waits for, and the one that settles after it. */
  datatype Call = Call(draft: Draft, waitsFor: nat, settles: nat, phase: Phase)

  /** Promises are known by numbers; the first one is settled from the start. `closing` is the
      promise that the closing of the file waits for. */
  datatype Writer = Writer(
    world: World, calls: seq<Call>, settled: seq<bool>, tail: nat, closed: bool, closing: Option<nat>,
    released: bool, ended: seq<Event>)

  datatype Move =
    | Request(draft: Draft)
    | Resume(call: nat)
    | Finish(call: nat, reached: nat, synced: bool)
    | Settle(call: nat)
    | CloseWriter
    | Release

  ghost predicate Open(w: World) {
    w.writer.Some? && w.writer.value.offset <= |w.disk|
  }

  predicate IsSettled(w: Writer, promise: nat) {
    promise < |w.settled| && w.settled[promise]
  }

  /** What a move takes; the program is free to choose among the moves that can be made. */
  predicate CanMove(w: Writer, move: Move) {
    match move
    case Request(_) => !w.closed
    case Resume(i) => i < |w.calls| && w.calls[i].phase.Waiting? && IsSettled(w, w.calls[i].waitsFor)
    case Finish(i, _, _) => i < |w.calls| && w.calls[i].phase.Running?
    case Settle(i) => i < |w.calls| && w.calls[i].phase.Ended? && w.calls[i].settles < |w.settled|
    case CloseWriter => !w.closed
    case Release => w.closing.Some? && IsSettled(w, w.closing.value)
  }

  function Moves(w: Writer, move: Move): Writer
    requires Open(w.world) && CanMove(w, move)
  {
    match move
    case Request(draft) =>
      var next := |w.settled|;
      w.(calls := w.calls + [Call(draft, w.tail, next, Waiting)], settled := w.settled + [false], tail := next)
    case Resume(i) =>
      var prepared := Prepare(w.world.writer.value.session, w.calls[i].draft);
      w.(calls := w.calls[i := w.calls[i].(phase := Phase.Running(prepared))])
    case Finish(i, reached, synced) =>
      var c := w.calls[i];
      var (world, reply) := WriteOut(w.world.disk, w.world.writer.value, c.phase.prepared, reached, synced);
      w.(world := world, calls := w.calls[i := c.(phase := Phase.Ended(reply))],
         ended := w.ended + [Append(c.draft, reached, synced)])
    case Settle(i) => w.(settled := w.settled[w.calls[i].settles := true])
    case CloseWriter => w.(closed := true, closing := Some(w.tail))
    case Release => w.(released := true)
  }

  // ----- the chain -----

  /** Each call waits for the one before it. */
  ghost predicate Chained(w: Writer) {
    && |w.settled| == |w.calls| + 1 && w.settled[0] && w.tail == |w.calls|
    && (forall i :: 0 <= i < |w.calls| ==> w.calls[i].waitsFor == i && w.calls[i].settles == i + 1)
    && (forall i :: 0 <= i < |w.calls| && w.settled[i + 1] ==> w.calls[i].phase.Ended?)
    && (w.closing.Some? <==> w.closed) && (w.closing.Some? ==> w.closing.value == |w.calls|)
  }

  /** The first calls have ended, one may be under way, and the others wait. */
  ghost predicate OneByOne(w: Writer) {
    && |w.ended| <= |w.calls|
    && (forall i :: 0 <= i < |w.ended| ==>
          w.calls[i].phase.Ended? && w.ended[i].Append? && w.ended[i].draft == w.calls[i].draft)
    && (|w.ended| < |w.calls| ==> !w.calls[|w.ended|].phase.Ended?)
    && (forall i :: |w.ended| < i < |w.calls| ==> w.calls[i].phase.Waiting?)
    && (w.released ==> |w.ended| == |w.calls| && w.closed)
  }

  /** What has ended did to the file what the same appends do one at a time. */
  ghost predicate AsEvents(start: World, w: Writer)
    requires OneByOne(w)
  {
    && w.world == Events(start, w.ended) && Sane(w.world) && w.world.writer.Some?
    && (forall i :: 0 <= i < |w.ended| ==>
          w.calls[i].phase.reply == Happen(Events(start, w.ended[..i]), w.ended[i]).1)
    && (|w.ended| < |w.calls| && w.calls[|w.ended|].phase.Running? ==>
          w.calls[|w.ended|].phase.prepared
            == Prepare(w.world.writer.value.session, w.calls[|w.ended|].draft))
  }

  ghost predicate InTurn(start: World, w: Writer) {
    Chained(w) && OneByOne(w) && AsEvents(start, w)
  }

  lemma {:induction false} OneMoreEvent(w: World, es: seq<Event>, e: Event)
    ensures Events(w, es + [e]) == Next(Events(w, es), e)
    decreases |es|
  {
    hide Next;
    if es == [] {
      assert (es + [e])[0] == e && (es + [e])[1..] == [];
      assert Events(Next(w, e), []) == Next(w, e);
    } else {
      assert (es + [e])[0] == es[0] && (es + [e])[1..] == es[1..] + [e];
      OneMoreEvent(Next(w, es[0]), es[1..], e);
    }
  }

  lemma SaneIsOpen(w: World)
    requires Sane(w) && w.writer.Some?
    ensures Open(w)
  {
    hide InStep, Torn, Parse;
  }

  /** An append keeps its writer. */
  lemma AppendHappens(w: World, draft: Draft, reached: nat, synced: bool)
    requires Open(w)
    ensures var m := w.writer.value;
      Happen(w, Append(draft, reached, synced))
        == WriteOut(w.disk, m, Prepare(m.session, draft), reached, synced)
    ensures Next(w, Append(draft, reached, synced)).writer.Some?
  {
    hide Prepare, Transition, HasRoom, Overwritten, RecordBytes;
  }

  /** A call that can go on is the first one that has not ended. */
  lemma OnlyTheNext(w: Writer, i: nat)
    requires Chained(w) && OneByOne(w) && (CanMove(w, Resume(i)) || (i < |w.calls| && w.calls[i].phase.Running?))
    ensures i == |w.ended|
  {
    if w.calls[i].phase.Waiting? && i > 0 {
      assert w.settled[i - 1 + 1] ==> w.calls[i - 1].phase.Ended?;
    }
  }

  lemma RequestsInTurn(start: World, w: Writer, draft: Draft)
    requires InTurn(start, w) && Open(w.world) && !w.closed
    ensures InTurn(start, Moves(w, Request(draft)))
  {
    hide Prepare, Sane, Happen, Events, Next, WriteOut;
  }

  lemma ResumesInTurn(start: World, w: Writer, i: nat)
    requires InTurn(start, w) && Open(w.world) && CanMove(w, Resume(i))
    ensures InTurn(start, Moves(w, Resume(i)))
  {
    hide Prepare, Sane, Happen, Events, Next, WriteOut;
    OnlyTheNext(w, i);
  }

  lemma SettlesInTurn(start: World, w: Writer, i: nat)
    requires InTurn(start, w) && Open(w.world) && CanMove(w, Settle(i))
    ensures InTurn(start, Moves(w, Settle(i)))
  {
    hide Prepare, Sane, Happen, Events, Next, WriteOut;
  }

  lemma ReleasesInTurn(start: World, w: Writer)
    requires InTurn(start, w) && Open(w.world) && CanMove(w, Release)
    ensures InTurn(start, Moves(w, Release))
  {
    hide Prepare, Sane, Happen, Events, Next, WriteOut;
    if |w.calls| > 0 {
      assert w.settled[|w.calls| - 1 + 1] && w.calls[|w.calls| - 1].phase.Ended?;
    }
  }

  lemma FinishesInTurn(start: World, w: Writer, i: nat, reached: nat, synced: bool)
    requires Faithful() && InTurn(start, w) && Open(w.world) && CanMove(w, Finish(i, reached, synced))
    ensures InTurn(start, Moves(w, Finish(i, reached, synced)))
  {
    hide Prepare, WriteOut, Sane, Happen, Events, Faithful;
    OnlyTheNext(w, i);
    var draft := w.calls[i].draft;
    var e := Append(draft, reached, synced);
    var t := Moves(w, Finish(i, reached, synced));
    AppendHappens(w.world, draft, reached, synced);
    EventKeeps(w.world, e);
    OneMoreEvent(start, w.ended, e);
    assert Chained(t) && OneByOne(t);
    forall k | 0 <= k < |t.ended|
      ensures t.calls[k].phase.reply == Happen(Events(start, t.ended[..k]), t.ended[k]).1
    {
      if k < |w.ended| {
        assert t.ended[..k] == w.ended[..k];
      } else {
        assert t.ended[..k] == w.ended;
      }
    }
  }

  lemma MovesInTurn(start: World, w: Writer, move: Move)
    requires Faithful() && InTurn(start, w) && CanMove(w, move)
    ensures Open(w.world) && InTurn(start, Moves(w, move))
  {
    hide *;
    InTurnParts(start, w);
    SaneIsOpen(w.world);
    match move
    case Request(draft) =>
      RequestIs(w, draft);
      RequestsInTurn(start, w, draft);
    case Resume(i) => ResumesInTurn(start, w, i);
    case Finish(i, reached, synced) => FinishesInTurn(start, w, i, reached, synced);
    case Settle(i) => SettlesInTurn(start, w, i);
    case CloseWriter => ClosesInTurn(start, w);
    case Release => ReleasesInTurn(start, w);
  }

  lemma InTurnParts(start: World, w: Writer)
    requires InTurn(start, w)
    ensures Sane(w.world) && w.world.writer.Some?
  {
    hide Sane, Events, Happen, Prepare, Chained, OneByOne;
  }

  lemma RequestIs(w: Writer, draft: Draft)
    requires CanMove(w, Request(draft))
    ensures !w.closed
  {
  }

  lemma ClosesInTurn(start: World, w: Writer)
    requires InTurn(start, w) && Open(w.world) && CanMove(w, CloseWriter)
    ensures InTurn(start, Moves(w, CloseWriter))
  {
    hide Prepare, Sane, Happen, Events, Next, WriteOut;
  }

  /** A run of moves that could be made. */
  ghost predicate Reaches(w: Writer, moves: seq<Move>, t: Writer)
    decreases |moves|
  {
    if moves == [] then t == w
    else Open(w.world) && CanMove(w, moves[0]) && Reaches(Moves(w, moves[0]), moves[1..], t)
  }

  function Fresh(start: World): Writer {
    Writer(start, [], [true], 0, false, None, false, [])
  }

  lemma {:induction false} RunsInTurn(start: World, w: Writer, moves: seq<Move>, t: Writer)
    requires Faithful() && InTurn(start, w) && Reaches(w, moves, t)
    ensures InTurn(start, t)
    decreases |moves|
  {
    hide InTurn, Moves, CanMove, Faithful, Open;
    if moves != [] {
      MovesInTurn(start, w, moves[0]);
      RunsInTurn(start, Moves(w, moves[0]), moves[1..], t);
    }
  }

  lemma FreshInTurn(start: World)
    requires Sane(start) && start.writer.Some?
    ensures InTurn(start, Fresh(start))
  {
    hide Sane, Happen, Prepare, Next;
  }

  /** However calls, a closing, the settling of promises and the waiting for the disk are
      interleaved, appends take effect one at a time and in the order of their calls: at most one is
      under way, and the file and every answer are those of the same drafts appended one after the
      other. When the file is closed, no append is left. */
  lemma AppendsTakeTurns(start: World, moves: seq<Move>, w: Writer)
    requires Faithful() && Sane(start) && start.writer.Some? && Reaches(Fresh(start), moves, w)
    ensures |w.ended| <= |w.calls| && w.world == Events(start, w.ended) && Sane(w.world)
    ensures forall i :: 0 <= i < |w.ended| ==>
      && w.calls[i].phase.Ended? && w.ended[i].Append? && w.ended[i].draft == w.calls[i].draft
      && w.calls[i].phase.reply == Happen(Events(start, w.ended[..i]), w.ended[i]).1
    ensures forall i :: 0 <= i < |w.calls| && w.calls[i].phase.Running? ==> i == |w.ended|
    ensures w.released ==> |w.ended| == |w.calls|
  {
    hide Sane, Faithful, Reaches, Happen, Events, Prepare, WriteOut;
    FreshInTurn(start);
    RunsInTurn(start, Fresh(start), moves, w);
  }

  /** No call waits for ever: while one has not ended, the one under way can end, or the first one
      that waits can go on, or the promise that it waits for can settle. */
  lemma NoCallIsStuck(start: World, moves: seq<Move>, w: Writer, reached: nat, synced: bool)
    requires Faithful() && Sane(start) && start.writer.Some? && Reaches(Fresh(start), moves, w)
    requires |w.ended| < |w.calls|
    ensures var n := |w.ended|;
      || CanMove(w, Finish(n, reached, synced))
      || CanMove(w, Resume(n))
      || (n > 0 && !IsSettled(w, n) && CanMove(w, Settle(n - 1)))
  {
    hide Sane, Faithful, Reaches, Happen, Events, Prepare, WriteOut;
    FreshInTurn(start);
    RunsInTurn(start, Fresh(start), moves, w);
    assert |w.ended| == 0 ==> IsSettled(w, 0);
  }
}
