/** How the program itself uses the writer of content: calls until the first one is refused, and
    then the end of the message. No caller passes an index to a new tool call. */
module ContentRuns {
  import opened Options
  import opened CanonicalJson
  import opened OrderedMap
  import opened ContentBudget
  import opened ContentEvents
  import opened ContentWriter

  datatype Call =
    | AddText(delta: string, thinking: bool)
    | AddSignature(delta: string)
    | OpenTool(id: string, name: string)
    | AddArguments(index: nat, delta: string)
    | CloseTool(index: nat, final: Option<Json>)

  /** The last events of a message are at its end only. */
  ghost predicate Goes(log: seq<Event>) {
    forall i :: 0 <= i < |log| ==> !IsLast(log[i])
  }

  /** One call; only a refused one can discard a tool. */
  method Perform(w: CanonicalWriter, c: Call) returns (ok: bool)
    requires w.Valid() && w.inTurn && Goes(w.log)
    modifies w
    ensures w.Valid() && w.inTurn && Goes(w.log) && (ok ==> w.discards == old(w.discards))
  {
    hide w.Valid, Opened, Extended, Widened, Signed, Filled, PlacedTool, CompletedTool, Discarded, FinalArguments;
    match c {
      case AddText(delta, thinking) => ok := w.Text(delta, thinking);
      case AddSignature(delta) => ok := w.ThinkingSignature(delta);
      case OpenTool(id, name) =>
        var started := w.StartTool(id, name, None);
        ok := started.Some?;
      case AddArguments(index, delta) => ok := w.ToolDelta(index, delta);
      case CloseTool(index, final) => ok := w.FinishTool(index, final);
    }
  }

  /** A whole message: calls until one is refused, or until the connection ends early. Only when
      all of them went well is the message ended in `done`, and when that is refused too, or
      anything before, it ends in an error. */
  method Drive(calls: seq<Call>, completes: bool) returns (w: CanonicalWriter, done: bool)
    ensures fresh(w) && w.Valid() && Accounted(w.Now())
    ensures |w.log| > 0 && Goes(w.log[..|w.log| - 1]) && w.log[|w.log| - 1] == if done then Finished else Failed
    ensures Bracketing(w.log, w.Now()) <==> w.discards == 0
    ensures done ==> completes && w.discards == 0 && (forall x: int :: Find(w.open, x).None?)
    ensures done ==>
      forall i :: 0 <= i < |w.content| ==>
        Bracketed(Trace(w.log, i), i, w.content[i], Find(w.args, i), false)
  {
    hide *;
    w := new CanonicalWriter();
    NothingGoes();
    done := completes;
    var n := 0;
    while done && n < |calls|
      invariant n <= |calls| && fresh(w) && w.Valid() && w.inTurn && Goes(w.log) && (done ==> w.discards == 0)
      invariant done ==> completes
      decreases |calls| - n
    {
      done := Perform(w, calls[n]);
      n := n + 1;
    }
    if done {
      InTurn(w);
      ClosingGoes(w.log, w.Now(), w.open, false, Finished);
      done := w.Done();
    }
    if !done {
      InTurn(w);
      ClosingGoes(w.log, w.Now(), w.open, true, Failed);
      w.Fail();
    }
  }

  lemma NothingGoes()
    ensures Goes([])
  {
  }

  /** A tool that is started in turn is started at the end of the content. */
  lemma InTurn(w: CanonicalWriter)
    requires w.Valid() && w.inTurn
    ensures w.appended && w.sound && (w.discards == 0 <==> w.clean)
  {
    hide Accounted, AllAscending, Bracketing, Starts;
  }

  lemma ClosingGoes(log: seq<Event>, s: State, snapshot: Pairs<()>, ignoreToolErrors: bool, last: Event)
    requires Goes(log)
    ensures var es := log + Closing(s, snapshot, ignoreToolErrors).events;
      Goes(es) && es + [last] != [] && (es + [last])[..|es + [last]| - 1] == es
  {
    hide CloseOne;
    OnlyEnds(s, snapshot, ignoreToolErrors);
    var es := log + Closing(s, snapshot, ignoreToolErrors).events;
    assert (es + [last])[..|es|] == es;
  }

  lemma {:induction false} OnlyEnds(s: State, snapshot: Pairs<()>, ignoreToolErrors: bool)
    ensures forall i :: 0 <= i < |Closing(s, snapshot, ignoreToolErrors).events| ==>
      Closing(s, snapshot, ignoreToolErrors).events[i].Ended?
    decreases |snapshot|
  {
    hide Find, Delete, FinalArguments, Fits, Discarded, Retained;
    if snapshot != [] {
      OnlyEnds(CloseOne(s, snapshot[0].key).state, snapshot[1..], ignoreToolErrors);
    }
  }
}
