/** Event streams: pushing, failing, cancelling, and any number of readers in any order. */
module EventStreams {
  import opened Options
  import opened Channel

  datatype Phase = Open | Terminal | Failed

  /** A stream as its users see it; `cancellable` while it still holds its cancel callback. */
  datatype Stream<T> = Stream(chan: Chan<T>, phase: Phase, cancellable: bool)

  function Failing<T>(s: Stream<T>, discard: bool): Stream<T> {
    if s.phase != Open then s else Stream(Channel.Sealed(s.chan, discard), Failed, false)
  }

  /** Calls the cancel callback once; a callback that throws fails the stream. */
  function Cancelling<T>(s: Stream<T>, throws: bool): Stream<T> {
    if s.phase != Open || !s.cancellable then s
    else if throws then Failing(s.(cancellable := false), false)
    else s.(cancellable := false)
  }

  predicate HasRoom<T>(c: Chan<T>) {
    !c.sealed && |c.buffer| < MAX_BUFFERED_EVENTS
  }

  function Offering<T>(s: Stream<T>, event: T, terminal: bool, throws: bool): Stream<T> {
    if s.phase != Open then s
    else if !HasRoom(s.chan) then Failing(Cancelling(s, throws), true)
    else if !terminal then s.(chan := Sent(s.chan, event))
    else Stream(Channel.Sealed(Sent(s.chan, event), false), Terminal, false)
  }

  class EventStream<T> {
    const channel: BoundedEventChannel<T>
    const isTerminal: T -> bool
    var phase: Phase
    var cancellable: bool

    ghost predicate Valid()
      reads this, channel, channel.slots
    {
      channel.Valid()
    }

    ghost function Now(): Stream<T>
      reads this, channel, channel.slots
      requires Valid()
    {
      Stream(channel.Now(), phase, cancellable)
    }

    constructor (isTerminal: T -> bool, cancellable: bool)
      ensures Valid() && fresh(channel) && fresh(channel.slots) && this.isTerminal == isTerminal
      ensures Now() == Stream(Chan([], false, 0, None, 0), Open, cancellable)
    {
      channel := new BoundedEventChannel<T>();
      this.isTerminal := isTerminal;
      phase, this.cancellable := Open, cancellable;
    }

    method Fail(discardBufferedEvents: bool)
      requires Valid()
      modifies this, channel, channel.slots
      ensures Valid() && Now() == Failing(old(Now()), discardBufferedEvents)
    {
      if phase != Open {
        return;
      }
      phase, cancellable := Failed, false;
      channel.Seal(discardBufferedEvents);
    }

    /** Whether the callback throws is up to its owner. */
    method Cancel(throws: bool)
      requires Valid()
      modifies this, channel, channel.slots
      ensures Valid() && Now() == Cancelling(old(Now()), throws)
    {
      if phase != Open || !cancellable {
        return;
      }
      cancellable := false;
      if throws {
        Fail(false);
      }
    }

    method Offer(event: T, throws: bool) returns (more: bool)
      requires Valid()
      modifies this, channel, channel.slots
      ensures Valid() && Now() == Offering(old(Now()), event, isTerminal(event), throws)
      ensures more <==> old(phase) == Open && HasRoom(old(Now()).chan) && !isTerminal(event)
    {
      if phase != Open {
        return false;
      }
      var terminal := isTerminal(event);
      var sent := channel.Send(event);
      if !sent {
        Cancel(throws);
        Fail(true);
        return false;
      }
      if !terminal {
        return true;
      }
      phase, cancellable := Terminal, false;
      channel.Seal(false);
      return false;
    }
  }

  // ----- any interleaving -----

  /** A reader waits for a pulse on behalf of an iterator. */
  datatype Reader = Reader(iterator_: nat, pulse: nat)

  /** The world of one stream: its readers, the iterators that have returned, the events it
      accepted, those delivered so far, and those dropped. */
  datatype World<T> = World(
    stream: Stream<T>, returned: set<nat>, readers: map<nat, Reader>,
    accepted: seq<T>, delivered: seq<T>, dropped: seq<T>)

  datatype Event<T> =
    | Push(event: T, throws: bool)
    | FailNow
    | Next(reader: nat, from: nat)
    | Resume(reader: nat)
    | Return(from: nat, throws: bool)

  predicate Ready<T>(w: World<T>, r: nat)
    requires r in w.readers
  {
    w.stream.chan.changed != Some(w.readers[r].pulse)
  }

  function AfterRead<T>(w: World<T>, r: nat, from: nat, c: Chan<T>, got: Received<T>): World<T> {
    var u := w.(stream := w.stream.(chan := c));
    match got
    case Got(event) => u.(readers := w.readers - {r}, delivered := w.delivered + [event])
    case Wait(pulse) => u.(readers := w.readers[r := Reader(from, pulse)])
    case _ => u.(readers := w.readers - {r})
  }

  function Happens<T>(w: World<T>, e: Event<T>, isTerminal: T -> bool): World<T> {
    match e
    case Push(event, throws) =>
      var s := Offering(w.stream, event, isTerminal(event), throws);
      if w.stream.phase == Open && HasRoom(w.stream.chan) then w.(stream := s, accepted := w.accepted + [event])
      else w.(stream := s, dropped := Dropped(w, s))
    case FailNow => w.(stream := Failing(w.stream, false))
    case Next(r, from) =>
      if r in w.readers then w
      else
        var (c, got) := BeginRead(w.stream.chan, from !in w.returned);
        AfterRead(w, r, from, c, got)
    case Resume(r) =>
      if r !in w.readers || !Ready(w, r) || w.stream.chan.pendingReads == 0 then w
      else
        var (c, got) := ResumeRead(w.stream.chan, w.readers[r].iterator_ !in w.returned);
        AfterRead(w, r, w.readers[r].iterator_, c, got)
    case Return(from, throws) =>
      var woken := w.stream.(chan := Pulsed(w.stream.chan));
      w.(returned := w.returned + {from}, stream := Cancelling(woken, throws))
  }

  /** Buffered events that failing by overflow throws away. */
  function Dropped<T>(w: World<T>, s: Stream<T>): seq<T> {
    if s.chan.buffer == [] then w.stream.chan.buffer + w.dropped else w.dropped
  }

  function Unfolds<T>(w: World<T>, es: seq<Event<T>>, isTerminal: T -> bool): World<T>
    decreases |es|
  {
    if es == [] then w else Unfolds(Happens(w, es[0], isTerminal), es[1..], isTerminal)
  }

  function Fresh<T>(cancellable: bool): World<T> {
    World(Stream(Chan([], false, 0, None, 0), Open, cancellable), {}, map[], [], [], [])
  }

  // ----- what every interleaving keeps -----

  /** A pulse that is not yet signalled means that there is nothing to read and nothing has ended. */
  ghost predicate PulseOk<T>(c: Chan<T>) {
    && |c.buffer| <= MAX_BUFFERED_EVENTS
    && (c.changed.Some? ==> c.buffer == [] && !c.sealed && c.changed.value < c.pulses)
  }

  ghost predicate ReadersOk<T>(w: World<T>) {
    && w.stream.chan.pendingReads == |w.readers| <= MAX_BUFFERED_EVENTS
    && (forall r :: r in w.readers ==> w.readers[r].pulse < w.stream.chan.pulses)
    && (forall r :: r in w.readers && w.readers[r].iterator_ in w.returned ==> Ready(w, r))
  }

  ghost predicate OrderOk<T>(w: World<T>) {
    && w.accepted == w.delivered + w.stream.chan.buffer + w.dropped
    && (w.dropped != [] ==> w.stream.phase == Failed && w.stream.chan.buffer == [])
    && (w.stream.chan.sealed <==> w.stream.phase != Open)
  }

  ghost predicate TerminalOk<T>(w: World<T>, isTerminal: T -> bool) {
    && (forall i :: 0 <= i < |w.accepted| && isTerminal(w.accepted[i]) ==>
         i == |w.accepted| - 1 && w.stream.phase == Terminal)
    && (w.stream.phase == Terminal ==> |w.accepted| > 0 && isTerminal(w.accepted[|w.accepted| - 1]))
  }

  ghost predicate Ok<T>(w: World<T>, isTerminal: T -> bool) {
    PulseOk(w.stream.chan) && ReadersOk(w) && OrderOk(w) && TerminalOk(w, isTerminal)
  }

  lemma FreshIsOk<T>(cancellable: bool, isTerminal: T -> bool)
    ensures Ok(Fresh(cancellable), isTerminal)
  {
  }

  lemma SizeWithout<K, V>(m: map<K, V>, k: K)
    requires k in m
    ensures |m - {k}| == |m| - 1
  {
    assert (m - {k}).Keys == m.Keys - {k};
    assert |m.Keys - {k}| == |m.Keys| - 1;
    assert |m| == |m.Keys| && |m - {k}| == |(m - {k}).Keys|;
  }

  lemma SizeWith<K, V>(m: map<K, V>, k: K, v: V)
    ensures |m[k := v]| == if k in m then |m| else |m| + 1
  {
    assert m[k := v].Keys == m.Keys + {k};
    assert |m| == |m.Keys| && |m[k := v]| == |m[k := v].Keys|;
  }

  lemma TakenInOrder<T>(d: seq<T>, b: seq<T>, rest: seq<T>)
    requires b != []
    ensures d + b + rest == (d + [b[0]]) + b[1..] + rest
  {
    assert b == [b[0]] + b[1..];
  }

  /** A new read: it ends at once, or joins the readers of the current pulse. */
  lemma NextKeeps<T>(w: World<T>, r: nat, from: nat, isTerminal: T -> bool)
    requires Ok(w, isTerminal) && r !in w.readers
    ensures Ok(Happens(w, Next(r, from), isTerminal), isTerminal)
  {
    var c := w.stream.chan;
    var (d, got) := BeginRead(c, from !in w.returned);
    assert w.readers - {r} == w.readers;
    if got.Got? {
      TakenInOrder(w.delivered, c.buffer, w.dropped);
    }
    if got.Wait? {
      SizeWith(w.readers, r, Reader(from, got.pulse));
    }
  }

  /** A reader that was woken: it ends, or waits for the next pulse. */
  lemma ResumeKeeps<T>(w: World<T>, r: nat, isTerminal: T -> bool)
    requires Ok(w, isTerminal) && r in w.readers && Ready(w, r)
    ensures Ok(Happens(w, Resume(r), isTerminal), isTerminal)
  {
    var c, from := w.stream.chan, w.readers[r].iterator_;
    SizeWithout(w.readers, r);
    assert c.pendingReads > 0;
    var (d, got) := ResumeRead(c, from !in w.returned);
    if got.Got? {
      TakenInOrder(w.delivered, c.buffer, w.dropped);
    }
    if got.Wait? {
      SizeWith(w.readers, r, Reader(from, got.pulse));
    }
  }

  lemma AcceptKeeps<T>(w: World<T>, event: T, throws: bool, isTerminal: T -> bool)
    requires Ok(w, isTerminal) && w.stream.phase == Open && HasRoom(w.stream.chan)
    ensures Ok(Happens(w, Push(event, throws), isTerminal), isTerminal)
  {
    var t := Happens(w, Push(event, throws), isTerminal);
    assert w.dropped == [];
    assert w.delivered + (w.stream.chan.buffer + [event]) + [] == w.delivered + w.stream.chan.buffer + [] + [event];
  }

  lemma RefuseKeeps<T>(w: World<T>, event: T, throws: bool, isTerminal: T -> bool)
    requires Ok(w, isTerminal) && !(w.stream.phase == Open && HasRoom(w.stream.chan))
    ensures Ok(Happens(w, Push(event, throws), isTerminal), isTerminal)
  {
    var t := Happens(w, Push(event, throws), isTerminal);
    if t.stream.chan.buffer == [] {
      assert w.delivered + [] + (w.stream.chan.buffer + w.dropped) == w.delivered + w.stream.chan.buffer + w.dropped;
    }
  }

  lemma FailKeeps<T>(w: World<T>, isTerminal: T -> bool)
    requires Ok(w, isTerminal)
    ensures Ok(Happens(w, FailNow, isTerminal), isTerminal)
  {
  }

  lemma ReturnKeeps<T>(w: World<T>, from: nat, throws: bool, isTerminal: T -> bool)
    requires Ok(w, isTerminal)
    ensures Ok(Happens(w, Return(from, throws), isTerminal), isTerminal)
  {
  }

  lemma EventKeeps<T>(w: World<T>, e: Event<T>, isTerminal: T -> bool)
    requires Ok(w, isTerminal)
    ensures Ok(Happens(w, e, isTerminal), isTerminal)
  {
    hide Ok;
    match e
    case Push(event, throws) =>
      if w.stream.phase == Open && HasRoom(w.stream.chan) {
        AcceptKeeps(w, event, throws, isTerminal);
      } else {
        RefuseKeeps(w, event, throws, isTerminal);
      }
    case FailNow => FailKeeps(w, isTerminal);
    case Next(r, from) =>
      if r !in w.readers {
        NextKeeps(w, r, from, isTerminal);
      }
    case Resume(r) =>
      if r in w.readers && Ready(w, r) {
        ResumeKeeps(w, r, isTerminal);
      }
    case Return(from, throws) => ReturnKeeps(w, from, throws, isTerminal);
  }

  lemma {:induction false} UnfoldsOk<T>(w: World<T>, es: seq<Event<T>>, isTerminal: T -> bool)
    requires Ok(w, isTerminal)
    ensures Ok(Unfolds(w, es, isTerminal), isTerminal)
    decreases |es|
  {
    hide Ok, Happens;
    if es != [] {
      EventKeeps(w, es[0], isTerminal);
      UnfoldsOk(Happens(w, es[0], isTerminal), es[1..], isTerminal);
    }
  }

  ghost predicate Occurs<T(!new)>(w: World<T>, isTerminal: T -> bool) {
    exists cancellable: bool, es: seq<Event<T>> :: w == Unfolds(Fresh(cancellable), es, isTerminal)
  }

  lemma OccursOk<T(!new)>(w: World<T>, isTerminal: T -> bool)
    requires Occurs(w, isTerminal)
    ensures Ok(w, isTerminal)
  {
    var cancellable: bool, es: seq<Event<T>> :| w == Unfolds(Fresh(cancellable), es, isTerminal);
    FreshIsOk(cancellable, isTerminal);
    UnfoldsOk(Fresh(cancellable), es, isTerminal);
  }

  /** No wake-up is lost: while an event is buffered, or the stream has ended, or its iterator has
      returned, no reader waits for a pulse that is still to come. */
  lemma NoLostWakeUp<T(!new)>(w: World<T>, r: nat, isTerminal: T -> bool)
    requires Occurs(w, isTerminal) && r in w.readers
    requires w.stream.chan.buffer != [] || w.stream.chan.sealed || w.readers[r].iterator_ in w.returned
    ensures Ready(w, r)
  {
    OccursOk(w, isTerminal);
  }

  /** A ready reader takes the oldest event, or ends, unless there is nothing to read yet. */
  lemma ReadyReaderMoves<T(!new)>(w: World<T>, r: nat, isTerminal: T -> bool)
    requires Occurs(w, isTerminal) && r in w.readers && Ready(w, r)
    ensures var t, active := Happens(w, Resume(r), isTerminal), w.readers[r].iterator_ !in w.returned;
      && (active && w.stream.chan.buffer != [] ==>
            t.delivered == w.delivered + [w.stream.chan.buffer[0]] && t.stream.chan.buffer == w.stream.chan.buffer[1..])
      && (!active || w.stream.chan.buffer != [] || w.stream.chan.sealed ==> r !in t.readers)
      && (active && w.stream.chan.buffer == [] && !w.stream.chan.sealed ==> r in t.readers && !Ready(t, r))
  {
    OccursOk(w, isTerminal);
    SizeWithout(w.readers, r);
  }

  /** Events are delivered in the order in which they were accepted, each once, and at most 4,096
      wait; what is still to come is in the buffer, unless an overflow has thrown it away. */
  lemma DeliveredInOrder<T(!new)>(w: World<T>, isTerminal: T -> bool)
    requires Occurs(w, isTerminal)
    ensures w.accepted == w.delivered + w.stream.chan.buffer + w.dropped
    ensures |w.stream.chan.buffer| <= MAX_BUFFERED_EVENTS && |w.readers| <= MAX_BUFFERED_EVENTS
    ensures w.dropped != [] ==> w.stream.phase == Failed
  {
    OccursOk(w, isTerminal);
  }

  /** Nothing follows a terminal event. */
  lemma NothingAfterTerminal<T(!new)>(w: World<T>, i: nat, isTerminal: T -> bool)
    requires Occurs(w, isTerminal) && i < |w.accepted| && isTerminal(w.accepted[i])
    ensures i == |w.accepted| - 1 && w.stream.phase == Terminal
    ensures forall event: T, throws: bool :: Happens(w, Push(event, throws), isTerminal).accepted == w.accepted
  {
    OccursOk(w, isTerminal);
  }
}
