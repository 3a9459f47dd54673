/** The bounded channel under an event stream: a ring buffer, and one pulse that all waiting
    readers share. */
module Channel {
  import opened Options

  const MAX_BUFFERED_EVENTS: nat := 4096

  /** A channel as its users see it. Pulses are numbered as they are made; `changed` is the one
      that has not been signalled yet. */
  datatype Chan<T> = Chan(buffer: seq<T>, sealed: bool, pendingReads: nat, changed: Option<nat>, pulses: nat)

  function Pulsed<T>(c: Chan<T>): Chan<T> {
    c.(changed := None)
  }

  function Sent<T>(c: Chan<T>, event: T): Chan<T> {
    if c.sealed || |c.buffer| >= MAX_BUFFERED_EVENTS then c
    else Pulsed(c.(buffer := c.buffer + [event]))
  }

  function Sealed<T>(c: Chan<T>, discard: bool): Chan<T> {
    if c.sealed then c
    else Pulsed(c.(sealed := true, buffer := if discard then [] else c.buffer))
  }

  datatype Received<T> = Got(event: T) | NoMore | Overloaded | Wait(pulse: nat)

  /** What a reader finds without waiting. */
  function Glance<T>(c: Chan<T>, active: bool): (Chan<T>, Option<Received<T>>) {
    if !active then (c, Some(NoMore))
    else if c.buffer != [] then (c.(buffer := c.buffer[1..]), Some(Got(c.buffer[0])))
    else if c.sealed then (c, Some(NoMore))
    else (c, None)
  }

  /** Waiting for the next pulse, the current one if there is one. */
  function Awaited<T>(c: Chan<T>): (Chan<T>, Received<T>) {
    if c.changed.Some? then (c, Wait(c.changed.value))
    else (c.(changed := Some(c.pulses), pulses := c.pulses + 1), Wait(c.pulses))
  }

  function BeginRead<T>(c: Chan<T>, active: bool): (Chan<T>, Received<T>) {
    var (d, r) := Glance(c, active);
    if r.Some? then (d, r.value)
    else if c.pendingReads == MAX_BUFFERED_EVENTS then (c, Overloaded)
    else Awaited(c.(pendingReads := c.pendingReads + 1))
  }

  function ResumeRead<T>(c: Chan<T>, active: bool): (Chan<T>, Received<T>)
    requires c.pendingReads > 0
  {
    var (d, r) := Glance(c, active);
    if r.Some? then (d.(pendingReads := c.pendingReads - 1), r.value) else Awaited(c)
  }

  /** The slot of the `i`-th oldest event. */
  function Slot(head: nat, i: nat): (k: nat)
    ensures k < MAX_BUFFERED_EVENTS
  {
    (head + i) % MAX_BUFFERED_EVENTS
  }

  ghost predicate Held<T>(slots: seq<Option<T>>, head: nat, size: nat)
    requires |slots| == MAX_BUFFERED_EVENTS
  {
    forall i :: 0 <= i < size ==> slots[Slot(head, i)].Some?
  }

  ghost function Contents<T>(slots: seq<Option<T>>, head: nat, size: nat): (b: seq<T>)
    requires |slots| == MAX_BUFFERED_EVENTS && Held(slots, head, size)
    ensures |b| == size && forall i :: 0 <= i < size ==> b[i] == slots[Slot(head, i)].value
  {
    seq(size, i requires 0 <= i < size => slots[Slot(head, i)].value)
  }

  class BoundedEventChannel<T> {
    const slots: array<Option<T>>
    var head: nat
    var size: nat
    var pendingReads: nat
    var closed: bool
    var changed: Option<nat>
    var pulses: nat

    ghost predicate Valid()
      reads this, slots
    {
      && slots.Length == MAX_BUFFERED_EVENTS && head < MAX_BUFFERED_EVENTS && size <= MAX_BUFFERED_EVENTS
      && Held(slots[..], head, size)
    }

    /** The events in the ring, oldest first. */
    ghost function Buffer(): (b: seq<T>)
      reads this, slots
      requires Valid()
      ensures |b| == size
    {
      Contents(slots[..], head, size)
    }

    ghost function Now(): Chan<T>
      reads this, slots
      requires Valid()
    {
      Chan(Buffer(), closed, pendingReads, changed, pulses)
    }

    constructor ()
      ensures Valid() && fresh(slots) && Now() == Chan([], false, 0, None, 0)
    {
      slots := new Option<T>[MAX_BUFFERED_EVENTS](_ => None);
      head, size, pendingReads, closed, changed, pulses := 0, 0, 0, false, None, 0;
    }

    method Pulse()
      requires Valid()
      modifies this`changed
      ensures Valid() && Now() == Pulsed(old(Now()))
    {
      changed := None;
    }

    method Send(event: T) returns (ok: bool)
      requires Valid()
      modifies this, slots
      ensures Valid() && Now() == Sent(old(Now()), event)
      ensures ok <==> !old(closed) && old(size) < MAX_BUFFERED_EVENTS
    {
      if closed || size == MAX_BUFFERED_EVENTS {
        return false;
      }
      var tail := Slot(head, size);
      PutLast(slots[..], head, size, event);
      slots[tail] := Some(event);
      size := size + 1;
      Pulse();
      return true;
    }

    method Clear()
      requires Valid()
      modifies this`head, this`size, slots
      ensures Valid() && Buffer() == []
    {
      for index := 0 to size
        invariant slots.Length == MAX_BUFFERED_EVENTS
        modifies slots
      {
        slots[Slot(head, index)] := None;
      }
      head, size := 0, 0;
    }

    method Seal(discardBufferedEvents: bool)
      requires Valid()
      modifies this, slots
      ensures Valid() && Now() == Sealed(old(Now()), discardBufferedEvents)
    {
      if closed {
        return;
      }
      closed := true;
      if discardBufferedEvents {
        Clear();
      }
      Pulse();
    }

    method Take() returns (event: T)
      requires Valid() && size > 0
      modifies this`head, this`size, slots
      ensures Valid() && event == old(Buffer())[0] && Buffer() == old(Buffer())[1..]
    {
      TakeFirst(slots[..], head, size);
      event := slots[head].value;
      slots[head] := None;
      head := Slot(head, 1);
      size := size - 1;
      if size == 0 {
        head := 0;
      }
    }

    method TryRead(active: bool) returns (r: Option<Received<T>>)
      requires Valid()
      modifies this`head, this`size, slots
      ensures Valid() && (Now(), r) == Glance(old(Now()), active)
    {
      if !active {
        return Some(NoMore);
      }
      if size != 0 {
        var event := Take();
        return Some(Got(event));
      }
      return if closed then Some(NoMore) else None;
    }

    method ChangePulse() returns (pulse: nat)
      requires Valid()
      modifies this`changed, this`pulses
      ensures Valid() && (Now(), Wait(pulse)) == Awaited(old(Now()))
    {
      if changed.None? {
        changed, pulses := Some(pulses), pulses + 1;
      }
      pulse := changed.value;
    }

    /** A read up to its result, or to the pulse that it has to wait for. */
    method BeginReceive(active: bool) returns (r: Received<T>)
      requires Valid()
      modifies this, slots
      ensures Valid() && (Now(), r) == BeginRead(old(Now()), active)
    {
      var first := TryRead(active);
      if first.Some? {
        return first.value;
      }
      if pendingReads == MAX_BUFFERED_EVENTS {
        return Overloaded;
      }
      pendingReads := pendingReads + 1;
      var pulse := ChangePulse();
      return Wait(pulse);
    }

    /** A waiting read after its pulse: it looks again, and either ends or waits for another. */
    method ResumeReceive(active: bool) returns (r: Received<T>)
      requires Valid() && pendingReads > 0
      modifies this, slots
      ensures Valid() && (Now(), r) == ResumeRead(old(Now()), active)
    {
      var found := TryRead(active);
      if found.Some? {
        pendingReads := pendingReads - 1;
        return found.value;
      }
      var pulse := ChangePulse();
      return Wait(pulse);
    }
  }

  lemma SlotsDiffer(head: nat, i: nat, j: nat)
    requires i < j < i + MAX_BUFFERED_EVENTS
    ensures Slot(head, i) != Slot(head, j)
  {
    var a, b := (head + i) / MAX_BUFFERED_EVENTS, (head + j) / MAX_BUFFERED_EVENTS;
    assert (head + j) - (head + i) == (b - a) * MAX_BUFFERED_EVENTS + (Slot(head, j) - Slot(head, i));
    Multiples(b - a, j - i);
  }

  lemma Multiples(n: int, d: nat)
    requires 0 < d < MAX_BUFFERED_EVENTS
    ensures n * MAX_BUFFERED_EVENTS != d
  {
  }

  lemma NextSlot(head: nat, i: nat)
    ensures Slot(Slot(head, 1), i) == Slot(head, i + 1)
  {
  }

  /** A new event goes into a free slot, behind the others. */
  lemma PutLast<T>(slots: seq<Option<T>>, head: nat, size: nat, event: T)
    requires |slots| == MAX_BUFFERED_EVENTS && size < MAX_BUFFERED_EVENTS && Held(slots, head, size)
    ensures var more := slots[Slot(head, size) := Some(event)];
      Held(more, head, size + 1) && Contents(more, head, size + 1) == Contents(slots, head, size) + [event]
  {
    hide Slot;
    var more := slots[Slot(head, size) := Some(event)];
    forall i | 0 <= i < size ensures more[Slot(head, i)] == slots[Slot(head, i)] {
      SlotsDiffer(head, i, size);
    }
  }

  /** Taking the oldest event leaves the others in their slots. */
  lemma TakeFirst<T>(slots: seq<Option<T>>, head: nat, size: nat)
    requires |slots| == MAX_BUFFERED_EVENTS && 0 < size <= MAX_BUFFERED_EVENTS && Held(slots, head, size)
    requires head < MAX_BUFFERED_EVENTS
    ensures Slot(head, 0) == head && slots[head].Some? && slots[head].value == Contents(slots, head, size)[0]
    ensures var rest := slots[head := None];
      && Held(rest, Slot(head, 1), size - 1)
      && Contents(rest, Slot(head, 1), size - 1) == Contents(slots, head, size)[1..]
      && Held(rest, 0, 0) && Contents(rest, 0, 0) == []
  {
    assert Slot(head, 0) == head;
    hide Slot;
    var rest := slots[head := None];
    forall i | 0 <= i < size - 1 ensures rest[Slot(Slot(head, 1), i)] == slots[Slot(head, i + 1)] {
      NextSlot(head, i);
      SlotsDiffer(head, 0, i + 1);
    }
  }
}
