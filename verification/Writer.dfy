/** The synchronous writer and the reader over a disk that may take any part of a write. */
module Writer {
  import opened Options
  import opened JsonLines
  import opened SessionTypes
  import opened Reducer
  import opened Invariant
  import opened Runs
  import opened Store
  import opened Journals
  import opened Log
  import opened Durability

  // ----- the disk -----

  class Disk {
    var bytes: seq<Byte>

    constructor ()
      ensures bytes == []
    {
      bytes := [];
    }

    /** Takes some first part of a chunk; `None` is an I/O error, after which any part may have
        been taken. */
    method Write(chunk: seq<Byte>, at: nat) returns (count: Option<nat>)
      requires at <= |bytes|
      modifies this
      ensures exists k ::
        (0 <= k <= |chunk| && bytes == Overwritten(old(bytes), at, chunk[..k]) && (count.Some? ==> count.value == k))
    {
      var taken: nat :| taken <= |chunk|;
      bytes := Overwritten(bytes, at, chunk[..taken]);
      var failed: bool := *;
      count := if failed then None else Some(taken);
    }

    method Sync() returns (ok: bool)
    {
      ok := *;
    }

    method Truncate(length: nat) returns (ok: bool)
      requires length <= |bytes|
      modifies this
      ensures bytes == if ok then old(bytes)[..length] else old(bytes)
    {
      ok := *;
      if ok {
        bytes := bytes[..length];
      }
    }

    method Remove()
      modifies this
      ensures bytes == []
    {
      bytes := [];
    }
  }

  lemma OverwrittenOn(disk: seq<Byte>, at: nat, bytes: seq<Byte>, i: nat, k: nat)
    requires at == |disk| && i + k <= |bytes|
    ensures Overwritten(Overwritten(disk, at, bytes[..i]), at + i, bytes[i..][..k])
      == Overwritten(disk, at, bytes[..i + k])
  {
    assert bytes[..i] + bytes[i..][..k] == bytes[..i + k];
    assert disk[..at] == disk;
    var first := disk + bytes[..i];
    assert first[..at + i] == first;
  }

  /** Writes all of a record at the end of the disk, or reports how far it came. */
  method WriteAll(disk: Disk, bytes: seq<Byte>, position: nat) returns (ok: bool, ghost reached: nat)
    requires position == |disk.bytes|
    modifies disk
    ensures reached <= |bytes| && disk.bytes == Overwritten(old(disk.bytes), position, bytes[..reached])
    ensures ok ==> reached == |bytes|
  {
    var written := 0;
    reached := 0;
    assert Overwritten(disk.bytes, position, bytes[..0]) == disk.bytes;
    while written < |bytes|
      invariant written <= |bytes| && reached == written
      invariant disk.bytes == Overwritten(old(disk.bytes), position, bytes[..written])
      decreases |bytes| - written
    {
      label before:
      var count := disk.Write(bytes[written..], position + written);
      ghost var k :| 0 <= k <= |bytes[written..]|
        && disk.bytes == Overwritten(old@before(disk.bytes), position + written, bytes[written..][..k])
        && (count.Some? ==> count.value == k);
      OverwrittenOn(old(disk.bytes), position, bytes, written, k);
      reached := written + k;
      if count.None? || count.value == 0 {
        return false, reached;
      }
      written := written + count.value;
    }
    ok := true;
  }

  // ----- the reader -----

  lemma {:induction false} LinesPush(b: seq<Byte>, x: Byte)
    ensures |Lines(b + [x])| == |Lines(b)| + if x == LF then 1 else 0
  {
    var n := CommittedLength(b);
    CommittedIsTerminated(b);
    var base, tail := b[..n], b[n..];
    assert forall i :: 0 <= i < |tail| ==> tail[i] == b[n + i];
    assert b == base + tail && b + [x] == base + (tail + [x]);
    LinesOfMore(base, tail);
    LinesOfMore(base, tail + [x]);
    OneLine(tail);
    if x != LF {
      OneLine(tail + [x]);
    }
  }

  method CountLines(bytes: seq<Byte>, length: nat) returns (count: nat)
    requires length <= |bytes|
    ensures count == |Lines(bytes[..length])|
  {
    count := 0;
    for index := 0 to length
      invariant count == |Lines(bytes[..index])|
    {
      LinesPush(bytes[..index], bytes[index]);
      assert bytes[..index] + [bytes[index]] == bytes[..index + 1];
      if bytes[index] == LF {
        count := count + 1;
      }
    }
  }

  lemma CutAt(b: seq<Byte>, n: nat)
    requires n <= |b| && forall i :: n <= i < |b| ==> b[i] != LF
    ensures b == b[..n] + b[n..] && LF !in b[n..]
  {
  }

  lemma LinesAreCommitted(b: seq<Byte>)
    ensures Lines(b) == Lines(b[..CommittedLength(b)])
    ensures CommittedLength(b) == 0 <==> Lines(b) == []
  {
    hide Lines, FirstLf, CommittedLength;
    var n := CommittedLength(b);
    CommittedIsTerminated(b);
    CutAt(b, n);
    LinesOfMore(b[..n], b[n..]);
    OneLine(b[n..]);
    assert Lines(b[..n]) + [] == Lines(b[..n]);
    if n > 0 {
      assert b[..n] == b[..n][..n - 1] + [LF];
      LinesPush(b[..n][..n - 1], LF);
    } else {
      NoLines();
      assert b[..0] == [];
    }
  }

  method AllFit(lines: seq<seq<Byte>>) returns (ok: bool)
    ensures ok <==> FitLines(lines)
  {
    for index := 0 to |lines|
      invariant forall i :: 0 <= i < index ==> |lines[i]| <= MAX_RECORD_BYTES
    {
      if |lines[index]| > MAX_RECORD_BYTES {
        return false;
      }
    }
    return true;
  }

  datatype Reading = Reading(store: SessionStore, commits: seq<Commit>, rows: nat, committed: nat)

  lemma ReplayFrom(r: Replayed, lines: seq<seq<Byte>>, i: nat)
    requires i < |lines|
    ensures Replay(r, lines[i..]) ==
      match ReplayLine(r, lines[i]) case None => None case Some(next) => Replay(next, lines[i + 1..])
  {
    hide ReplayLine;
    assert lines[i..][1..] == lines[i + 1..];
  }

  lemma ReplayedLine(r: Replayed, line: seq<Byte>, c: Commit)
    requires ReadLine(line) == Some(c)
    ensures ReplayLine(r, line) ==
      match Transition(r.session, c)
      case Rejected => None
      case Duplicate => Some(r)
      case Applied(t) => Some(Replayed(t, r.commits + [c]))
  {
    hide Transition;
  }

  lemma UnreadLine(r: Replayed, line: seq<Byte>)
    requires ReadLine(line).None?
    ensures ReplayLine(r, line) == None
  {
    hide Transition;
  }

  lemma ReplayEnds(r: Replayed)
    ensures Replay(r, []) == Some(r)
  {
  }

  lemma LineKeeps(s: Session, c: Commit)
    requires Settled(s)
    ensures Transition(s, c).Applied? ==> Settled(Transition(s, c).next)
  {
    hide Settled, Transition;
    if Transition(s, c).Applied? {
      TransitionKeeps(s, c, Transition(s, c).next);
    }
  }

  /** Applies the lines of a file to a new session. */
  method ReplayLines(store: SessionStore, lines: seq<seq<Byte>>) returns (ok: bool, commits: seq<Commit>)
    requires store.Valid() && Settled(store.Seen())
    modifies store, store.records
    ensures store.Valid() && old(store.records) <= store.records && fresh(store.records - old(store.records))
    ensures Replay(Replayed(old(store.Seen()), []), lines)
      == if ok then Some(Replayed(store.Seen(), commits)) else None
    ensures ok ==> Settled(store.Seen())
  {
    hide *;
    commits := [];
    ghost var start := Replayed(store.Seen(), []);
    assert lines[0..] == lines;
    for index := 0 to |lines|
      invariant store.Valid() && old(store.records) <= store.records && fresh(store.records - old(store.records))
      invariant Settled(store.Seen())
      invariant Replay(start, lines) == Replay(Replayed(store.Seen(), commits), lines[index..])
    {
      ghost var r := Replayed(store.Seen(), commits);
      ReplayFrom(r, lines, index);
      var commit := ReadLine(lines[index]);
      if commit.None? {
        UnreadLine(r, lines[index]);
        return false, commits;
      }
      ReplayedLine(r, lines[index], commit.value);
      LineKeeps(store.Seen(), commit.value);
      JudgedIs(Transition(store.Seen(), commit.value));
      var verdict := store.Offer(commit.value, true);
      if verdict == Denied {
        return false, commits;
      }
      if verdict == Admitted {
        commits := commits + [commit.value];
      }
    }
    assert lines[|lines|..] == [];
    ReplayEnds(Replayed(store.Seen(), commits));
    return true, commits;
  }

  lemma JudgedIs(outcome: Outcome)
    ensures Judged(outcome) == Denied <==> outcome.Rejected?
    ensures Judged(outcome) == Repeated <==> outcome.Duplicate?
    ensures Judged(outcome) == Admitted <==> outcome.Applied?
  {
  }

  lemma ParseIs(b: seq<Byte>)
    ensures Parse(b) ==
      if |b| > MAX_FILE_BYTES || |Lines(b)| == 0 || |Lines(b)| - 1 > MAX_COMMIT_COUNT || !FitLines(Lines(b)) then None
      else match ReadFirst(Lines(b))
        case None => None
        case Some(first) =>
          match Replay(first, Lines(b)[1..])
          case None => None
          case Some(replayed) => Some(Parsed(replayed, |Lines(b)| - 1, CommittedLength(b)))
  {
    hide Replay, ReadFirst, FitLines, Lines, CommittedLength;
  }

  lemma ReadFirstIs(lines: seq<seq<Byte>>)
    ensures ReadFirst(lines).None? <==> lines == [] || !Readable(lines[0]) || READ_HEADER(lines[0]).None?
    ensures ReadFirst(lines).Some? ==> ReadFirst(lines) == Some(Replayed(Initial(READ_HEADER(lines[0]).value), []))
  {
    hide Initial;
  }

  /** Reads a file: what `Parse` says, in a session of its own. */
  method ParseBytes(input: seq<Byte>) returns (r: Option<Reading>)
    ensures r.Some? <==> Parse(input).Some?
    ensures r.Some? ==>
      && fresh(r.value.store) && r.value.store.Valid() && fresh(r.value.store.records)
      && Parse(input).value == Parsed(
           Replayed(r.value.store.Seen(), r.value.commits), r.value.rows, r.value.committed)
      && r.value.committed == CommittedLength(input)
  {
    hide *;
    ParseIs(input);
    LinesAreCommitted(input);
    if |input| > MAX_FILE_BYTES {
      return None;
    }
    var committed := CommittedLength(input);
    if committed == 0 {
      return None;
    }
    var count := CountLines(input, committed);
    if count - 1 > MAX_COMMIT_COUNT {
      return None;
    }
    var lines := Lines(input[..committed]);
    var fit := AllFit(lines);
    if !fit {
      return None;
    }
    ReadFirstIs(lines);
    if !Readable(lines[0]) {
      return None;
    }
    var header := READ_HEADER(lines[0]);
    if header.None? {
      return None;
    }
    var store := new SessionStore(header.value);
    InitialInv(header.value);
    SettledIs(Initial(header.value));
    var ok, commits := ReplayLines(store, lines[1..]);
    if !ok {
      return None;
    }
    return Some(Reading(store, commits, count - 1, committed));
  }

  // ----- the writer -----

  class SyncWriter {
    const disk: Disk
    const store: SessionStore
    var offset: nat
    var rows: nat
    var fault: bool
    var closed: bool

    ghost function Here(): Mem
      reads this, store, store.records
      requires store.Valid()
    {
      Mem(store.Seen(), offset, rows, fault)
    }

    ghost function Now(): World
      reads this, disk, store, store.records
      requires store.Valid()
    {
      World(disk.bytes, Some(Here()))
    }

    ghost predicate Valid()
      reads this, disk, store, store.records
    {
      store.Valid() && Settled(store.Seen()) && Sane(Now())
    }

    lemma Parts()
      requires Valid()
      ensures store.Valid() && Settled(store.Seen()) && Sane(Now()) && Now() == World(disk.bytes, Some(Here()))
      ensures Here() == Mem(store.Seen(), offset, rows, fault)
    {
      hide Sane, Settled, Sound, View;
    }

    lemma Whole()
      requires store.Valid() && Settled(store.Seen())
      requires Sane(World(disk.bytes, Some(Mem(store.Seen(), offset, rows, fault))))
      ensures Valid() && Now() == World(disk.bytes, Some(Mem(store.Seen(), offset, rows, fault)))
    {
      hide Sane, Settled, Sound, View;
    }

    constructor (disk: Disk, store: SessionStore, offset: nat, rows: nat)
      requires store.Valid() && Settled(store.Seen())
      requires Sane(World(disk.bytes, Some(Mem(store.Seen(), offset, rows, false))))
      ensures Valid() && this.disk == disk && this.store == store && !closed
      ensures Now() == World(disk.bytes, Some(Mem(store.Seen(), offset, rows, false)))
    {
      hide Sane, Settled, Sound, View;
      this.disk, this.store, this.offset, this.rows, fault, closed := disk, store, offset, rows, false, false;
    }

    /** Finds out whether a draft is already recorded, would apply, or must be refused. */
    method PrepareCommit(draft: Draft) returns (prepared: Prepared)
      requires store.Valid() && Settled(store.Seen())
      modifies store, store.records
      ensures prepared == Prepare(old(store.Seen()), draft)
      ensures store.Valid() && store.Seen() == old(store.Seen())
      ensures old(store.records) <= store.records && fresh(store.records - old(store.records))
    {
      hide *;
      PrepareIs(store.Seen(), draft);
      if !WellFormedChanges(draft.changes) {
        return Unfit;
      }
      if draft.commitId in store.commits {
        var existing := store.commits[draft.commitId];
        return if SameDraft(existing, draft) then Known(existing) else Unfit;
      }
      var commit := Commit(store.sequence + 1, draft.commitId, draft.committedAt, draft.changes);
      JudgedIs(Transition(store.Seen(), commit));
      var verdict := store.Offer(commit, false);
      if verdict == Denied || |RecordLine(commit)| > MAX_RECORD_BYTES || commit.sequence > MAX_COMMIT_COUNT {
        return Unfit;
      }
      return New(commit);
    }

    /** Appends a draft: for some part of the record that reached the disk, exactly what
        `AppendTo` says. The session always admits the durable commit, so the error for a commit
        that it refuses is unreachable. */
    method Append(draft: Draft) returns (reply: Reply, ghost reached: nat, ghost synced: bool)
      requires Valid() && Faithful()
      modifies this, disk, store, store.records
      ensures Valid() && old(store.records) <= store.records && fresh(store.records - old(store.records))
      ensures closed == old(closed)
      ensures old(closed) ==> Now() == old(Now()) && reply == Refused
      ensures !old(closed) ==>
        (Now(), reply) == AppendTo(old(disk.bytes), old(Here()), draft, reached, synced)
    {
      hide *;
      Parts();
      reached, synced := 0, false;
      ghost var w, m := Now(), Here();
      SaneParts(w, m);
      if closed {
        Whole();
        return Refused, 0, false;
      }
      AppendIs(w.disk, m, draft);
      AppendStaysValid(w, m, draft);
      JudgedIs(Transition(m.session, NewCommit(m.session, draft)));
      var prepared := PrepareCommit(draft);
      if prepared.Unfit? {
        Whole();
        return Refused, 0, false;
      }
      if prepared.Known? {
        Whole();
        return Recorded(prepared.commit), 0, false;
      }
      var commit := prepared.commit;
      if fault || offset + |RecordBytes(commit)| > MAX_FILE_BYTES || rows >= MAX_COMMIT_COUNT {
        Whole();
        return Refused, 0, false;
      }
      var ok, part := WriteAll(disk, RecordBytes(commit), offset);
      reached := part;
      if ok {
        ok := disk.Sync();
      }
      synced := ok;
      if !ok {
        fault := true;
        assert World(disk.bytes, Some(m.(fault := true))) == AppendTo(w.disk, m, draft, reached, synced).0;
        Whole();
        return WriteFailed, reached, synced;
      }
      offset, rows := offset + |RecordBytes(commit)|, rows + 1;
      var verdict := store.Offer(commit, true);
      assert verdict == Admitted;
      assert World(disk.bytes, Some(Mem(store.Seen(), offset, rows, false)))
        == AppendTo(w.disk, m, draft, reached, synced).0;
      Whole();
      return Recorded(commit), reached, synced;
    }

    /** After closing, appends are refused. */
    method Close()
      requires Valid()
      modifies this`closed
      ensures Valid() && closed && Now() == old(Now())
    {
      hide Sane, Settled, Sound, View;
      closed := true;
    }

    /** Opens an existing file, cutting off a torn tail. That may fail, before or after the cut; a
        file without a torn tail opens if and only if it is readable. */
    static method Open(disk: Disk) returns (writer: Option<SyncWriter>)
      modifies disk
      ensures writer.Some? ==> Parse(old(disk.bytes)).Some?
      ensures Parse(old(disk.bytes)).Some? && CommittedLength(old(disk.bytes)) == |old(disk.bytes)| ==> writer.Some?
      ensures writer.None? ==>
        exists cut :: World(disk.bytes, None) == Next(World(old(disk.bytes), None), FailedReopen(cut))
      ensures writer.Some? ==>
        && fresh(writer.value) && fresh(writer.value.store) && fresh(writer.value.store.records)
        && writer.value.Valid() && writer.value.disk == disk && !writer.value.closed
        && writer.value.Now() == Next(World(old(disk.bytes), None), Reopen)
    {
      hide Sane, Settled, Sound, View, Parse, CommittedLength, Durable, Next, Happen, Extended;
      FailedReopens(disk.bytes);
      var reading := ParseBytes(disk.bytes);
      if reading.None? {
        return None;
      }
      var store := reading.value.store;
      ReopenedIsSane(disk.bytes);
      ParsedIsSettled(disk.bytes);
      var trailing := |disk.bytes| - reading.value.committed;
      OpenedIs(disk.bytes);
      if trailing > 0 {
        var ok := disk.Truncate(reading.value.committed);
        if ok {
          ok := disk.Sync();
        }
        if !ok {
          return None;
        }
      }
      assert disk.bytes == old(disk.bytes)[..reading.value.committed];
      var w := new SyncWriter(disk, store, reading.value.committed, reading.value.rows);
      return Some(w);
    }

    /** Creates a file that holds the header line. On failure the file is removed again. */
    static method Create(disk: Disk, header: Header) returns (writer: Option<SyncWriter>)
      requires disk.bytes == [] && Faithful() && |HeaderBytes(header)| <= MAX_RECORD_BYTES + 1
      modifies disk
      ensures writer.None? ==> disk.bytes == []
      ensures writer.Some? ==>
        && fresh(writer.value) && fresh(writer.value.store) && fresh(writer.value.store.records)
        && writer.value.Valid() && writer.value.disk == disk && !writer.value.closed
        && writer.value.Now() == World(HeaderBytes(header), Some(Mem(Initial(header), |HeaderBytes(header)|, 0, false)))
    {
      hide *;
      CreatedIsSane(header);
      InitialInv(header);
      SettledIs(Initial(header));
      var bytes := HeaderBytes(header);
      var ok, _ := WriteAll(disk, bytes, 0);
      if ok {
        ok := disk.Sync();
      }
      if !ok {
        disk.Remove();
        return None;
      }
      assert bytes[..|bytes|] == bytes;
      OverwrittenAtEnd([], bytes);
      assert [] + bytes == bytes;
      var store := new SessionStore(header);
      var w := new SyncWriter(disk, store, |bytes|, 0);
      return Some(w);
    }
  }

  lemma FailedReopens(b: seq<Byte>)
    ensures Next(World(b, None), FailedReopen(false)) == World(b, None)
    ensures Next(World(b, None), FailedReopen(true))
      == if Parse(b).Some? then World(b[..CommittedLength(b)], None) else World(b, None)
    ensures Next(World(b, None), Reopen) == Durability.Opened(b)
  {
    hide CommittedLength, Parse;
  }

  lemma ParsedIsSettled(b: seq<Byte>)
    requires Parse(b).Some?
    ensures Settled(Parse(b).value.replayed.session)
  {
    ParsedIsFiled(b);
    hide Parse, Settled, Filed;
  }

  lemma OpenedIs(disk: seq<Byte>)
    requires Parse(disk).Some?
    ensures var p := Parse(disk).value;
      Opened(disk) == World(disk[..CommittedLength(disk)],
        Some(Mem(p.replayed.session, CommittedLength(disk), p.rows, false)))
  {
    hide Parse, CommittedLength;
  }

  lemma PrepareIs(s: Session, draft: Draft)
    ensures Prepare(s, draft) ==
      if !WellFormedChanges(draft.changes) then Unfit
      else if draft.commitId in s.state.commits then
        if SameDraft(s.state.commits[draft.commitId], draft) then Known(s.state.commits[draft.commitId]) else Unfit
      else
        var commit := Commit(s.state.sequence + 1, draft.commitId, draft.committedAt, draft.changes);
        if Transition(s, commit).Rejected? || |RecordLine(commit)| > MAX_RECORD_BYTES
          || commit.sequence > MAX_COMMIT_COUNT
        then Unfit
        else New(commit)
  {
    hide Transition, RecordLine;
  }

  /** Whatever part of a record the disk takes, the writer stays sane. */
  lemma AppendStaysValid(w: World, m: Mem, draft: Draft)
    requires Faithful() && Sane(w) && w.writer == Some(m) && Settled(m.session) && m.offset <= |w.disk|
    ensures forall k: nat, ok: bool :: Sane(AppendTo(w.disk, m, draft, k, ok).0)
    ensures Prepare(m.session, draft).New? ==>
      && Prepare(m.session, draft).commit == NewCommit(m.session, draft)
      && Transition(m.session, NewCommit(m.session, draft)).Applied?
      && Settled(Transition(m.session, NewCommit(m.session, draft)).next)
  {
    hide AppendTo, Sane, Prepare, Transition, Settled, Parse;
    if Prepare(m.session, draft).New? {
      PreparedNew(m.session, draft);
      LineKeeps(m.session, NewCommit(m.session, draft));
    }
    forall k: nat, ok: bool ensures Sane(AppendTo(w.disk, m, draft, k, ok).0) {
      AppendKeeps(w, m, draft, k, ok);
    }
  }

  lemma SaneParts(w: World, m: Mem)
    requires Sane(w) && w.writer == Some(m)
    ensures m.offset <= |w.disk| && (!m.fault ==> m.offset == |w.disk|)
  {
    hide Parse, InStep, Torn;
  }

  lemma AppendIs(disk: seq<Byte>, m: Mem, draft: Draft)
    requires m.offset <= |disk|
    ensures Prepare(m.session, draft).Unfit? ==>
      forall k: nat, ok: bool :: AppendTo(disk, m, draft, k, ok) == (World(disk, Some(m)), Refused)
    ensures Prepare(m.session, draft).Known? ==>
      forall k: nat, ok: bool :: AppendTo(disk, m, draft, k, ok)
        == (World(disk, Some(m)), Recorded(Prepare(m.session, draft).commit))
    ensures Prepare(m.session, draft).New? ==>
      var commit := Prepare(m.session, draft).commit;
      var record := RecordBytes(commit);
      && (m.fault || m.offset + |record| > MAX_FILE_BYTES || m.rows >= MAX_COMMIT_COUNT ==>
            forall k: nat, ok: bool :: AppendTo(disk, m, draft, k, ok) == (World(disk, Some(m)), Refused))
      && (!(m.fault || m.offset + |record| > MAX_FILE_BYTES || m.rows >= MAX_COMMIT_COUNT) ==>
            && Transition(m.session, commit).Applied?
            && (forall k: nat, ok: bool :: k <= |record| && (k < |record| || !ok) ==>
                  AppendTo(disk, m, draft, k, ok)
                    == (World(Overwritten(disk, m.offset, record[..k]), Some(m.(fault := true))), WriteFailed))
            && AppendTo(disk, m, draft, |record|, true)
                 == (World(Overwritten(disk, m.offset, record[..|record|]),
                           Some(Mem(Transition(m.session, commit).next, m.offset + |record|, m.rows + 1, false))),
                     Recorded(commit)))
  {
    hide Prepare, Transition, RecordBytes, Overwritten;
    if Prepare(m.session, draft).New? {
      PreparedNew(m.session, draft);
      var record := RecordBytes(Prepare(m.session, draft).commit);
      assert record[..|record|] == record;
    }
  }
}
