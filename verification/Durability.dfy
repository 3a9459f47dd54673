/** Writers, failing disks, crashes and retries over a session file.

    A world is a file and at most one running writer. Events are appends, of which the disk may
    take any part, crashes, and reopenings, which may fail before or after a torn tail is cut off. */
module Durability {
  import opened Options
  import opened JsonLines
  import opened SessionTypes
  import opened Reducer
  import opened Invariant
  import opened Evolution
  import opened Indexing
  import opened Runs
  import opened Log

  // ----- what a replay has recorded -----

  /** The commits of a log are numbered from 1, filed under their ids, and nothing else is filed. */
  ghost predicate Filed(commits: seq<Commit>, s: State) {
    && s.sequence == |commits|
    && (forall i :: 0 <= i < |commits| ==>
          && commits[i].sequence == i + 1
          && commits[i].commitId in s.commits && s.commits[commits[i].commitId] == commits[i])
    && (forall id :: id in s.commits ==> s.commits[id] in commits && s.commits[id].commitId == id)
  }

  /** The session is the run of exactly these commits. */
  ghost predicate FromLog(r: Replayed) {
    && Settled(r.session) && Filed(r.commits, r.session.state)
    && exists header :: r.session == Run(Initial(header), r.commits)
  }

  lemma {:induction false} StepsKeepFile(s: Session, cs: seq<Change>, u: Session)
    requires Inv(s) && WellFormedAll(cs) && Steps(s, cs) == Some(u)
    ensures u.state.commits == s.state.commits && u.state.sequence == s.state.sequence
    decreases |cs|
  {
    hide *;
    if cs == [] {
      NoSteps(s);
    } else {
      var t := StepsUnfold(s, cs, u);
      TailWellFormed(cs);
      StepFrame(s, cs[0], t);
      FrameParts(s.state, cs[0], t.state);
      StepKeepsInv(s, cs[0], t);
      StepsKeepFile(t, cs[1..], u);
    }
  }

  lemma FileOneMore(commits: seq<Commit>, s: State, t: State, c: Commit)
    requires Filed(commits, s) && c.commitId !in s.commits && c.sequence == s.sequence + 1
    requires t.sequence == c.sequence && t.commits == s.commits[c.commitId := c]
    ensures Filed(commits + [c], t)
  {
    var more := commits + [c];
    forall id | id in t.commits ensures t.commits[id] in more && t.commits[id].commitId == id {
      if id == c.commitId {
        assert more[|commits|] == c;
      } else {
        assert s.commits[id] in commits;
      }
    }
  }

  lemma {:induction false} RunOneMore(s: Session, commits: seq<Commit>, c: Commit)
    ensures Run(s, commits + [c]) == After(Run(s, commits), c)
    decreases |commits|
  {
    hide After;
    if commits == [] {
      assert (commits + [c])[0] == c && (commits + [c])[1..] == [];
      assert Run(After(s, c), []) == After(s, c);
    } else {
      assert (commits + [c])[0] == commits[0] && (commits + [c])[1..] == commits[1..] + [c];
      RunOneMore(After(s, commits[0]), commits[1..], c);
    }
  }

  lemma RecordFiles(t: Session, c: Commit)
    ensures Reducer.Record(t, c).state.sequence == c.sequence
    ensures Reducer.Record(t, c).state.commits == t.state.commits[c.commitId := c]
  {
  }

  lemma AppliedIsFiled(r: Replayed, c: Commit, u: Session)
    requires FromLog(r) && Transition(r.session, c) == Applied(u)
    ensures FromLog(Replayed(u, r.commits + [c]))
  {
    var header :| r.session == Run(Initial(header), r.commits);
    RunOneMore(Initial(header), r.commits, c);
    AfterApplied(r.session, c, u);
    hide Transition, Filed, After, Run, Settled;
    SettledIs(r.session);
    TransitionKeeps(r.session, c, u);
    var t := AppliedCommit(r.session, c, u);
    StepsKeepFile(r.session, c.changes, t);
    RecordFiles(t, c);
    FileOneMore(r.commits, r.session.state, u.state, c);
  }

  lemma AfterApplied(s: Session, c: Commit, u: Session)
    requires Transition(s, c) == Applied(u)
    ensures After(s, c) == u
  {
    hide Transition;
  }

  lemma InitialFromLog(header: Header)
    ensures FromLog(Replayed(Initial(header), []))
  {
    InitialInv(header);
    assert Run(Initial(header), []) == Initial(header);
  }

  lemma {:induction false} ReplayKeeps(r: Replayed, lines: seq<seq<Byte>>)
    requires FromLog(r) && Replay(r, lines).Some?
    ensures FromLog(Replay(r, lines).value)
    decreases |lines|
  {
    hide FromLog, Transition;
    if lines != [] {
      var c := ReadLine(lines[0]).value;
      if Transition(r.session, c).Applied? {
        AppliedIsFiled(r, c, Transition(r.session, c).next);
      }
      ReplayKeeps(ReplayLine(r, lines[0]).value, lines[1..]);
    }
  }

  /** Everything a reader accepts is a run of its commits, numbered 1 to n and each filed once. */
  lemma ParsedIsFiled(b: seq<Byte>)
    requires Parse(b).Some?
    ensures FromLog(Parse(b).value.replayed)
  {
    hide FromLog, Replay;
    var lines := Lines(b);
    var header := READ_HEADER(lines[0]).value;
    InitialFromLog(header);
    ReplayKeeps(Replayed(Initial(header), []), lines[1..]);
  }

  /** No id is recorded twice. */
  lemma RecordedOnce(r: Replayed, i: nat, j: nat)
    requires FromLog(r) && i < |r.commits| && j < |r.commits| && r.commits[i].commitId == r.commits[j].commitId
    ensures i == j
  {
  }

  // ----- writers and worlds -----

  datatype Mem = Mem(session: Session, offset: nat, rows: nat, fault: bool)
  datatype World = World(disk: seq<Byte>, writer: Option<Mem>)

  datatype Prepared = Unfit | Known(commit: Commit) | New(commit: Commit)
  datatype Reply = Recorded(commit: Commit) | Refused | WriteFailed

  predicate SameDraft(commit: Commit, draft: Draft) {
    commit.commitId == draft.commitId && commit.committedAt == draft.committedAt && commit.changes == draft.changes
  }

  function NewCommit(s: Session, draft: Draft): Commit {
    Commit(s.state.sequence + 1, draft.commitId, draft.committedAt, draft.changes)
  }

  function Prepare(s: Session, draft: Draft): Prepared {
    if !WellFormedChanges(draft.changes) then Unfit
    else if draft.commitId in s.state.commits then
      if SameDraft(s.state.commits[draft.commitId], draft) then Known(s.state.commits[draft.commitId]) else Unfit
    else
      var commit := NewCommit(s, draft);
      if Transition(s, commit).Rejected? || |RecordLine(commit)| > MAX_RECORD_BYTES
        || commit.sequence > MAX_COMMIT_COUNT
      then Unfit
      else New(commit)
  }

  predicate HasRoom(m: Mem, commit: Commit) {
    !m.fault && m.offset + |RecordBytes(commit)| <= MAX_FILE_BYTES && m.rows < MAX_COMMIT_COUNT
  }

  function Overwritten(disk: seq<Byte>, at: nat, bytes: seq<Byte>): seq<Byte>
    requires at <= |disk|
  {
    disk[..at] + bytes + if at + |bytes| <= |disk| then disk[at + |bytes|..] else []
  }

  /** What follows the preparation of an append, of which the disk takes `reached` bytes; `synced`
      off is a failed write or sync. */
  function WriteOut(disk: seq<Byte>, m: Mem, prepared: Prepared, reached: nat, synced: bool): (World, Reply)
    requires m.offset <= |disk|
  {
    match prepared
    case Unfit => (World(disk, Some(m)), Refused)
    case Known(commit) => (World(disk, Some(m)), Recorded(commit))
    case New(commit) =>
      var record := RecordBytes(commit);
      if !HasRoom(m, commit) then (World(disk, Some(m)), Refused)
      else
        var taken := if reached <= |record| then record[..reached] else record;
        var written := Overwritten(disk, m.offset, taken);
        if reached < |record| || !synced then (World(written, Some(m.(fault := true))), WriteFailed)
        else
          match Transition(m.session, commit)
          case Applied(t) =>
            (World(written, Some(Mem(t, m.offset + |record|, m.rows + 1, false))), Recorded(commit))
          case _ =>
            (World(written, Some(Mem(m.session, m.offset + |record|, m.rows + 1, true))), WriteFailed)
  }

  function AppendTo(disk: seq<Byte>, m: Mem, draft: Draft, reached: nat, synced: bool): (World, Reply)
    requires m.offset <= |disk|
  {
    WriteOut(disk, m, Prepare(m.session, draft), reached, synced)
  }

  datatype Event =
    | Append(draft: Draft, reached: nat, synced: bool)
    | Crash
    | Reopen
    | FailedReopen(cut: bool)

  /** Opening a file cuts off a torn tail. */
  function Opened(disk: seq<Byte>): World {
    match Parse(disk)
    case None => World(disk, None)
    case Some(p) =>
      World(disk[..CommittedLength(disk)], Some(Mem(p.replayed.session, CommittedLength(disk), p.rows, false)))
  }

  /** The world after an event, and what an append answers. */
  function Happen(w: World, e: Event): (World, Reply) {
    match e
    case Append(draft, reached, synced) =>
      if w.writer.Some? && w.writer.value.offset <= |w.disk|
      then AppendTo(w.disk, w.writer.value, draft, reached, synced)
      else (w, Refused)
    case Crash => (w.(writer := None), Refused)
    case Reopen => (if w.writer.None? then Opened(w.disk) else w, Refused)
    case FailedReopen(cut) =>
      (if w.writer.None? && cut && Parse(w.disk).Some? then World(w.disk[..CommittedLength(w.disk)], None) else w,
       Refused)
  }

  function Next(w: World, e: Event): World {
    Happen(w, e).0
  }

  function Events(w: World, es: seq<Event>): World
    decreases |es|
  {
    if es == [] then w else Events(Next(w, es[0]), es[1..])
  }

  // ----- what every world keeps -----

  /** The file up to the writer's offset reads back as the writer's memory. */
  ghost predicate InStep(base: seq<Byte>, m: Mem) {
    && Terminated(base) && |base| == m.offset && Parse(base).Some?
    && Parse(base).value.replayed.session == m.session && Parse(base).value.rows == m.rows
  }

  /** What a failed append may have left after `base`. */
  ghost predicate TornRecord(base: seq<Byte>, tail: seq<Byte>, c: Commit, k: nat)
    requires Parse(base).Some?
  {
    && Fits(base, Parse(base).value, c) && k <= |RecordBytes(c)| && tail == RecordBytes(c)[..k]
    && Transition(Parse(base).value.replayed.session, c).Applied?
  }

  ghost predicate Torn(base: seq<Byte>, tail: seq<Byte>)
    requires Parse(base).Some?
  {
    tail == [] || exists c, k :: TornRecord(base, tail, c, k)
  }

  ghost predicate Sane(w: World) {
    && Parse(w.disk).Some?
    && (w.writer.Some? ==>
          var m := w.writer.value;
          && m.offset <= |w.disk|
          && InStep(w.disk[..m.offset], m)
          && (if m.fault then Torn(w.disk[..m.offset], w.disk[m.offset..]) else m.offset == |w.disk|))
  }

  /** What a reader would now find. */
  ghost function Durable(w: World): Replayed
    requires Parse(w.disk).Some?
  {
    Parse(w.disk).value.replayed
  }

  /** `q` holds the commits of `r`, in the same order, and perhaps more. */
  ghost predicate Extended(r: Replayed, q: Replayed) {
    Prefix(r.commits, q.commits)
  }

  lemma ExtendedOn(r: Replayed, q: Replayed, u: Replayed)
    requires Extended(r, q) && Extended(q, u)
    ensures Extended(r, u)
  {
    PrefixIsTransitive(r.commits, q.commits, u.commits);
  }

  lemma OneMoreExtends(p: Parsed, t: Session, c: Commit)
    ensures Extended(p.replayed, AddRecord(p, t, c).replayed)
    ensures c in AddRecord(p, t, c).replayed.commits
    ensures AddRecord(p, t, c).replayed.session == t && AddRecord(p, t, c).rows == p.rows + 1
  {
    assert (p.replayed.commits + [c])[|p.replayed.commits|] == c;
  }

  lemma {:induction false} CutTail(disk: seq<Byte>)
    requires Parse(disk).Some?
    ensures var base := disk[..CommittedLength(disk)];
      && Terminated(base) && Parse(base) == Parse(disk) && |base| <= MAX_FILE_BYTES
  {
    hide Replay, ReadFirst, FitLines;
    var n := CommittedLength(disk);
    CommittedIsTerminated(disk);
    var base, tail := disk[..n], disk[n..];
    assert forall i :: 0 <= i < |tail| ==> tail[i] == disk[n + i];
    assert base + tail == disk;
    ParseTorn(base, tail);
  }

  lemma ReopenedIsSane(disk: seq<Byte>)
    requires Parse(disk).Some?
    ensures Sane(Opened(disk)) && Durable(Opened(disk)) == Parse(disk).value.replayed
    ensures Opened(disk).writer.Some? && !Opened(disk).writer.value.fault
  {
    CutTail(disk);
    hide Parse, CommittedLength, Terminated;
    var base := disk[..CommittedLength(disk)];
    assert base[..|base|] == base;
    ParsedLength(base);
  }

  /** A torn record leaves the file readable, with or without that record. */
  lemma TornIsReadable(base: seq<Byte>, tail: seq<Byte>)
    requires Faithful() && Terminated(base) && Parse(base).Some? && Torn(base, tail)
    ensures Parse(base + tail).Some? && Extended(Parse(base).value.replayed, Parse(base + tail).value.replayed)
  {
    hide Parse, Fits, AddRecord, Transition, RecordBytes;
    if tail == [] {
      assert base + tail == base;
    } else {
      var c, k :| TornRecord(base, tail, c, k);
      var p := Parse(base).value;
      var t := Transition(p.replayed.session, c).next;
      CrashAtomicity(base, p, c, t, k);
      OneMoreExtends(p, t, c);
    }
  }

  /** What the writer remembers is in the file. */
  lemma MemoryIsDurable(w: World, m: Mem, id: Id)
    requires Faithful() && Sane(w) && w.writer == Some(m) && id in m.session.state.commits
    ensures m.session.state.commits[id] in Durable(w).commits && m.session.state.commits[id].commitId == id
  {
    hide Parse, Torn, Terminated;
    var base, tail := w.disk[..m.offset], w.disk[m.offset..];
    assert base + tail == w.disk;
    var p := Parse(base).value;
    ParsedIsFiled(base);
    FiledHas(p.replayed, id);
    if m.fault {
      TornIsReadable(base, tail);
      PrefixHas(p.replayed.commits, Durable(w).commits, m.session.state.commits[id]);
    } else {
      assert base == w.disk;
    }
  }

  lemma FiledHas(r: Replayed, id: Id)
    requires FromLog(r) && id in r.session.state.commits
    ensures r.session.state.commits[id] in r.commits && r.session.state.commits[id].commitId == id
  {
  }

  lemma PrefixHas<T>(s: seq<T>, t: seq<T>, x: T)
    requires Prefix(s, t) && x in s
    ensures x in t
  {
    var i :| 0 <= i < |s| && s[i] == x;
    assert t[i] == t[..|s|][i];
  }

  lemma PreparedNew(s: Session, draft: Draft)
    requires Prepare(s, draft).New?
    ensures var c := Prepare(s, draft).commit;
      && c == NewCommit(s, draft) && c.commitId == draft.commitId
      && draft.commitId !in s.state.commits
      && Transition(s, c).Applied? && |RecordLine(c)| <= MAX_RECORD_BYTES
  {
    hide Steps, PromptsClaimed, RecordLine;
  }

  lemma PreparedKnown(s: Session, draft: Draft)
    requires Prepare(s, draft).Known?
    ensures draft.commitId in s.state.commits && Prepare(s, draft).commit == s.state.commits[draft.commitId]
  {
    hide Transition, RecordLine;
  }

  /** What one append may have done, given that the writer was in step. */
  ghost predicate AppendDone(disk: seq<Byte>, m: Mem, draft: Draft, w: World, reply: Reply)
    requires Parse(disk).Some?
  {
    && Sane(w) && Extended(Parse(disk).value.replayed, Durable(w))
    && (reply.Recorded? ==> reply.commit in Durable(w).commits && reply.commit.commitId == draft.commitId)
  }

  lemma FailedAppend(disk: seq<Byte>, m: Mem, c: Commit, k: nat)
    requires Faithful() && InStep(disk, m) && !m.fault && Fits(disk, Parse(disk).value, c)
    requires Transition(m.session, c).Applied? && k <= |RecordBytes(c)|
    ensures var w := World(disk + RecordBytes(c)[..k], Some(m.(fault := true)));
      Sane(w) && Extended(Parse(disk).value.replayed, Durable(w))
  {
    hide Parse, Fits, AddRecord, Transition, RecordBytes, Terminated;
    var p := Parse(disk).value;
    var t := Transition(m.session, c).next;
    var tail := RecordBytes(c)[..k];
    CrashAtomicity(disk, p, c, t, k);
    OneMoreExtends(p, t, c);
    assert (disk + tail)[..m.offset] == disk && (disk + tail)[m.offset..] == tail;
    assert TornRecord(disk, tail, c, k);
  }

  lemma RecordIsTerminated(disk: seq<Byte>, c: Commit)
    ensures Terminated(disk + RecordBytes(c))
  {
  }

  lemma FullAppend(disk: seq<Byte>, m: Mem, c: Commit, t: Session)
    requires Faithful() && InStep(disk, m) && !m.fault && Fits(disk, Parse(disk).value, c)
    requires Transition(m.session, c) == Applied(t)
    ensures var w := World(disk + RecordBytes(c), Some(Mem(t, m.offset + |RecordBytes(c)|, m.rows + 1, false)));
      Sane(w) && Extended(Parse(disk).value.replayed, Durable(w)) && c in Durable(w).commits
  {
    hide Parse, Fits, AddRecord, Transition, RecordBytes, Terminated, Extended, Fits, Faithful, Torn;
    var p, record := Parse(disk).value, RecordBytes(c);
    RecordIsTerminated(disk, c);
    ParseRecord(disk, p, c, t);
    OneMoreExtends(p, t, c);
    assert |disk + record| == m.offset + |record|;
    assert (disk + record)[..m.offset + |record|] == disk + record;
  }

  lemma OverwrittenAtEnd(disk: seq<Byte>, bytes: seq<Byte>)
    ensures Overwritten(disk, |disk|, bytes) == disk + bytes
  {
    assert disk[..|disk|] == disk;
  }

  lemma NewAppendDone(disk: seq<Byte>, m: Mem, draft: Draft, reached: nat, synced: bool)
    requires Faithful() && InStep(disk, m) && !m.fault && Prepare(m.session, draft).New?
    requires HasRoom(m, Prepare(m.session, draft).commit)
    ensures var (w, reply) := AppendTo(disk, m, draft, reached, synced); AppendDone(disk, m, draft, w, reply)
  {
    hide Parse, Prepare, RecordBytes, Terminated, Transition, NewCommit;
    PreparedNew(m.session, draft);
    var c := Prepare(m.session, draft).commit;
    var t, record := Transition(m.session, c).next, RecordBytes(c);
    var k := if reached <= |record| then reached else |record|;
    assert record[..|record|] == record;
    OverwrittenAtEnd(disk, record[..k]);
    hide Overwritten, Sane;
    FailedAppend(disk, m, c, k);
    FullAppend(disk, m, c, t);
  }

  lemma AppendKeeps(w: World, m: Mem, draft: Draft, reached: nat, synced: bool)
    requires Faithful() && Sane(w) && w.writer == Some(m)
    ensures var (t, reply) := AppendTo(w.disk, m, draft, reached, synced); AppendDone(w.disk, m, draft, t, reply)
  {
    hide Parse, Prepare, RecordBytes, Terminated, Transition, NewCommit, Overwritten, Torn;
    var prepared := Prepare(m.session, draft);
    assert w.disk[..|w.disk|] == w.disk;
    if prepared.New? && HasRoom(m, prepared.commit) {
      NewAppendDone(w.disk, m, draft, reached, synced);
    } else if prepared.Known? {
      PreparedKnown(m.session, draft);
      MemoryIsDurable(w, m, draft.commitId);
    }
  }

  /** Every event keeps the world sane and never takes a durable commit back; an append that
      answers with a commit has made that commit durable. */
  lemma EventKeeps(w: World, e: Event)
    requires Faithful() && Sane(w)
    ensures Sane(Next(w, e)) && Extended(Durable(w), Durable(Next(w, e)))
    ensures e.Append? && Happen(w, e).1.Recorded? ==>
      Happen(w, e).1.commit in Durable(Next(w, e)).commits && Happen(w, e).1.commit.commitId == e.draft.commitId
  {
    hide Parse, AppendTo, Opened, InStep, Torn;
    match e
    case Append(draft, reached, synced) =>
      if w.writer.Some? {
        AppendKeeps(w, w.writer.value, draft, reached, synced);
      }
    case Crash =>
    case Reopen =>
      if w.writer.None? {
        ReopenedIsSane(w.disk);
      }
    case FailedReopen(_) => CutTail(w.disk);
  }

  /** Over any events: every file reads back, and durable commits stay. */
  lemma {:induction false} EventsKeep(w: World, es: seq<Event>)
    requires Faithful() && Sane(w)
    ensures Sane(Events(w, es)) && Extended(Durable(w), Durable(Events(w, es)))
    decreases |es|
  {
    hide InStep, Torn, Parse, Next, Terminated;
    if es != [] {
      EventKeeps(w, es[0]);
      EventsKeep(Next(w, es[0]), es[1..]);
      ExtendedOn(Durable(w), Durable(Next(w, es[0])), Durable(Events(w, es)));
    }
  }

  /** A new file, once its header line is written. */
  lemma HeaderIsRead(header: Header, line: seq<Byte>)
    requires Faithful() && line == Utf8(Stringify(HEADER_JSON(header)))
    ensures LF !in line && ReadFirst([line]) == Some(Replayed(Initial(header), []))
  {
    hide Stringify, Utf8, Initial;
    RecordIsOneLine(HEADER_JSON(header));
    assert line[|line| - 1] in line;
  }

  lemma OnlyOne<T>(x: T)
    ensures [x][1..] == [] && [x][0] == x
  {
  }

  lemma HeaderParses(header: Header)
    requires Faithful() && |HeaderBytes(header)| <= MAX_RECORD_BYTES + 1
    ensures Parse(HeaderBytes(header)) == Some(Parsed(Replayed(Initial(header), []), 0, |HeaderBytes(header)|))
    ensures HeaderBytes(header) != [] && Terminated(HeaderBytes(header))
  {
    hide Transition, Stringify, Utf8, Initial, Lines, Faithful, ReadFirst, ReplayLine;
    var line := Utf8(Stringify(HEADER_JSON(header)));
    HeaderIsRead(header, line);
    OneLine(line);
    OnlyOne(line);
    TornTail(line + [LF], []);
    assert line + [LF] + [] == line + [LF];
  }

  lemma CreatedIsSane(header: Header)
    requires Faithful() && |HeaderBytes(header)| <= MAX_RECORD_BYTES + 1
    ensures Sane(World(HeaderBytes(header), Some(Mem(Initial(header), |HeaderBytes(header)|, 0, false))))
    ensures Parse(HeaderBytes(header)) == Some(Parsed(Replayed(Initial(header), []), 0, |HeaderBytes(header)|))
  {
    hide Transition, Parse, HeaderBytes, Stringify, Utf8, Initial, Replay, Lines;
    var b := HeaderBytes(header);
    HeaderParses(header);
    assert b[..|b|] == b;
  }

  /** The commit is in the file, and if there is a writer it remembers it. */
  ghost predicate Remembers(w: World, c: Commit) {
    && Sane(w) && c in Durable(w).commits
    && (w.writer.Some? ==>
          var commits := w.writer.value.session.state.commits; c.commitId in commits && commits[c.commitId] == c)
  }

  lemma FileIsFiled(r: Replayed, c: Commit)
    requires FromLog(r) && c in r.commits
    ensures c.commitId in r.session.state.commits && r.session.state.commits[c.commitId] == c
  {
    hide Settled;
    var i :| 0 <= i < |r.commits| && r.commits[i] == c;
  }

  lemma WriterRemembers(w: World, m: Mem, c: Commit)
    requires Sane(w) && w.writer == Some(m) && !m.fault && c in Durable(w).commits
    ensures Remembers(w, c)
  {
    hide Sane, Parse, FromLog;
    SaneReads(w);
    MemoryIsTheFile(w, m);
    ParsedIsFiled(w.disk);
    FileIsFiled(Durable(w), c);
  }

  /** A writer with a fault remembers what it did before. */
  lemma FaultKeepsMemory(disk: seq<Byte>, m: Mem, draft: Draft, reached: nat, synced: bool)
    requires m.offset <= |disk|
    ensures var w := AppendTo(disk, m, draft, reached, synced).0;
      w.writer.Some? && (w.writer.value.fault ==> w.writer.value.session == m.session)
  {
    hide Prepare, HasRoom, Transition, RecordBytes, Overwritten;
  }

  lemma EventRemembers(w: World, e: Event, c: Commit)
    requires Faithful() && Remembers(w, c)
    ensures Remembers(Next(w, e), c)
  {
    hide Sane, Parse, AppendTo, Opened;
    var t := Next(w, e);
    EventKeeps(w, e);
    SaneReads(w);
    SaneReads(t);
    PrefixHas(Durable(w).commits, Durable(t).commits, c);
    if t.writer.Some? && !t.writer.value.fault {
      WriterRemembers(t, t.writer.value, c);
    } else {
      match e
      case Append(draft, reached, synced) =>
        if w.writer.Some? && w.writer.value.offset <= |w.disk| {
          FaultKeepsMemory(w.disk, w.writer.value, draft, reached, synced);
        }
      case Crash =>
      case Reopen =>
        if w.writer.None? {
          ReopenedIsSane(w.disk);
        }
      case FailedReopen(_) =>
    }
  }

  lemma {:induction false} EventsRemember(w: World, es: seq<Event>, c: Commit)
    requires Faithful() && Remembers(w, c)
    ensures Remembers(Events(w, es), c)
    decreases |es|
  {
    hide Remembers, Next;
    if es != [] {
      EventRemembers(w, es[0], c);
      EventsRemember(Next(w, es[0]), es[1..], c);
    }
  }

  /** An answer is the commit of the draft, and is remembered. */
  lemma AnsweredIsDrafted(w: World, draft: Draft, reached: nat, synced: bool)
    requires Sane(w) && Happen(w, Append(draft, reached, synced)).1.Recorded?
    ensures var c := Happen(w, Append(draft, reached, synced)).1.commit;
      var t := Next(w, Append(draft, reached, synced));
      && WellFormedChanges(draft.changes) && SameDraft(c, draft)
      && t.writer.Some? && c.commitId in t.writer.value.session.state.commits
      && t.writer.value.session.state.commits[c.commitId] == c
  {
    hide Sane, RecordLine, HasRoom, Overwritten, Steps, PromptsClaimed, RecordLine;
  }

  lemma RetryIsKnown(w: World, c: Commit, first: Draft, second: Draft, reached: nat, synced: bool)
    requires Remembers(w, c) && w.writer.Some? && WellFormedChanges(first.changes) && SameDraft(c, first)
    requires second.commitId == first.commitId
    ensures Happen(w, Append(second, reached, synced)) == (w, if second == first then Recorded(c) else Refused)
  {
    hide Parse, InStep, Torn, Transition, RecordLine, Overwritten, WellFormedChanges;
  }

  /** A draft that was answered with a commit is answered with the same commit ever after, and a
      different draft under its id is refused, whatever faults, crashes, reopenings and other appends
      lie between, and also by a writer with a fault. Neither changes anything. */
  lemma RetriesAgree(
    w: World, first: Draft, reached: nat, synced: bool,
    es: seq<Event>, second: Draft, reachedLater: nat, syncedLater: bool)
    requires Faithful() && Sane(w) && second.commitId == first.commitId
    requires Happen(w, Append(first, reached, synced)).1.Recorded?
    requires Events(Next(w, Append(first, reached, synced)), es).writer.Some?
    ensures var later := Events(Next(w, Append(first, reached, synced)), es);
      Happen(later, Append(second, reachedLater, syncedLater))
        == (later, if second == first then Happen(w, Append(first, reached, synced)).1 else Refused)
  {
    hide Happen, Events, Sane, Parse, Next;
    var e := Append(first, reached, synced);
    var c := Happen(w, e).1.commit;
    EventKeeps(w, e);
    AnsweredIsDrafted(w, first, reached, synced);
    EventsRemember(Next(w, e), es, c);
    RetryIsKnown(Events(Next(w, e), es), c, first, second, reachedLater, syncedLater);
  }

  lemma NextIs(w: World, e: Event)
    ensures Next(w, e) == Happen(w, e).0
  {
    hide Happen;
  }

  lemma SaneReads(w: World)
    requires Sane(w)
    ensures Parse(w.disk).Some?
  {
    hide Parse;
  }

  /** Exactly once: a file never holds two commits with one id, and its commits are numbered
      from 1 without gaps. */
  lemma OneCommitPerId(b: seq<Byte>, c: Commit, d: Commit)
    requires Parse(b).Some? && c in Parse(b).value.replayed.commits && d in Parse(b).value.replayed.commits
    requires c.commitId == d.commitId
    ensures c == d
    ensures forall i :: 0 <= i < |Parse(b).value.replayed.commits| ==>
      Parse(b).value.replayed.commits[i].sequence == i + 1
  {
    ParsedIsFiled(b);
    hide Parse, Settled, Run;
  }

  /** A writer without a fault holds in memory what its file reads back as; the file is within
      the limits of every reader. */
  lemma MemoryIsTheFile(w: World, m: Mem)
    requires Sane(w) && w.writer == Some(m) && !m.fault
    ensures Parse(w.disk).Some? && Durable(w).session == m.session && Parse(w.disk).value.rows == m.rows
    ensures m.offset == |w.disk| && |w.disk| <= MAX_FILE_BYTES && m.rows <= MAX_COMMIT_COUNT
  {
    hide Torn, Replay, FitLines, ReadFirst, Lines, CommittedLength;
    assert w.disk[..|w.disk|] == w.disk;
  }

  /** After a fault, a crash and a reopening, the writer continues from the state before the
      failed append or from the state after it. */
  lemma CrashThenReopen(w: World, m: Mem, draft: Draft, reached: nat, synced: bool)
    requires Faithful() && Sane(w) && w.writer == Some(m) && !m.fault
    requires Prepare(m.session, draft).New? && HasRoom(m, Prepare(m.session, draft).commit)
    ensures var c := Prepare(m.session, draft).commit;
      var end := Events(w, [Append(draft, reached, synced), Crash, Reopen]);
      && Sane(end) && end.writer.Some? && !end.writer.value.fault
      && Applied(end.writer.value.session) ==
           if reached < |RecordBytes(c)| then Applied(m.session) else Transition(m.session, c)
  {
    hide Transition, Parse, Terminated, Prepare, RecordBytes, Torn, Opened, NewCommit;
    var e := Append(draft, reached, synced);
    var c := Prepare(m.session, draft).commit;
    PreparedNew(m.session, draft);
    var record, t := RecordBytes(c), Transition(m.session, c).next;
    var k := if reached <= |record| then reached else |record|;
    assert w.disk[..|w.disk|] == w.disk && record[..|record|] == record;
    CrashAtomicity(w.disk, Parse(w.disk).value, c, t, k);
    OneMoreExtends(Parse(w.disk).value, t, c);
    OverwrittenAtEnd(w.disk, record[..k]);
    var torn := Next(w, e);
    assert torn.disk == w.disk + record[..k];
    ThreeEvents(w, e, Crash, Reopen);
    ReopenedIsSane(torn.disk);
    ReopenedMemory(torn.disk);
  }

  lemma ThreeEvents(w: World, a: Event, b: Event, c: Event)
    ensures Events(w, [a, b, c]) == Next(Next(Next(w, a), b), c)
  {
    hide Next;
    assert [a, b, c][1..] == [b, c] && [b, c][1..] == [c] && [c][1..] == [];
    var u := Next(w, a);
    var v := Next(u, b);
    assert Events(Next(v, c), []) == Next(v, c);
    assert Events(v, [c]) == Next(v, c);
    assert Events(u, [b, c]) == Events(v, [c]);
  }

  lemma ReopenedMemory(disk: seq<Byte>)
    requires Parse(disk).Some?
    ensures Opened(disk).writer.Some? && Opened(disk).writer.value.session == Parse(disk).value.replayed.session
  {
    hide Parse, CommittedLength;
  }
}
