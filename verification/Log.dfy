/** The session log as bytes: what a reader makes of a file, and what a torn write leaves.

    How a header or commit is laid out as JSON, and how the schema reads a line back, are
    uninterpreted; `Faithful` says that a record reads back as itself. */
module Log {
  import opened Options
  import opened CanonicalJson
  import opened JsonLines
  import opened SessionTypes
  import opened Reducer
  import opened Invariant
  import opened Evolution
  import opened Runs

  const MAX_RECORD_BYTES: nat := 16 * 1024 * 1024
  const MAX_FILE_BYTES: nat := 256 * 1024 * 1024
  const MAX_COMMIT_COUNT: nat := 100_000

  const COMMIT_JSON: Commit -> Source
  const HEADER_JSON: Header -> Source
  const READ_COMMIT: seq<Byte> -> Option<Commit>
  const READ_HEADER: seq<Byte> -> Option<Header>

  function RecordLine(c: Commit): seq<Byte> {
    Utf8(Stringify(COMMIT_JSON(c)))
  }

  function RecordBytes(c: Commit): seq<Byte> {
    RecordLine(c) + [LF]
  }

  function HeaderBytes(h: Header): seq<Byte> {
    Utf8(Stringify(HEADER_JSON(h))) + [LF]
  }

  /** Reading a written record back gives the record. */
  ghost predicate Faithful() {
    && (forall c :: WellFormed(c) ==> READ_COMMIT(RecordLine(c)) == Some(c))
    && (forall h :: READ_HEADER(Utf8(Stringify(HEADER_JSON(h)))) == Some(h))
  }

  // ----- lines -----

  function FirstLf(b: seq<Byte>): (k: nat)
    ensures k <= |b| && LF !in b[..k]
    ensures k < |b| ==> b[k] == LF
  {
    if b == [] || b[0] == LF then 0
    else
      var k := FirstLf(b[1..]);
      assert b[..k + 1] == [b[0]] + b[1..][..k];
      k + 1
  }

  /** How many bytes the last line feed leaves before a torn tail. */
  function CommittedLength(b: seq<Byte>): (n: nat)
    ensures n <= |b|
  {
    if b == [] then 0 else if b[|b| - 1] == LF then |b| else CommittedLength(b[..|b| - 1])
  }

  /** The lines that a line feed ends. */
  function Lines(b: seq<Byte>): seq<seq<Byte>>
    decreases |b|
  {
    var k := FirstLf(b);
    if k == |b| then [] else [b[..k]] + Lines(b[k + 1..])
  }

  ghost predicate Terminated(b: seq<Byte>) {
    b == [] || b[|b| - 1] == LF
  }

  lemma NotIn(b: seq<Byte>, n: nat)
    requires n <= |b| && LF !in b[..n]
    ensures forall i :: 0 <= i < n ==> b[i] != LF
  {
    forall i | 0 <= i < n ensures b[i] != LF {
      assert b[..n][i] == b[i];
    }
  }

  lemma FirstLfIs(b: seq<Byte>, k: nat)
    requires k < |b| && b[k] == LF && LF !in b[..k]
    ensures FirstLf(b) == k
  {
    NotIn(b, k);
    NotIn(b, FirstLf(b));
  }

  lemma FirstLineOff(b: seq<Byte>, k: nat)
    requires k < |b| && b[k] == LF && LF !in b[..k]
    ensures Lines(b) == [b[..k]] + Lines(b[k + 1..])
  {
    hide FirstLf;
    FirstLfIs(b, k);
  }

  lemma SplitOver<T>(a: seq<T>, b: seq<T>, k: nat)
    requires k < |a|
    ensures (a + b)[..k] == a[..k] && (a + b)[k] == a[k] && (a + b)[k + 1..] == a[k + 1..] + b
  {
  }

  lemma NoLines()
    ensures Lines([]) == []
  {
  }

  lemma Reassociate<T>(first: T, a: seq<T>, b: seq<T>)
    ensures [first] + (a + b) == ([first] + a) + b
  {
  }

  lemma {:induction false} LinesOfMore(a: seq<Byte>, b: seq<Byte>)
    requires Terminated(a)
    ensures Lines(a + b) == Lines(a) + Lines(b)
    decreases |a|
  {
    hide Lines, FirstLf;
    if a == [] {
      NoLines();
      assert a + b == b && [] + Lines(b) == Lines(b);
    } else {
      var k := FirstLf(a);
      NotIn(a, k);
      SplitOver(a, b, k);
      FirstLineOff(a, k);
      FirstLineOff(a + b, k);
      LinesOfMore(a[k + 1..], b);
      Reassociate(a[..k], Lines(a[k + 1..]), Lines(b));
    }
  }

  lemma OneLine(line: seq<Byte>)
    requires LF !in line
    ensures Lines(line + [LF]) == [line] && Lines(line) == []
  {
    assert (line + [LF])[..|line|] == line;
    FirstLfIs(line + [LF], |line|);
    assert (line + [LF])[|line| + 1..] == [];
    assert forall i :: 0 <= i < |line| ==> line[i] in line;
  }

  lemma {:induction false} TornTail(b: seq<Byte>, tail: seq<Byte>)
    requires Terminated(b) && LF !in tail
    ensures CommittedLength(b + tail) == |b|
    decreases |tail|
  {
    if tail == [] {
      assert b + tail == b;
    } else {
      var rest := tail[..|tail| - 1];
      assert (b + tail)[..|b + tail| - 1] == b + rest;
      assert tail[|tail| - 1] in tail;
      TornTail(b, rest);
    }
  }

  lemma {:induction false} CommittedIsTerminated(b: seq<Byte>)
    ensures Terminated(b[..CommittedLength(b)])
    ensures forall i :: CommittedLength(b) <= i < |b| ==> b[i] != LF
  {
    if b != [] && b[|b| - 1] != LF {
      var front := b[..|b| - 1];
      CommittedIsTerminated(front);
      assert b[..CommittedLength(b)] == front[..CommittedLength(front)];
      assert forall i :: CommittedLength(b) <= i < |front| ==> b[i] == front[i];
    } else {
      assert b[..|b|] == b;
    }
  }

  // ----- reading -----

  datatype Replayed = Replayed(session: Session, commits: seq<Commit>)
  datatype Parsed = Parsed(replayed: Replayed, rows: nat, committed: nat)

  predicate Readable(line: seq<Byte>) {
    line != [] && line[|line| - 1] != CR
  }

  function ReadLine(line: seq<Byte>): Option<Commit> {
    if Readable(line) then READ_COMMIT(line) else None
  }

  function ReplayLine(r: Replayed, line: seq<Byte>): Option<Replayed> {
    var commit :- ReadLine(line);
    match Transition(r.session, commit)
    case Rejected => None
    case Duplicate => Some(r)
    case Applied(t) => Some(Replayed(t, r.commits + [commit]))
  }

  function Replay(r: Replayed, lines: seq<seq<Byte>>): Option<Replayed>
    decreases |lines|
  {
    if lines == [] then Some(r)
    else
      var next :- ReplayLine(r, lines[0]);
      Replay(next, lines[1..])
  }

  predicate FitLines(lines: seq<seq<Byte>>) {
    forall i | 0 <= i < |lines| :: |lines[i]| <= MAX_RECORD_BYTES
  }

  function ReadFirst(lines: seq<seq<Byte>>): Option<Replayed> {
    if lines == [] || !Readable(lines[0]) then None
    else
      var header :- READ_HEADER(lines[0]);
      Some(Replayed(Initial(header), []))
  }

  /** What a reader makes of a file; `None` is a validation error. */
  function Parse(b: seq<Byte>): Option<Parsed> {
    var lines := Lines(b);
    if |b| > MAX_FILE_BYTES || |lines| == 0 || |lines| - 1 > MAX_COMMIT_COUNT || !FitLines(lines) then None
    else
      var first :- ReadFirst(lines);
      var replayed :- Replay(first, lines[1..]);
      Some(Parsed(replayed, |lines| - 1, CommittedLength(b)))
  }

  lemma {:induction false} ReplayOneMore(r: Replayed, lines: seq<seq<Byte>>, line: seq<Byte>)
    ensures Replay(r, lines + [line]) ==
      match Replay(r, lines) case None => None case Some(next) => ReplayLine(next, line)
    decreases |lines|
  {
    hide ReplayLine;
    if lines == [] {
      assert (lines + [line])[0] == line && (lines + [line])[1..] == [];
      var next := ReplayLine(r, line);
      assert next.Some? ==> Replay(next.value, []) == next;
    } else {
      assert (lines + [line])[0] == lines[0] && (lines + [line])[1..] == lines[1..] + [line];
      var next := ReplayLine(r, lines[0]);
      if next.Some? {
        ReplayOneMore(next.value, lines[1..], line);
      }
    }
  }

  /** Bytes after the last line feed do not change what is read. */
  lemma ParseTorn(b: seq<Byte>, tail: seq<Byte>)
    requires Terminated(b) && LF !in tail && |b + tail| <= MAX_FILE_BYTES
    ensures Parse(b + tail) == Parse(b)
  {
    hide ReadFirst, Replay, FitLines, Lines, CommittedLength, Terminated;
    LinesOfMore(b, tail);
    OneLine(tail);
    TornTail(b, tail);
    TornTail(b, []);
    assert b + [] == b;
    assert Lines(b) + [] == Lines(b);
  }

  lemma LinesExtended(lines: seq<seq<Byte>>, line: seq<Byte>)
    requires lines != []
    ensures (lines + [line])[0] == lines[0] && (lines + [line])[1..] == lines[1..] + [line]
    ensures FitLines(lines + [line]) <==> FitLines(lines) && |line| <= MAX_RECORD_BYTES
    ensures ReadFirst(lines + [line]) == ReadFirst(lines)
  {
    var more := lines + [line];
    assert forall i :: 0 <= i < |lines| ==> more[i] == lines[i];
    assert more[|lines|] == line;
  }

  /** One more record within the limits is replayed after all others. */
  lemma ParseOneMore(b: seq<Byte>, line: seq<Byte>)
    requires Terminated(b) && Parse(b).Some? && LF !in line && |line| <= MAX_RECORD_BYTES
    requires |b + (line + [LF])| <= MAX_FILE_BYTES && Parse(b).value.rows < MAX_COMMIT_COUNT
    ensures Parse(b + (line + [LF])) ==
      match ReplayLine(Parse(b).value.replayed, line)
      case None => None
      case Some(next) => Some(Parsed(next, Parse(b).value.rows + 1, |b + (line + [LF])|))
  {
    hide ReplayLine;
    LinesOfMore(b, line + [LF]);
    OneLine(line);
    var lines := Lines(b);
    LinesExtended(lines, line);
    ReplayOneMore(ReadFirst(lines).value, lines[1..], line);
    assert Terminated(b + (line + [LF]));
    TornTail(b + (line + [LF]), []);
    assert b + (line + [LF]) + [] == b + (line + [LF]);
  }

  lemma RecordLineIsOneLine(c: Commit)
    ensures LF !in RecordLine(c) && Readable(RecordLine(c))
  {
    RecordIsOneLine(COMMIT_JSON(c));
    assert RecordLine(c)[|RecordLine(c)| - 1] in RecordLine(c);
  }

  /** A record that may be appended to file `b`, whose contents are `p`. */
  predicate Fits(b: seq<Byte>, p: Parsed, c: Commit) {
    && |RecordLine(c)| <= MAX_RECORD_BYTES
    && |b| + |RecordBytes(c)| <= MAX_FILE_BYTES
    && p.rows < MAX_COMMIT_COUNT
  }

  function AddRecord(p: Parsed, t: Session, c: Commit): Parsed {
    Parsed(Replayed(t, p.replayed.commits + [c]), p.rows + 1, p.committed + |RecordBytes(c)|)
  }

  lemma TransitionNeedsWellFormed(s: Session, c: Commit)
    requires !Transition(s, c).Rejected?
    ensures WellFormed(c)
  {
  }

  lemma ParseRecord(b: seq<Byte>, p: Parsed, c: Commit, t: Session)
    requires Faithful() && Terminated(b) && Parse(b) == Some(p) && Fits(b, p, c)
    requires Transition(p.replayed.session, c) == Applied(t)
    ensures Parse(b + RecordBytes(c)) == Some(AddRecord(p, t, c))
  {
    hide Transition, Parse, RecordLine;
    RecordLineIsOneLine(c);
    TransitionNeedsWellFormed(p.replayed.session, c);
    ParseOneMore(b, RecordLine(c));
    ParsedLength(b);
  }

  lemma ParsedLength(b: seq<Byte>)
    requires Terminated(b) && Parse(b).Some?
    ensures Parse(b).value.committed == |b| && |b| <= MAX_FILE_BYTES && b != []
  {
    TornTail(b, []);
    assert b + [] == b;
  }

  /** A record whose commit the file already holds changes no state. */
  lemma ParseDuplicate(b: seq<Byte>, p: Parsed, c: Commit)
    requires Faithful() && Terminated(b) && Parse(b) == Some(p) && Fits(b, p, c)
    requires Transition(p.replayed.session, c) == Duplicate
    ensures Parse(b + RecordBytes(c)) == Some(Parsed(p.replayed, p.rows + 1, |b + RecordBytes(c)|))
  {
    hide Transition, Parse, RecordLine;
    RecordLineIsOneLine(c);
    TransitionNeedsWellFormed(p.replayed.session, c);
    ParseOneMore(b, RecordLine(c));
  }

  lemma PrefixHasNoLf(c: Commit, k: nat)
    requires k < |RecordBytes(c)|
    ensures LF !in RecordBytes(c)[..k]
  {
    RecordLineIsOneLine(c);
    assert RecordBytes(c)[..k] == RecordLine(c)[..k];
  }

  /** Crash atomicity: whatever prefix of a record reaches the file, a reader finds the state
      before the record, or the state after it exactly when the final line feed arrived. */
  lemma CrashAtomicity(b: seq<Byte>, p: Parsed, c: Commit, t: Session, k: nat)
    requires Faithful() && Terminated(b) && Parse(b) == Some(p) && Fits(b, p, c)
    requires Transition(p.replayed.session, c) == Applied(t) && k <= |RecordBytes(c)|
    ensures Parse(b + RecordBytes(c)[..k])
      == Some(if k == |RecordBytes(c)| then AddRecord(p, t, c) else p)
  {
    hide Transition, Parse, RecordBytes, AddRecord;
    if k == |RecordBytes(c)| {
      assert RecordBytes(c)[..k] == RecordBytes(c);
      ParseRecord(b, p, c, t);
    } else {
      PrefixHasNoLf(c, k);
      ParseTorn(b, RecordBytes(c)[..k]);
    }
  }
}
