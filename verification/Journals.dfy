/** The memory of a session that is updated in place, and the journal that can undo every update.

    Operations, queue entries, tool effects and the branch are objects that keep their identity
    while their contents change; the maps and indexes of the session refer to them. */
module Journals {
  import opened Options
  import opened SessionTypes
  import opened Reducer

  datatype Content =
    | RunContent(run: Operation)
    | EntryContent(entry: QueueEntry)
    | EffectContent(effect: Effect)
    | BranchContent(branch: Branch)

  class Record {
    var content: Content

    constructor (content: Content)
      ensures this.content == content
    {
      this.content := content;
    }
  }

  /** The indexes that file several values under one key, apart from the owners of an id. */
  datatype Link = EffectsOfResult | EntriesOfRun | EffectsOfRun | CallsOfRun

  function Links(ix: Indexes, link: Link): Sets<string> {
    match link
    case EffectsOfResult => ix.effectsByResult
    case EntriesOfRun => ix.entriesByOperation
    case EffectsOfRun => ix.effectsByOperation
    case CallsOfRun => ix.callsByOperation
  }

  function WithLinks(ix: Indexes, link: Link, sets: Sets<string>): Indexes {
    match link
    case EffectsOfResult => ix.(effectsByResult := sets)
    case EntriesOfRun => ix.(entriesByOperation := sets)
    case EffectsOfRun => ix.(effectsByOperation := sets)
    case CallsOfRun => ix.(callsByOperation := sets)
  }

  datatype Memory = Memory(
    sequence: nat, name: Option<string>, labels: map<Id, string>, nodes: map<Id, Node>,
    checkpoints: map<Id, Checkpoint>, commits: map<Id, Commit>,
    runs: map<Id, Record>, queue: map<Id, Record>, effects: map<Id, Record>,
    ix: Indexes, contents: map<Record, Content>)

  // ----- the session that a memory shows -----

  /** Every key has an object of its own. */
  ghost predicate Held(table: map<Id, Record>, contents: map<Record, Content>) {
    && (forall k :: k in table ==> table[k] in contents)
    && (forall k, l :: k in table && l in table && k != l ==> table[k] != table[l])
  }

  ghost function Shown(table: map<Id, Record>, contents: map<Record, Content>): map<Id, Content>
    requires Held(table, contents)
  {
    map k | k in table :: contents[table[k]]
  }

  ghost predicate RunsHeld(table: map<Id, Record>, contents: map<Record, Content>) {
    Held(table, contents) && forall k :: k in table ==> contents[table[k]].RunContent?
  }

  ghost predicate EntriesHeld(table: map<Id, Record>, contents: map<Record, Content>) {
    Held(table, contents) && forall k :: k in table ==> contents[table[k]].EntryContent?
  }

  ghost predicate EffectsHeld(table: map<Id, Record>, contents: map<Record, Content>) {
    Held(table, contents) && forall k :: k in table ==> contents[table[k]].EffectContent?
  }

  ghost predicate Sound(branch: Record, m: Memory) {
    && RunsHeld(m.runs, m.contents) && EntriesHeld(m.queue, m.contents) && EffectsHeld(m.effects, m.contents)
    && branch in m.contents && m.contents[branch].BranchContent?
  }

  ghost function RunsShown(table: map<Id, Record>, contents: map<Record, Content>): map<Id, Operation>
    requires RunsHeld(table, contents)
  {
    map k | k in table :: contents[table[k]].run
  }

  ghost function EntriesShown(table: map<Id, Record>, contents: map<Record, Content>): map<Id, QueueEntry>
    requires EntriesHeld(table, contents)
  {
    map k | k in table :: contents[table[k]].entry
  }

  ghost function EffectsShown(table: map<Id, Record>, contents: map<Record, Content>): map<Id, Effect>
    requires EffectsHeld(table, contents)
  {
    map k | k in table :: contents[table[k]].effect
  }

  ghost function View(header: Header, branch: Record, m: Memory): Session
    requires Sound(branch, m)
  {
    Session(
      State(header, m.sequence, m.name, m.labels, m.contents[branch].branch, m.nodes,
            RunsShown(m.runs, m.contents), m.checkpoints, EntriesShown(m.queue, m.contents),
            EffectsShown(m.effects, m.contents), m.commits),
      m.ix)
  }

  // ----- in-place writes, as the session shows them -----

  function Write(m: Memory, r: Record, c: Content): Memory {
    m.(contents := m.contents[r := c])
  }

  lemma RunsAside(table: map<Id, Record>, contents: map<Record, Content>, r: Record, c: Content)
    requires RunsHeld(table, contents) && (r in contents ==> !contents[r].RunContent?)
    ensures RunsHeld(table, contents[r := c]) && RunsShown(table, contents[r := c]) == RunsShown(table, contents)
  {
  }

  lemma RunSet(table: map<Id, Record>, contents: map<Record, Content>, k: Id, p: Operation)
    requires RunsHeld(table, contents) && k in table
    ensures RunsHeld(table, contents[table[k] := RunContent(p)])
    ensures RunsShown(table, contents[table[k] := RunContent(p)]) == RunsShown(table, contents)[k := p]
    ensures table[k] in contents && contents[table[k]].RunContent?
  {
  }

  lemma RunPut(table: map<Id, Record>, contents: map<Record, Content>, k: Id, r: Record, p: Operation)
    requires RunsHeld(table, contents) && r !in contents
    ensures RunsHeld(table[k := r], contents[r := RunContent(p)])
    ensures RunsShown(table[k := r], contents[r := RunContent(p)]) == RunsShown(table, contents)[k := p]
  {
    assert forall x :: x in table ==> table[x] != r;
    assert Held(table[k := r], contents[r := RunContent(p)]);
  }

  lemma EntriesAside(table: map<Id, Record>, contents: map<Record, Content>, r: Record, c: Content)
    requires EntriesHeld(table, contents) && (r in contents ==> !contents[r].EntryContent?)
    ensures EntriesHeld(table, contents[r := c])
    ensures EntriesShown(table, contents[r := c]) == EntriesShown(table, contents)
  {
  }

  lemma EntrySet(table: map<Id, Record>, contents: map<Record, Content>, k: Id, q: QueueEntry)
    requires EntriesHeld(table, contents) && k in table
    ensures EntriesHeld(table, contents[table[k] := EntryContent(q)])
    ensures EntriesShown(table, contents[table[k] := EntryContent(q)]) == EntriesShown(table, contents)[k := q]
    ensures table[k] in contents && contents[table[k]].EntryContent?
  {
  }

  lemma EntryPut(table: map<Id, Record>, contents: map<Record, Content>, k: Id, r: Record, q: QueueEntry)
    requires EntriesHeld(table, contents) && r !in contents
    ensures EntriesHeld(table[k := r], contents[r := EntryContent(q)])
    ensures EntriesShown(table[k := r], contents[r := EntryContent(q)]) == EntriesShown(table, contents)[k := q]
  {
    assert forall x :: x in table ==> table[x] != r;
    assert Held(table[k := r], contents[r := EntryContent(q)]);
  }

  lemma EffectsAside(table: map<Id, Record>, contents: map<Record, Content>, r: Record, c: Content)
    requires EffectsHeld(table, contents) && (r in contents ==> !contents[r].EffectContent?)
    ensures EffectsHeld(table, contents[r := c])
    ensures EffectsShown(table, contents[r := c]) == EffectsShown(table, contents)
  {
  }

  lemma EffectSet(table: map<Id, Record>, contents: map<Record, Content>, k: Id, e: Effect)
    requires EffectsHeld(table, contents) && k in table
    ensures EffectsHeld(table, contents[table[k] := EffectContent(e)])
    ensures EffectsShown(table, contents[table[k] := EffectContent(e)]) == EffectsShown(table, contents)[k := e]
    ensures table[k] in contents && contents[table[k]].EffectContent?
  {
  }

  lemma EffectPut(table: map<Id, Record>, contents: map<Record, Content>, k: Id, r: Record, e: Effect)
    requires EffectsHeld(table, contents) && r !in contents
    ensures EffectsHeld(table[k := r], contents[r := EffectContent(e)])
    ensures EffectsShown(table[k := r], contents[r := EffectContent(e)]) == EffectsShown(table, contents)[k := e]
  {
    assert forall x :: x in table ==> table[x] != r;
    assert Held(table[k := r], contents[r := EffectContent(e)]);
  }

  lemma RunWritten(header: Header, branch: Record, m: Memory, k: Id, p: Operation)
    requires Sound(branch, m) && k in m.runs
    ensures var t := Write(m, m.runs[k], RunContent(p));
      && Sound(branch, t)
      && View(header, branch, t) == View(header, branch, m).(state := View(header, branch, m).state.(
           operations := View(header, branch, m).state.operations[k := p]))
  {
    hide RunsHeld, EntriesHeld, EffectsHeld, RunsShown, EntriesShown, EffectsShown;
    var r := m.runs[k];
    RunSet(m.runs, m.contents, k, p);
    EntriesAside(m.queue, m.contents, r, RunContent(p));
    EffectsAside(m.effects, m.contents, r, RunContent(p));
  }

  lemma EntryWritten(header: Header, branch: Record, m: Memory, k: Id, q: QueueEntry)
    requires Sound(branch, m) && k in m.queue
    ensures var t := Write(m, m.queue[k], EntryContent(q));
      && Sound(branch, t)
      && View(header, branch, t) == View(header, branch, m).(state := View(header, branch, m).state.(
           queue := View(header, branch, m).state.queue[k := q]))
  {
    hide RunsHeld, EntriesHeld, EffectsHeld, RunsShown, EntriesShown, EffectsShown;
    var r := m.queue[k];
    EntrySet(m.queue, m.contents, k, q);
    RunsAside(m.runs, m.contents, r, EntryContent(q));
    EffectsAside(m.effects, m.contents, r, EntryContent(q));
  }

  lemma EffectWritten(header: Header, branch: Record, m: Memory, k: Id, e: Effect)
    requires Sound(branch, m) && k in m.effects
    ensures var t := Write(m, m.effects[k], EffectContent(e));
      && Sound(branch, t)
      && View(header, branch, t) == View(header, branch, m).(state := View(header, branch, m).state.(
           effects := View(header, branch, m).state.effects[k := e]))
  {
    hide RunsHeld, EntriesHeld, EffectsHeld, RunsShown, EntriesShown, EffectsShown;
    var r := m.effects[k];
    EffectSet(m.effects, m.contents, k, e);
    RunsAside(m.runs, m.contents, r, EffectContent(e));
    EntriesAside(m.queue, m.contents, r, EffectContent(e));
  }

  lemma RunPlaced(header: Header, branch: Record, m: Memory, k: Id, r: Record, p: Operation)
    requires Sound(branch, m) && r !in m.contents
    ensures var t := Write(m, r, RunContent(p)).(runs := m.runs[k := r]);
      && Sound(branch, t)
      && View(header, branch, t) == View(header, branch, m).(state := View(header, branch, m).state.(
           operations := View(header, branch, m).state.operations[k := p]))
  {
    hide RunsHeld, EntriesHeld, EffectsHeld, RunsShown, EntriesShown, EffectsShown;
    RunPut(m.runs, m.contents, k, r, p);
    EntriesAside(m.queue, m.contents, r, RunContent(p));
    EffectsAside(m.effects, m.contents, r, RunContent(p));
  }

  lemma EntryPlaced(header: Header, branch: Record, m: Memory, k: Id, r: Record, q: QueueEntry)
    requires Sound(branch, m) && r !in m.contents
    ensures var t := Write(m, r, EntryContent(q)).(queue := m.queue[k := r]);
      && Sound(branch, t)
      && View(header, branch, t) == View(header, branch, m).(state := View(header, branch, m).state.(
           queue := View(header, branch, m).state.queue[k := q]))
  {
    hide RunsHeld, EntriesHeld, EffectsHeld, RunsShown, EntriesShown, EffectsShown;
    EntryPut(m.queue, m.contents, k, r, q);
    RunsAside(m.runs, m.contents, r, EntryContent(q));
    EffectsAside(m.effects, m.contents, r, EntryContent(q));
  }

  lemma EffectPlaced(header: Header, branch: Record, m: Memory, k: Id, r: Record, e: Effect)
    requires Sound(branch, m) && r !in m.contents
    ensures var t := Write(m, r, EffectContent(e)).(effects := m.effects[k := r]);
      && Sound(branch, t)
      && View(header, branch, t) == View(header, branch, m).(state := View(header, branch, m).state.(
           effects := View(header, branch, m).state.effects[k := e]))
  {
    hide RunsHeld, EntriesHeld, EffectsHeld, RunsShown, EntriesShown, EffectsShown;
    EffectPut(m.effects, m.contents, k, r, e);
    RunsAside(m.runs, m.contents, r, EffectContent(e));
    EntriesAside(m.queue, m.contents, r, EffectContent(e));
  }

  lemma BranchWritten(header: Header, branch: Record, m: Memory, b: Branch)
    requires Sound(branch, m)
    ensures var t := Write(m, branch, BranchContent(b));
      && Sound(branch, t)
      && View(header, branch, t)
        == View(header, branch, m).(state := View(header, branch, m).state.(branch := b))
  {
    hide RunsHeld, EntriesHeld, EffectsHeld, RunsShown, EntriesShown, EffectsShown;
    RunsAside(m.runs, m.contents, branch, BranchContent(b));
    EntriesAside(m.queue, m.contents, branch, BranchContent(b));
    EffectsAside(m.effects, m.contents, branch, BranchContent(b));
  }

  // ----- undo records -----

  datatype Undo =
    | Restore(record: Record, before: Content)
    | SequenceBack(sequence: nat)
    | NameBack(name: Option<string>)
    | LabelBack(key: Id, title: Option<string>)
    | NodeBack(key: Id, node: Option<Node>)
    | CheckpointBack(key: Id, checkpoint: Option<Checkpoint>)
    | CommitBack(key: Id, commit: Option<Commit>)
    | RunBack(key: Id, held: Option<Record>)
    | EntryBack(key: Id, held: Option<Record>)
    | EffectBack(key: Id, held: Option<Record>)
    | TargetBack(key: Id, id: Option<Id>)
    | PromptBack(key: Id, id: Option<Id>)
    | OwnersBack(key: Id, owners: Option<set<Owner>>)
    | OwnerOut(key: Id, owner: Owner)
    | LinksBack(link: Link, key: Id, ids: Option<set<string>>)
    | LinkOut(link: Link, key: Id, value: string)

  function PutBack<K, V>(m: map<K, V>, k: K, before: Option<V>): map<K, V> {
    if before.Some? then m[k := before.value] else m - {k}
  }

  function TakeOut<T>(m: Sets<T>, k: string, v: T): Sets<T> {
    m[k := SetAt(m, k) - {v}]
  }

  predicate TouchesIndexes(u: Undo) {
    u.TargetBack? || u.PromptBack? || u.OwnersBack? || u.OwnerOut? || u.LinksBack? || u.LinkOut?
  }

  function IndexesUndone(u: Undo, ix: Indexes): Indexes
    requires TouchesIndexes(u)
  {
    match u
    case TargetBack(k, id) => ix.(entryByTarget := PutBack(ix.entryByTarget, k, id))
    case PromptBack(k, id) => ix.(operationByPrompt := PutBack(ix.operationByPrompt, k, id))
    case OwnersBack(k, owners) => ix.(owners := PutBack(ix.owners, k, owners))
    case OwnerOut(k, owner) => ix.(owners := TakeOut(ix.owners, k, owner))
    case LinksBack(link, k, ids) => WithLinks(ix, link, PutBack(Links(ix, link), k, ids))
    case LinkOut(link, k, v) => WithLinks(ix, link, TakeOut(Links(ix, link), k, v))
  }

  /** What running one undo step does. */
  function Undone(u: Undo, m: Memory): Memory {
    match u
    case Restore(r, before) => Write(m, r, before)
    case SequenceBack(n) => m.(sequence := n)
    case NameBack(name) => m.(name := name)
    case LabelBack(k, title) => m.(labels := PutBack(m.labels, k, title))
    case NodeBack(k, node) => m.(nodes := PutBack(m.nodes, k, node))
    case CheckpointBack(k, checkpoint) => m.(checkpoints := PutBack(m.checkpoints, k, checkpoint))
    case CommitBack(k, commit) => m.(commits := PutBack(m.commits, k, commit))
    case RunBack(k, held) => m.(runs := PutBack(m.runs, k, held))
    case EntryBack(k, held) => m.(queue := PutBack(m.queue, k, held))
    case EffectBack(k, held) => m.(effects := PutBack(m.effects, k, held))
    case _ => m.(ix := IndexesUndone(u, m.ix))
  }

  /** Running all undo steps, the last one first. */
  function RevertAll(undo: seq<Undo>, m: Memory): Memory {
    if undo == [] then m else RevertAll(undo[..|undo| - 1], Undone(undo[|undo| - 1], m))
  }

  /** `m` is `base` again; objects created since may still exist, but nothing refers to them. */
  ghost predicate Restores(m: Memory, base: Memory) {
    && m.(contents := base.contents) == base
    && forall r :: r in base.contents ==> r in m.contents && m.contents[r] == base.contents[r]
  }

  ghost predicate Saved(undo: seq<Undo>, r: Record) {
    exists i :: 0 <= i < |undo| && undo[i].Restore? && undo[i].record == r
  }

  ghost predicate KnownRecords(undo: seq<Undo>, contents: map<Record, Content>) {
    forall i :: 0 <= i < |undo| && undo[i].Restore? ==> undo[i].record in contents
  }

  /** The undo steps lead from memory `m` back to `base`, and every edited object is saved. */
  ghost predicate Protects(undo: seq<Undo>, edited: set<Record>, m: Memory, base: Memory) {
    && Restores(RevertAll(undo, m), base)
    && KnownRecords(undo, m.contents)
    && (forall r :: r in edited ==> r in m.contents && Saved(undo, r))
  }

  lemma RevertUnfolds(undo: seq<Undo>, u: Undo, m: Memory)
    ensures RevertAll(undo + [u], m) == RevertAll(undo, Undone(u, m))
  {
    assert (undo + [u])[..|undo|] == undo;
  }

  lemma NothingToRevert(m: Memory)
    ensures Protects([], {}, m, m)
  {
  }

  lemma SavedOn(undo: seq<Undo>, u: Undo, r: Record)
    requires Saved(undo, r)
    ensures Saved(undo + [u], r)
  {
    var i :| 0 <= i < |undo| && undo[i].Restore? && undo[i].record == r;
    assert (undo + [u])[i] == undo[i];
  }

  /** A logged update that its undo step takes back. */
  lemma Logged(undo: seq<Undo>, edited: set<Record>, m: Memory, t: Memory, base: Memory, u: Undo)
    requires Protects(undo, edited, m, base) && Undone(u, t) == m && !u.Restore?
    requires t.contents == m.contents
    ensures Protects(undo + [u], edited, t, base)
  {
    RevertUnfolds(undo, u, t);
    hide RevertAll, Undone;
    forall r | r in edited ensures Saved(undo + [u], r) {
      SavedOn(undo, u, r);
    }
  }

  /** Assigning to an object that some undo step restores does not change where undoing leads. */
  lemma {:induction false} SavedShields(undo: seq<Undo>, m: Memory, r: Record, c: Content)
    requires Saved(undo, r)
    ensures RevertAll(undo, Write(m, r, c)) == RevertAll(undo, m)
  {
    var front, last := undo[..|undo| - 1], undo[|undo| - 1];
    hide Undone, Write;
    if last.Restore? && last.record == r {
      UndoneOver(last, m, r, c);
    } else {
      var i :| 0 <= i < |undo| && undo[i].Restore? && undo[i].record == r;
      assert front[i] == undo[i];
      UndoneAside(last, m, r, c);
      SavedShields(front, Undone(last, m), r, c);
    }
  }

  lemma UndoneOver(u: Undo, m: Memory, r: Record, c: Content)
    requires u.Restore? && u.record == r
    ensures Undone(u, Write(m, r, c)) == Undone(u, m)
  {
    assert m.contents[r := c][r := u.before] == m.contents[r := u.before];
  }

  /** An undo step does not touch the contents of other objects. */
  lemma UndoneAside(u: Undo, m: Memory, r: Record, c: Content)
    requires u.Restore? ==> u.record != r
    ensures Undone(u, Write(m, r, c)) == Write(Undone(u, m), r, c)
  {
    if u.Restore? {
      assert m.contents[r := c][u.record := u.before] == m.contents[u.record := u.before][r := c];
    }
  }

  lemma {:induction false} NewObjectStaysOut(undo: seq<Undo>, m: Memory, r: Record, c: Content)
    requires forall i :: 0 <= i < |undo| && undo[i].Restore? ==> undo[i].record != r
    ensures RevertAll(undo, Write(m, r, c)) == Write(RevertAll(undo, m), r, c)
  {
    if undo != [] {
      UndoneAside(undo[|undo| - 1], m, r, c);
      NewObjectStaysOut(undo[..|undo| - 1], Undone(undo[|undo| - 1], m), r, c);
    }
  }

  lemma UndoneKeys(u: Undo, m: Memory)
    requires u.Restore? ==> u.record in m.contents
    ensures Undone(u, m).contents.Keys == m.contents.Keys
  {
  }

  lemma {:induction false} RevertAddsNone(undo: seq<Undo>, m: Memory)
    requires KnownRecords(undo, m.contents)
    ensures RevertAll(undo, m).contents.Keys == m.contents.Keys
  {
    hide Undone;
    if undo != [] {
      var front, last := undo[..|undo| - 1], undo[|undo| - 1];
      UndoneKeys(last, m);
      assert forall i :: 0 <= i < |front| ==> front[i] == undo[i];
      RevertAddsNone(front, Undone(last, m));
    }
  }

  /** The first edit of an object saves its contents. */
  lemma FirstEdit(undo: seq<Undo>, edited: set<Record>, m: Memory, base: Memory, r: Record, c: Content)
    requires Protects(undo, edited, m, base) && r in m.contents
    ensures Protects(undo + [Restore(r, m.contents[r])], edited + {r}, Write(m, r, c), base)
  {
    var u := Restore(r, m.contents[r]);
    RevertUnfolds(undo, u, Write(m, r, c));
    assert Undone(u, Write(m, r, c)) == m by {
      assert m.contents[r := c][r := m.contents[r]] == m.contents;
    }
    hide RevertAll, Undone;
    forall x | x in edited ensures Saved(undo + [u], x) {
      SavedOn(undo, u, x);
    }
    assert (undo + [u])[|undo|] == u;
  }

  /** A later edit of the same object needs no new undo step. */
  lemma LaterEdit(undo: seq<Undo>, edited: set<Record>, m: Memory, base: Memory, r: Record, c: Content)
    requires Protects(undo, edited, m, base) && r in edited
    ensures Protects(undo, edited, Write(m, r, c), base)
  {
    SavedShields(undo, m, r, c);
  }

  /** A new object under some key: the undo step takes the key back. */
  lemma NewObjectLogged(
    undo: seq<Undo>, edited: set<Record>, m: Memory, t: Memory, base: Memory, u: Undo, r: Record, c: Content)
    requires Protects(undo, edited, m, base) && r !in m.contents && !u.Restore?
    requires Undone(u, t) == Write(m, r, c) && t.contents == Write(m, r, c).contents
    ensures Protects(undo + [u], edited, t, base)
  {
    RevertUnfolds(undo, u, t);
    NewObjectStaysOut(undo, m, r, c);
    RevertAddsNone(undo, m);
    hide RevertAll, Undone;
    forall x | x in edited ensures Saved(undo + [u], x) {
      SavedOn(undo, u, x);
    }
  }

  // ----- each kind of update is taken back by its undo step -----

  lemma PutBackUndoesPut<K, V>(m: map<K, V>, k: K, v: V)
    ensures PutBack(m[k := v], k, Get(m, k)) == m
  {
  }

  lemma PutBackUndoesDelete<K, V>(m: map<K, V>, k: K)
    ensures PutBack(m - {k}, k, Get(m, k)) == m
  {
  }

  lemma TakeOutUndoesAdd<T>(m: Sets<T>, k: string, v: T)
    requires k in m && v !in m[k]
    ensures TakeOut(AddTo(m, k, v), k, v) == m
  {
    assert m[k] + {v} - {v} == m[k];
  }

  lemma AddedAlready<T>(m: Sets<T>, k: string, v: T)
    requires k in m && v in m[k]
    ensures AddTo(m, k, v) == m
  {
    assert m[k] + {v} == m[k];
  }

  lemma FirstInSet<T>(m: Sets<T>, k: string, v: T)
    requires k !in m
    ensures AddTo(m, k, v) == m[k := {v}]
  {
    assert {} + {v} == {v};
  }

  lemma RunPlacedBack(m: Memory, k: Id, r: Record, c: Content)
    ensures Undone(RunBack(k, Get(m.runs, k)), Write(m, r, c).(runs := m.runs[k := r])) == Write(m, r, c)
    ensures Write(m, r, c).runs == m.runs
  {
    PutBackUndoesPut(m.runs, k, r);
  }

  lemma EntryPlacedBack(m: Memory, k: Id, r: Record, c: Content)
    ensures Undone(EntryBack(k, Get(m.queue, k)), Write(m, r, c).(queue := m.queue[k := r])) == Write(m, r, c)
    ensures Write(m, r, c).queue == m.queue
  {
    PutBackUndoesPut(m.queue, k, r);
  }

  lemma EffectPlacedBack(m: Memory, k: Id, r: Record, c: Content)
    ensures Undone(EffectBack(k, Get(m.effects, k)), Write(m, r, c).(effects := m.effects[k := r])) == Write(m, r, c)
    ensures Write(m, r, c).effects == m.effects
  {
    PutBackUndoesPut(m.effects, k, r);
  }

  lemma OwnerFirst(m: Memory, id: Id, owner: Owner)
    requires id !in m.ix.owners
    ensures m.ix.(owners := m.ix.owners[id := {owner}]) == Own(m.ix, id, owner)
    ensures Undone(OwnersBack(id, None), m.(ix := m.ix.(owners := m.ix.owners[id := {owner}]))) == m
  {
    FirstInSet(m.ix.owners, id, owner);
    PutBackUndoesPut(m.ix.owners, id, {owner});
  }

  lemma OwnerJoins(m: Memory, id: Id, owner: Owner)
    requires id in m.ix.owners && owner !in m.ix.owners[id]
    ensures m.ix.(owners := m.ix.owners[id := m.ix.owners[id] + {owner}]) == Own(m.ix, id, owner)
    ensures Undone(OwnerOut(id, owner), m.(ix := m.ix.(owners := m.ix.owners[id := m.ix.owners[id] + {owner}]))) == m
  {
    TakeOutUndoesAdd(m.ix.owners, id, owner);
  }

  lemma LinkFirst(m: Memory, link: Link, k: Id, v: string)
    requires k !in Links(m.ix, link)
    ensures var next := WithLinks(m.ix, link, Links(m.ix, link)[k := {v}]);
      && next == WithLinks(m.ix, link, AddTo(Links(m.ix, link), k, v))
      && Undone(LinksBack(link, k, None), m.(ix := next)) == m
  {
    FirstInSet(Links(m.ix, link), k, v);
    PutBackUndoesPut(Links(m.ix, link), k, {v});
  }

  lemma LinkJoins(m: Memory, link: Link, k: Id, v: string)
    requires k in Links(m.ix, link) && v !in Links(m.ix, link)[k]
    ensures var next := WithLinks(m.ix, link, Links(m.ix, link)[k := Links(m.ix, link)[k] + {v}]);
      && next == WithLinks(m.ix, link, AddTo(Links(m.ix, link), k, v))
      && Undone(LinkOut(link, k, v), m.(ix := next)) == m
  {
    TakeOutUndoesAdd(Links(m.ix, link), k, v);
  }

  lemma OwnerHeld(header: Header, branch: Record, m: Memory, id: Id, owner: Owner)
    requires Sound(branch, m) && id in m.ix.owners && owner in m.ix.owners[id]
    ensures View(header, branch, m).(ix := Own(m.ix, id, owner)) == View(header, branch, m)
  {
    AddedAlready(m.ix.owners, id, owner);
  }

  lemma LinkHeld(header: Header, branch: Record, m: Memory, link: Link, k: Id, v: string)
    requires Sound(branch, m) && k in Links(m.ix, link) && v in Links(m.ix, link)[k]
    ensures View(header, branch, m).(ix := WithLinks(m.ix, link, AddTo(Links(m.ix, link), k, v)))
      == View(header, branch, m)
  {
    AddedAlready(Links(m.ix, link), k, v);
  }

  // ----- the journal -----

  class Journal {
    var undo: seq<Undo>
    var edited: set<Record>
    var settled: bool

    constructor ()
      ensures undo == [] && edited == {} && !settled
    {
      undo := [];
      edited := {};
      settled := false;
    }

    /** Saves an object before it is changed, once. */
    method Edit(r: Record)
      requires !settled
      modifies this
      ensures !settled && edited == old(edited) + {r}
      ensures undo == if r in old(edited) then old(undo) else old(undo) + [Restore(r, r.content)]
    {
      if r in edited {
        return;
      }
      edited := edited + {r};
      undo := undo + [Restore(r, r.content)];
    }

    method Note(u: Undo)
      modifies this`undo
      ensures undo == old(undo) + [u]
    {
      undo := undo + [u];
    }

    method Commit()
      modifies this
      ensures settled && undo == []
    {
      settled := true;
      undo := [];
    }
  }
}
