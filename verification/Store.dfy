/** The session reducer as the program runs it: in place, one change at a time, under a journal.

    Every operation is proved to do to the session in memory what `Reducer` says, and every
    journal to lead back to the memory in which it was started. */
module Store {
  import opened Options
  import opened CanonicalJson
  import opened SessionTypes
  import opened Reducer
  import opened Paths
  import opened Invariant
  import opened Evolution
  import opened Indexing
  import opened Runs
  import opened Journals
  import opened Rebuild

  class SessionStore {
    const header: Header
    const branch: Journals.Record
    var sequence: nat
    var name: Option<string>
    var labels: map<Id, string>
    var nodes: map<Id, Node>
    var checkpoints: map<Id, Checkpoint>
    var commits: map<Id, Commit>
    var runs: map<Id, Journals.Record>
    var queue: map<Id, Journals.Record>
    var effects: map<Id, Journals.Record>
    var ix: Indexes
    ghost var records: set<Journals.Record>

    ghost function Now(): Memory
      reads this, records
    {
      Memory(sequence, name, labels, nodes, checkpoints, commits, runs, queue, effects, ix,
             map r | r in records :: r.content)
    }

    ghost predicate Valid()
      reads this, records
    {
      Sound(branch, Now())
    }

    /** The session that the store holds. */
    ghost function Seen(): (s: Session)
      reads this, records
      requires Valid()
      ensures s.ix == ix && s.state.nodes == nodes && s.state.commits == commits && s.state.sequence == sequence
      ensures s.state.labels == labels && s.state.checkpoints == checkpoints
      ensures s.state.operations.Keys == runs.Keys && s.state.queue.Keys == queue.Keys
      ensures s.state.effects.Keys == effects.Keys
    {
      View(header, branch, Now())
    }

    /** The journal is active and leads back to `base`. */
    ghost predicate Ready(j: Journal, base: Memory)
      reads this, records, j
    {
      Valid() && !j.settled && Protects(j.undo, j.edited, Now(), base)
    }

    constructor (header: Header)
      ensures Valid() && fresh(records) && this.header == header
      ensures Seen() == Initial(header)
    {
      this.header := header;
      var main := new Journals.Record(BranchContent(Branch(None, None, Pending([], [], []))));
      branch := main;
      sequence, name, labels, nodes, checkpoints, commits := 0, None, map[], map[], map[], map[];
      runs, queue, effects, ix := map[], map[], map[], NO_INDEXES;
      records := {main};
    }

    // ----- journaled updates -----

    method SetSequence(j: Journal, ghost base: Memory, n: nat)
      requires Ready(j, base)
      modifies this`sequence, j
      ensures Ready(j, base) && Seen() == old(Seen()).(state := old(Seen()).state.(sequence := n))
    {
      hide Protects;
      ghost var m := Now();
      j.Note(SequenceBack(sequence));
      sequence := n;
      Logged(old(j.undo), j.edited, m, Now(), base, SequenceBack(m.sequence));
    }

    method SetName(j: Journal, ghost base: Memory, name: Option<string>)
      requires Ready(j, base)
      modifies this`name, j
      ensures Ready(j, base) && Seen() == old(Seen()).(state := old(Seen()).state.(name := name))
    {
      hide Protects;
      ghost var m := Now();
      j.Note(NameBack(this.name));
      this.name := name;
      Logged(old(j.undo), j.edited, m, Now(), base, NameBack(m.name));
    }

    method PutLabel(j: Journal, ghost base: Memory, node: Id, title: string)
      requires Ready(j, base)
      modifies this`labels, j
      ensures Ready(j, base)
      ensures Seen() == old(Seen()).(state := old(Seen()).state.(labels := old(labels)[node := title]))
    {
      hide Protects;
      ghost var m := Now();
      PutBackUndoesPut(labels, node, title);
      j.Note(LabelBack(node, Get(labels, node)));
      labels := labels[node := title];
      Logged(old(j.undo), j.edited, m, Now(), base, LabelBack(node, Get(m.labels, node)));
    }

    method DropLabel(j: Journal, ghost base: Memory, node: Id)
      requires Ready(j, base)
      modifies this`labels, j
      ensures Ready(j, base) && Seen() == old(Seen()).(state := old(Seen()).state.(labels := old(labels) - {node}))
    {
      hide Protects;
      ghost var m := Now();
      PutBackUndoesDelete(labels, node);
      j.Note(LabelBack(node, Get(labels, node)));
      labels := labels - {node};
      Logged(old(j.undo), j.edited, m, Now(), base, LabelBack(node, Get(m.labels, node)));
    }

    method PutNode(j: Journal, ghost base: Memory, node: Node)
      requires Ready(j, base)
      modifies this`nodes, j
      ensures Ready(j, base)
      ensures Seen() == old(Seen()).(state := old(Seen()).state.(nodes := old(nodes)[node.id := node]))
    {
      hide Protects;
      ghost var m := Now();
      PutBackUndoesPut(nodes, node.id, node);
      j.Note(NodeBack(node.id, Get(nodes, node.id)));
      nodes := nodes[node.id := node];
      Logged(old(j.undo), j.edited, m, Now(), base, NodeBack(node.id, Get(m.nodes, node.id)));
    }

    method PutCheckpoint(j: Journal, ghost base: Memory, checkpoint: Checkpoint)
      requires Ready(j, base)
      modifies this`checkpoints, j
      ensures Ready(j, base)
      ensures Seen() == old(Seen()).(
        state := old(Seen()).state.(checkpoints := old(checkpoints)[checkpoint.id := checkpoint]))
    {
      hide Protects;
      ghost var m := Now();
      PutBackUndoesPut(checkpoints, checkpoint.id, checkpoint);
      j.Note(CheckpointBack(checkpoint.id, Get(checkpoints, checkpoint.id)));
      checkpoints := checkpoints[checkpoint.id := checkpoint];
      Logged(old(j.undo), j.edited, m, Now(), base, CheckpointBack(checkpoint.id, Get(m.checkpoints, checkpoint.id)));
    }

    method PutCommit(j: Journal, ghost base: Memory, commit: Commit)
      requires Ready(j, base)
      modifies this`commits, j
      ensures Ready(j, base)
      ensures Seen() == old(Seen()).(state := old(Seen()).state.(commits := old(commits)[commit.commitId := commit]))
    {
      hide Protects;
      ghost var m := Now();
      PutBackUndoesPut(commits, commit.commitId, commit);
      j.Note(CommitBack(commit.commitId, Get(commits, commit.commitId)));
      commits := commits[commit.commitId := commit];
      Logged(old(j.undo), j.edited, m, Now(), base, CommitBack(commit.commitId, Get(m.commits, commit.commitId)));
    }

    /** Replaces the indexes, given the undo step that takes this back. */
    method SetIndexes(j: Journal, ghost base: Memory, u: Undo, next: Indexes)
      requires Ready(j, base) && !u.Restore? && Undone(u, Now().(ix := next)) == Now()
      modifies this`ix, j
      ensures Ready(j, base) && Seen() == old(Seen()).(ix := next)
    {
      hide Protects, Undone;
      ghost var m := Now();
      j.Note(u);
      ix := next;
      assert Now() == m.(ix := next);
      Logged(old(j.undo), j.edited, m, Now(), base, u);
    }

    method PutTarget(j: Journal, ghost base: Memory, target: Id, entry: Id)
      requires Ready(j, base)
      modifies this`ix, j
      ensures Ready(j, base)
      ensures Seen() == old(Seen()).(ix := old(ix).(entryByTarget := old(ix).entryByTarget[target := entry]))
    {
      hide Protects, View, Sound;
      PutBackUndoesPut(ix.entryByTarget, target, entry);
      SetIndexes(j, base, TargetBack(target, Get(ix.entryByTarget, target)),
        ix.(entryByTarget := ix.entryByTarget[target := entry]));
    }

    method PutPrompt(j: Journal, ghost base: Memory, prompt: Id, operation: Id)
      requires Ready(j, base)
      modifies this`ix, j
      ensures Ready(j, base)
      ensures Seen()
        == old(Seen()).(ix := old(ix).(operationByPrompt := old(ix).operationByPrompt[prompt := operation]))
    {
      hide Protects, View, Sound;
      PutBackUndoesPut(ix.operationByPrompt, prompt, operation);
      SetIndexes(j, base, PromptBack(prompt, Get(ix.operationByPrompt, prompt)),
        ix.(operationByPrompt := ix.operationByPrompt[prompt := operation]));
    }

    method AddOwner(j: Journal, ghost base: Memory, id: Id, owner: Owner)
      requires Ready(j, base)
      modifies this`ix, j
      ensures Ready(j, base) && Seen() == old(Seen()).(ix := Own(old(ix), id, owner))
    {
      hide Protects, View, Sound;
      if id !in ix.owners {
        OwnerFirst(Now(), id, owner);
        SetIndexes(j, base, OwnersBack(id, None), ix.(owners := ix.owners[id := {owner}]));
      } else if owner !in ix.owners[id] {
        OwnerJoins(Now(), id, owner);
        SetIndexes(j, base, OwnerOut(id, owner), ix.(owners := ix.owners[id := ix.owners[id] + {owner}]));
      } else {
        OwnerHeld(header, branch, Now(), id, owner);
      }
    }

    method AddLink(j: Journal, ghost base: Memory, link: Link, key: Id, value: string)
      requires Ready(j, base)
      modifies this`ix, j
      ensures Ready(j, base)
      ensures Seen() == old(Seen()).(ix := WithLinks(old(ix), link, AddTo(Links(old(ix), link), key, value)))
    {
      hide Protects, View, Sound;
      var sets := Links(ix, link);
      if key !in sets {
        LinkFirst(Now(), link, key, value);
        SetIndexes(j, base, LinksBack(link, key, None), WithLinks(ix, link, sets[key := {value}]));
      } else if value !in sets[key] {
        LinkJoins(Now(), link, key, value);
        SetIndexes(j, base, LinkOut(link, key, value), WithLinks(ix, link, sets[key := sets[key] + {value}]));
      } else {
        LinkHeld(header, branch, Now(), link, key, value);
      }
    }

    /** A new object that nothing refers to yet. */
    method Allocate(c: Content) returns (r: Journals.Record)
      modifies this`records
      ensures fresh(r) && r !in old(records) && records == old(records) + {r}
      ensures Now() == Write(old(Now()), r, c)
    {
      r := new Journals.Record(c);
      records := records + {r};
      assert Now().contents == old(Now()).contents[r := c];
    }

    /** Edits an object under the journal. */
    method Assign(j: Journal, ghost base: Memory, r: Journals.Record, c: Content)
      requires r in records && !j.settled && Protects(j.undo, j.edited, Now(), base)
      modifies r, j
      ensures !j.settled && Protects(j.undo, j.edited, Now(), base)
      ensures Now() == Write(old(Now()), r, c)
    {
      hide Protects;
      ghost var m := Now();
      assert r in j.edited ==> j.edited + {r} == j.edited;
      if r in j.edited {
        LaterEdit(j.undo, j.edited, m, base, r, c);
      } else {
        FirstEdit(j.undo, j.edited, m, base, r, c);
      }
      j.Edit(r);
      r.content := c;
      assert Now() == Write(m, r, c);
    }

    method WriteRun(j: Journal, ghost base: Memory, id: Id, p: Operation)
      requires Ready(j, base) && id in runs
      modifies records, j
      ensures Ready(j, base)
      ensures Seen() == old(Seen()).(state := old(Seen()).state.(operations := old(Seen()).state.operations[id := p]))
    {
      assert runs[id] in records;
      hide Protects, View, Write, Sound;
      RunWritten(header, branch, Now(), id, p);
      Assign(j, base, runs[id], RunContent(p));
    }

    method NewRun(j: Journal, ghost base: Memory, id: Id, p: Operation)
      requires Ready(j, base)
      modifies this`runs, this`records, j
      ensures Ready(j, base) && old(records) <= records && fresh(records - old(records))
      ensures Seen() == old(Seen()).(state := old(Seen()).state.(operations := old(Seen()).state.operations[id := p]))
    {
      hide Protects, View, Sound, Undone, Write;
      ghost var m := Now();
      var r := Allocate(RunContent(p));
      RunPlaced(header, branch, m, id, r, p);
      RunPlacedBack(m, id, r, RunContent(p));
      j.Note(RunBack(id, Get(runs, id)));
      runs := runs[id := r];
      assert Now() == Write(m, r, RunContent(p)).(runs := m.runs[id := r]);
      NewObjectLogged(old(j.undo), j.edited, m, Now(), base, RunBack(id, Get(m.runs, id)), r, RunContent(p));
    }

    method WriteEntry(j: Journal, ghost base: Memory, id: Id, q: QueueEntry)
      requires Ready(j, base) && id in queue
      modifies records, j
      ensures Ready(j, base)
      ensures Seen() == old(Seen()).(state := old(Seen()).state.(queue := old(Seen()).state.queue[id := q]))
    {
      assert queue[id] in records;
      hide Protects, View, Write, Sound;
      EntryWritten(header, branch, Now(), id, q);
      Assign(j, base, queue[id], EntryContent(q));
    }

    method NewEntry(j: Journal, ghost base: Memory, id: Id, q: QueueEntry)
      requires Ready(j, base)
      modifies this`queue, this`records, j
      ensures Ready(j, base) && old(records) <= records && fresh(records - old(records))
      ensures Seen() == old(Seen()).(state := old(Seen()).state.(queue := old(Seen()).state.queue[id := q]))
    {
      hide Protects, View, Sound, Undone, Write;
      ghost var m := Now();
      var r := Allocate(EntryContent(q));
      EntryPlaced(header, branch, m, id, r, q);
      EntryPlacedBack(m, id, r, EntryContent(q));
      j.Note(EntryBack(id, Get(queue, id)));
      queue := queue[id := r];
      assert Now() == Write(m, r, EntryContent(q)).(queue := m.queue[id := r]);
      NewObjectLogged(old(j.undo), j.edited, m, Now(), base, EntryBack(id, Get(m.queue, id)), r, EntryContent(q));
    }

    method WriteEffect(j: Journal, ghost base: Memory, id: Id, e: Effect)
      requires Ready(j, base) && id in effects
      modifies records, j
      ensures Ready(j, base)
      ensures Seen() == old(Seen()).(state := old(Seen()).state.(effects := old(Seen()).state.effects[id := e]))
    {
      assert effects[id] in records;
      hide Protects, View, Write, Sound;
      EffectWritten(header, branch, Now(), id, e);
      Assign(j, base, effects[id], EffectContent(e));
    }

    method NewEffect(j: Journal, ghost base: Memory, id: Id, e: Effect)
      requires Ready(j, base)
      modifies this`effects, this`records, j
      ensures Ready(j, base) && old(records) <= records && fresh(records - old(records))
      ensures Seen() == old(Seen()).(state := old(Seen()).state.(effects := old(Seen()).state.effects[id := e]))
    {
      hide Protects, View, Sound, Undone, Write;
      ghost var m := Now();
      var r := Allocate(EffectContent(e));
      EffectPlaced(header, branch, m, id, r, e);
      EffectPlacedBack(m, id, r, EffectContent(e));
      j.Note(EffectBack(id, Get(effects, id)));
      effects := effects[id := r];
      assert Now() == Write(m, r, EffectContent(e)).(effects := m.effects[id := r]);
      NewObjectLogged(old(j.undo), j.edited, m, Now(), base, EffectBack(id, Get(m.effects, id)), r, EffectContent(e));
    }

    method WriteBranch(j: Journal, ghost base: Memory, b: Branch)
      requires Ready(j, base)
      modifies records, j
      ensures Ready(j, base) && Seen() == old(Seen()).(state := old(Seen()).state.(branch := b))
    {
      assert branch in records;
      hide Protects, View, Write, Sound;
      BranchWritten(header, branch, Now(), b);
      Assign(j, base, branch, BranchContent(b));
    }

    // ----- lookups -----

    function Main(): (b: Branch)
      reads this, records
      requires Valid()
      ensures b == Seen().state.branch
    {
      assert branch in records;
      branch.content.branch
    }

    function RunAt(id: Id): (p: Operation)
      reads this, records
      requires Valid() && id in runs
      ensures p == Seen().state.operations[id]
    {
      assert runs[id] in records;
      runs[id].content.run
    }

    function EntryAt(id: Id): (q: QueueEntry)
      reads this, records
      requires Valid() && id in queue
      ensures q == Seen().state.queue[id]
    {
      assert queue[id] in records;
      queue[id].content.entry
    }

    function EffectAt(id: Id): (e: Effect)
      reads this, records
      requires Valid() && id in effects
      ensures e == Seen().state.effects[id]
    {
      assert effects[id] in records;
      effects[id].content.effect
    }

    function OpenRun(id: Id): (p: Option<Operation>)
      reads this, records
      requires Valid()
      ensures p == OpenOperation(Seen().state, id)
    {
      if id in runs && Main().open == Some(id) then Some(RunAt(id)) else None
    }

    function EntryTargeting(node: Id): (q: Option<QueueEntry>)
      reads this, records
      requires Valid()
      ensures q == EntryFor(Seen(), node)
    {
      if node in ix.entryByTarget && ix.entryByTarget[node] in queue
      then Some(EntryAt(ix.entryByTarget[node])) else None
    }

    function RunPrompted(node: Id): (p: Option<Operation>)
      reads this, records
      requires Valid()
      ensures p == PromptOf(Seen(), node)
    {
      if node in ix.operationByPrompt && ix.operationByPrompt[node] in runs
      then Some(RunAt(ix.operationByPrompt[node])) else None
    }

    function Reservations(node: Id): (ids: set<Id>)
      reads this, records
      requires Valid()
      ensures ids == EffectsFor(Seen(), node) && ids <= effects.Keys
    {
      set e | e in SetAt(ix.effectsByResult, node) && e in effects
    }

    function LiveTool(id: Id): (e: Option<Effect>)
      reads this, records
      requires Valid()
      ensures e == LiveEffect(Seen().state, id)
    {
      if id in effects && OpenRun(EffectAt(id).operation).Some? then Some(EffectAt(id)) else None
    }

    // ----- walking the conversation -----

    method Ancestors(start: Option<Id>, ancestor: Option<Id>, owner: Option<Id>) returns (walk: Walk)
      ensures walk == Ancestry(nodes, start, ancestor, owner)
    {
      var path, visited, at := [], {}, start;
      while at != ancestor
        invariant Ancestry(nodes, start, ancestor, owner)
          == Continued(path, WalkUp(nodes, at, ancestor, owner, visited))
        decreases nodes.Keys - visited
      {
        if at.None? {
          return NotDescendant;
        }
        if at.value in visited {
          return Cycle;
        }
        if at.value !in nodes {
          return UnknownNode;
        }
        if owner.Some? && nodes[at.value].operation != owner {
          return ForeignNode;
        }
        ghost var rest := WalkUp(nodes, nodes[at.value].parent, ancestor, owner, visited + {at.value});
        ContinuedOn(path, at.value, rest);
        visited, path, at := visited + {at.value}, path + [at.value], nodes[at.value].parent;
      }
      return Reached(path);
    }

    method DescendsFrom(descendant: Id, ancestor: Id) returns (ok: bool)
      ensures ok <==> Descends(nodes, descendant, ancestor)
    {
      if descendant == ancestor {
        return true;
      }
      var walk := Ancestors(Some(descendant), Some(ancestor), None);
      return walk.Reached?;
    }

    method BodyFits(node: Node) returns (ok: bool)
      ensures ok <==> BodyAllowed(nodes, node)
    {
      hide Descends;
      match node.body {
        case Compaction(_, retained) =>
          for i := 0 to |retained|
            invariant forall k :: 0 <= k < i ==> retained[k] in nodes
          {
            if retained[i] !in nodes {
              return false;
            }
          }
          if retained == [] {
            return true;
          }
          if node.parent.None? {
            return false;
          }
          for i := 0 to |retained|
            invariant forall k :: 0 <= k < i ==> Descends(nodes, node.parent.value, retained[k])
            invariant forall k :: 0 < k < i ==> Descends(nodes, retained[k], retained[k - 1])
          {
            if i > 0 {
              var ordered := DescendsFrom(retained[i], retained[i - 1]);
              if !ordered {
                return false;
              }
            }
            var above := DescendsFrom(node.parent.value, retained[i]);
            if !above {
              return false;
            }
          }
          return true;
        case BranchSummary(from, to, _) =>
          if from !in nodes || to !in nodes || node.parent != Some(from) {
            return false;
          }
          ok := DescendsFrom(to, from);
        case _ =>
          return true;
      }
    }

    /** Every effect that shares the result node reserved it in the same way. */
    method ReservationsFit(ids: set<Id>, node: Node) returns (ok: bool)
      requires Valid() && ids <= effects.Keys
      ensures ok <==> EffectsAllow(Seen().state, ids, node)
    {
      if ids == {} {
        return true;
      }
      var first :| first in ids;
      var reserved := EffectAt(first);
      OneReservation(Seen().state, ids, first, node);
      if !IsToolMessage(node) || node.operation != Some(reserved.operation)
        || !(forall e | e in ids :: SameReservation(EffectAt(e), reserved))
      {
        return false;
      }
      var walk := Ancestors(node.parent, Some(reserved.assistant), Some(reserved.operation));
      return walk.Reached?;
    }

    /** The prompt of an operation descends from its source head through the operation's nodes.
        The loop keeps no visited set: it ends because the nodes form a forest. */
    method PromptFits(operation: Operation, queued: bool, node: Node) returns (ok: bool)
      requires Valid() && Forest(nodes) && Known(nodes, node.parent)
      ensures ok <==> PromptAllows(Seen().state, operation, queued, node)
    {
      if !IsUserMessage(node) && !(queued && node.body.ExtensionContext?) {
        return false;
      }
      ghost var rank :| Ranked(nodes, rank);
      ghost var owner := Some(operation.id);
      AncestryIsLink(nodes, node.parent, operation.source, owner);
      var at := node.parent;
      while at != operation.source
        invariant Known(nodes, at)
        invariant Linked(nodes, node.parent, operation.source, owner) <==> Linked(nodes, at, operation.source, owner)
        decreases if at.Some? then rank[at.value] + 1 else 0
      {
        LinkUp(nodes, at, operation.source, owner);
        if at.None? || nodes[at.value].operation != Some(operation.id) {
          return false;
        }
        at := nodes[at.value].parent;
      }
      assert IsPath(nodes, [], at, operation.source, owner);
      return node.operation == Some(operation.id);
    }

    // ----- one change -----

    method NodeFits(node: Node) returns (ok: bool)
      requires Valid() && Forest(nodes)
      ensures ok <==> NodeAllowed(Seen(), node)
    {
      hide Sound, View, Protects, EntryAllows, EffectsAllow, PromptAllows, BodyAllowed, Fresh, Forest;
      var entry, reserved, prompt := EntryTargeting(node.id), Reservations(node.id), RunPrompted(node.id);
      if entry.None? && reserved == {} && prompt.None? {
        if !Fresh(ix, node.id) {
          return false;
        }
      } else if node.id in nodes {
        return false;
      }
      if !Known(nodes, node.parent) || (node.operation.Some? && OpenRun(node.operation.value).None?) {
        return false;
      }
      ok := BodyFits(node);
      if !ok {
        return false;
      }
      if entry.Some? && !EntryAllows(entry.value, node) {
        return false;
      }
      ok := ReservationsFit(reserved, node);
      if !ok || prompt.None? {
        return ok;
      }
      ok := PromptFits(prompt.value, entry.Some?, node);
    }

    method AddConversationNode(j: Journal, ghost base: Memory, c: Change) returns (ok: bool)
      requires Ready(j, base) && Forest(nodes) && c.AddNode?
      modifies this, records, j
      ensures Ready(j, base) && old(records) <= records && fresh(records - old(records))
      ensures (if ok then Some(Seen()) else None) == ApplyNode(old(Seen()), c.node)
    {
      hide Sound, View, Protects, NodeAllowed, ApplyNode, Own;
      var node := c.node;
      var allowed := NodeFits(node);
      if !allowed {
        NodeRefused(Seen(), node);
        return false;
      }
      NodeApplied(Seen(), node);
      PutNode(j, base, node);
      AddOwner(j, base, node.id, NodeOwner);
      return true;
    }

    method SetHead(j: Journal, ghost base: Memory, c: Change) returns (ok: bool)
      requires Ready(j, base) && c.MoveHead?
      modifies this, records, j
      ensures Ready(j, base) && old(records) <= records && fresh(records - old(records))
      ensures (if ok then Some(Seen()) else None) == ApplyHead(old(Seen()), c.head)
    {
      hide Sound, View, Protects;
      if !Known(nodes, c.head) {
        return false;
      }
      WriteBranch(j, base, Main().(head := c.head));
      return true;
    }

    method SetLabel(j: Journal, ghost base: Memory, c: Change) returns (ok: bool)
      requires Ready(j, base) && c.LabelNode?
      modifies this, records, j
      ensures Ready(j, base) && old(records) <= records && fresh(records - old(records))
      ensures (if ok then Some(Seen()) else None) == ApplyLabel(old(Seen()), c.labelled, c.title)
    {
      hide Sound, View, Protects;
      if c.labelled !in nodes {
        return false;
      }
      if c.title.None? {
        DropLabel(j, base, c.labelled);
      } else {
        PutLabel(j, base, c.labelled, c.title.value);
      }
      return true;
    }

    method PromptIsFree(prompt: Option<Id>) returns (ok: bool)
      requires Valid()
      ensures ok <==> PromptAvailable(Seen(), prompt)
    {
      hide Sound, View, Protects;
      if prompt.None? {
        return true;
      }
      var entry := EntryTargeting(prompt.value);
      if entry.None? && !Fresh(ix, prompt.value) {
        return false;
      }
      if entry.Some? && !entry.value.status.Queued? {
        return false;
      }
      return prompt.value !in nodes;
    }

    method AcceptRun(j: Journal, ghost base: Memory, c: Change) returns (ok: bool)
      requires Ready(j, base) && c.RunAccepted?
      modifies this, records, j
      ensures Ready(j, base) && old(records) <= records && fresh(records - old(records))
      ensures (if ok then Some(Seen()) else None) == ApplyAccepted(old(Seen()), c)
    {
      hide Sound, View, Protects, PromptAvailable, Fresh, Own, ApplyAccepted, NewOperation;
      AcceptedIs(Seen(), c);
      if Main().open.Some? || !Fresh(ix, c.operation) || c.prompt == Some(c.operation) || Main().head != c.source
        || !Known(nodes, c.source)
      {
        return false;
      }
      var available := PromptIsFree(c.prompt);
      if !available {
        return false;
      }
      NewRun(j, base, c.operation, NewOperation(c));
      AddOwner(j, base, c.operation, OperationOwner);
      if c.prompt.Some? {
        AddOwner(j, base, c.prompt.value, PromptOwner);
        PutPrompt(j, base, c.prompt.value, c.operation);
      }
      WriteBranch(j, base, Main().(open := Some(c.operation)));
      return true;
    }

    method SelectRunStep(j: Journal, ghost base: Memory, c: Change) returns (ok: bool)
      requires Ready(j, base) && Keyed(Seen().state) && c.RunStepSelected?
      modifies this, records, j
      ensures Ready(j, base) && old(records) <= records && fresh(records - old(records))
      ensures (if ok then Some(Seen()) else None) == ApplyStep(old(Seen()), c)
    {
      hide Sound, View, Protects;
      var operation := OpenRun(c.operation);
      if operation.None? || !StepAllowed(operation.value, c.step, c.selection) {
        return false;
      }
      WriteRun(j, base, c.operation, SelectStep(operation.value, StepSelection(c.step, c.selectedAt, c.selection)));
      return true;
    }

    method StartAttempt(j: Journal, ghost base: Memory, c: Change) returns (ok: bool)
      requires Ready(j, base) && Valid() && Keyed(Seen().state) && c.RunAttempt?
      modifies this, records, j
      ensures Ready(j, base) && old(records) <= records && fresh(records - old(records))
      ensures (if ok then Some(Seen()) else None) == ApplyAttempt(old(Seen()), c)
    {
      hide *;
      AttemptIs(Seen(), c);
      var operation := OpenRun(c.operation);
      if operation.None? || !Fresh(ix, c.attemptId) || !AttemptAllowed(operation.value, c.step, c.attempt) {
        return false;
      }
      WriteRun(j, base, c.operation,
        AddAttempt(operation.value, Attempt(c.attemptId, c.step, c.attempt, c.task, c.startedAt)));
      AddOwner(j, base, c.attemptId, AttemptOwner);
      return true;
    }

    /** Marks the prepared effects among `ids` as never applied. */
    method CancelPrepared(j: Journal, ghost base: Memory, ids: set<Id>, cancelId: Id, at: Time)
      requires Ready(j, base)
      modifies records, j
      ensures Ready(j, base)
      ensures Seen() == old(Seen()).(state := old(Seen()).state.(
        effects := Cancelling(old(Seen()).state.effects, ids, cancelId, at)))
    {
      hide Sound, View, Protects;
      ghost var s := Seen();
      var todo := ids;
      NothingCancelled(s.state.effects, cancelId, at);
      while todo != {}
        invariant Ready(j, base) && todo <= ids
        invariant Seen() == s.(state := s.state.(effects := Cancelling(s.state.effects, ids - todo, cancelId, at)))
        decreases todo
      {
        var e :| e in todo;
        assert ids - (todo - {e}) == (ids - todo) + {e};
        CancelledMore(s.state.effects, ids - todo, e, cancelId, at);
        todo := todo - {e};
        if e in effects {
          var effect := EffectAt(e);
          if effect.status.Prepared? {
            WriteEffect(j, base, e, CancelEffect(effect, cancelId, at));
          }
        }
      }
      assert ids - todo == ids;
    }

    method CancelRun(j: Journal, ghost base: Memory, c: Change) returns (ok: bool)
      requires Ready(j, base) && Keyed(Seen().state) && c.RunCancel?
      modifies this, records, j
      ensures Ready(j, base) && old(records) <= records && fresh(records - old(records))
      ensures (if ok then Some(Seen()) else None) == ApplyCancel(old(Seen()), c)
    {
      hide Sound, View, Protects, Fresh, Own, CancelEffect;
      var operation := OpenRun(c.operation);
      if operation.None? || operation.value.cancel.Some? || !Fresh(ix, c.cancelId) {
        return false;
      }
      WriteRun(j, base, c.operation,
        RequestCancel(operation.value, Cancellation(c.cancelId, c.requestedAt, c.reason)));
      AddOwner(j, base, c.cancelId, CancelOwner);
      OwnKeepsEffects(old(ix), c.cancelId, CancelOwner);
      CancelPrepared(j, base, SetAt(ix.effectsByOperation, operation.value.id), c.cancelId, c.requestedAt);
      return true;
    }

    method AddRunCheckpoint(j: Journal, ghost base: Memory, c: Change) returns (ok: bool)
      requires Ready(j, base) && Valid() && Keyed(Seen().state) && c.RunCheckpoint?
      modifies this, records, j
      ensures Ready(j, base) && old(records) <= records && fresh(records - old(records))
      ensures (if ok then Some(Seen()) else None) == ApplyCheckpoint(old(Seen()), c)
    {
      hide *;
      CheckpointIs(Seen(), c);
      var operation := OpenRun(c.operation);
      if operation.None? || !Fresh(ix, c.checkpointId) {
        return false;
      }
      PutCheckpoint(j, base, Checkpoint(c.checkpointId, c.operation, c.createdAt, c.data));
      WriteRun(j, base, c.operation, AddCheckpoint(operation.value, c.checkpointId));
      AddOwner(j, base, c.checkpointId, CheckpointOwner);
      return true;
    }

    method NoneClaimed(ids: set<Id>) returns (ok: bool)
      requires Valid()
      ensures ok <==> forall e :: e in ids && e in Seen().state.queue ==> !Seen().state.queue[e].status.Claimed?
    {
      hide Sound, View, Protects;
      var todo := ids;
      while todo != {}
        invariant todo <= ids
        invariant forall e :: e in ids - todo && e in Seen().state.queue ==> !Seen().state.queue[e].status.Claimed?
        decreases todo
      {
        var e :| e in todo;
        if e in queue && EntryAt(e).status.Claimed? {
          return false;
        }
        todo := todo - {e};
      }
      return true;
    }

    method AllEffectsSettled(ids: set<Id>) returns (ok: bool)
      requires Valid()
      ensures ok <==> forall e :: e in ids && e in Seen().state.effects ==>
        EffectSettled(Seen().state, Seen().state.effects[e])
    {
      hide Sound, View, Protects;
      var todo := ids;
      while todo != {}
        invariant todo <= ids
        invariant forall e :: e in ids - todo && e in Seen().state.effects ==>
          EffectSettled(Seen().state, Seen().state.effects[e])
        decreases todo
      {
        var e :| e in todo;
        if e in effects {
          var effect := EffectAt(e);
          if !Terminal(effect.status) || ((effect.status.Succeeded? || effect.status.Failed?) && effect.output.None?)
            || effect.result !in nodes
          {
            return false;
          }
        }
        todo := todo - {e};
      }
      return true;
    }

    method MayFinish(operation: Operation, outcome: RunOutcome) returns (ok: bool)
      requires Valid()
      ensures ok <==> FinishAllowed(Seen(), operation, outcome)
    {
      hide Sound, View, Protects, EffectSettled, Ancestry;
      if (outcome.Completed? && operation.cancel.Some?) || (outcome.RunCancelled? && operation.cancel.None?)
        || !Known(nodes, operation.prompt)
      {
        return false;
      }
      var walk := Ancestors(Main().head, operation.source, Some(operation.id));
      if !walk.Reached? || (operation.prompt.Some? && operation.prompt.value !in walk.path) {
        return false;
      }
      var unclaimed := NoneClaimed(SetAt(ix.entriesByOperation, operation.id));
      if !unclaimed {
        return false;
      }
      ok := AllEffectsSettled(SetAt(ix.effectsByOperation, operation.id));
    }

    method FinishRun(j: Journal, ghost base: Memory, c: Change) returns (ok: bool)
      requires Ready(j, base) && Keyed(Seen().state) && c.RunFinished?
      modifies this, records, j
      ensures Ready(j, base) && old(records) <= records && fresh(records - old(records))
      ensures (if ok then Some(Seen()) else None) == ApplyFinished(old(Seen()), c)
    {
      hide Sound, View, Protects, FinishAllowed;
      var operation := OpenRun(c.operation);
      if operation.None? {
        return false;
      }
      var allowed := MayFinish(operation.value, c.runOutcome);
      if !allowed {
        return false;
      }
      WriteRun(j, base, c.operation, Finish(operation.value, c.runOutcome, c.finishedAt, c.detail));
      WriteBranch(j, base, Main().(open := None));
      return true;
    }

    method AddQueueEntry(j: Journal, ghost base: Memory, c: Change) returns (ok: bool)
      requires Ready(j, base) && c.QueueAdded?
      modifies this, records, j
      ensures Ready(j, base) && old(records) <= records && fresh(records - old(records))
      ensures (if ok then Some(Seen()) else None) == ApplyQueueAdded(old(Seen()), c)
    {
      hide Sound, View, Protects, Fresh, Own, Pending.With;
      if !Fresh(ix, c.entryId) || !Fresh(ix, c.target) || c.entryId == c.target {
        return false;
      }
      NewEntry(j, base, c.entryId,
        QueueEntry(c.entryId, c.target, c.kind, c.addedAt, c.message, Queued, None, None, None));
      AddOwner(j, base, c.entryId, EntryOwner);
      AddOwner(j, base, c.target, TargetOwner);
      OwnKeepsTargets(old(ix), c.entryId, EntryOwner, c.target, TargetOwner);
      PutTarget(j, base, c.target, c.entryId);
      var pending := Main().pending;
      WriteBranch(j, base, Main().(pending := pending.With(c.kind, pending.Of(c.kind) + [c.entryId])));
      return true;
    }

    method ClaimEntry(j: Journal, ghost base: Memory, c: Change) returns (ok: bool)
      requires Ready(j, base) && Valid() && Keyed(Seen().state) && c.QueueClaimed?
      modifies this, records, j
      ensures Ready(j, base) && old(records) <= records && fresh(records - old(records))
      ensures (if ok then Some(Seen()) else None) == ApplyQueueClaimed(old(Seen()), c)
    {
      hide *;
      ClaimIs(Seen(), c);
      var operation := OpenRun(c.operation);
      if operation.None? || c.entryId !in queue || !EntryAt(c.entryId).status.Queued? {
        return false;
      }
      var entry := EntryAt(c.entryId);
      var owner := RunPrompted(entry.target);
      if owner.Some? && owner.value.id != c.operation {
        return false;
      }
      var pending := Main().pending.Of(entry.kind);
      if pending == [] || pending[0] != entry.id {
        return false;
      }
      WriteEntry(j, base, c.entryId,
        entry.(status := Claimed, operation := Some(c.operation), claimedAt := Some(c.claimedAt)));
      AddLink(j, base, EntriesOfRun, c.operation, entry.id);
      return true;
    }

    method IndexOf(ids: seq<Id>, id: Id) returns (at: Option<nat>)
      ensures at.None? <==> id !in ids
      ensures at.Some? ==> at.value < |ids| && ids[..at.value] + ids[at.value + 1..] == Without(ids, id)
    {
      for i := 0 to |ids|
        invariant id !in ids[..i]
      {
        if ids[i] == id {
          WithoutSplices(ids, id, i);
          return Some(i);
        }
      }
      return None;
    }

    method EntryMayFinish(entry: QueueEntry, outcome: QueueOutcome) returns (ok: bool)
      requires Valid()
      ensures ok <==> QueueFinishAllowed(Seen().state, entry, outcome)
    {
      match outcome {
        case Consumed =>
          return entry.status.Claimed? && entry.target in nodes && entry.operation.Some?
            && nodes[entry.target].operation == entry.operation;
        case Dropped =>
          return entry.status.Queued? || entry.status.Claimed?;
      }
    }

    method TakeFromPending(j: Journal, ghost base: Memory, kind: QueueKind, id: Id) returns (ok: bool)
      requires Ready(j, base)
      modifies records, j
      ensures Ready(j, base) && (if ok then Some(Seen()) else None) == Taken(old(Seen()), kind, id)
    {
      hide Sound, View, Protects, Without, Pending.With;
      var pending := Main().pending;
      var ids := pending.Of(kind);
      var at := IndexOf(ids, id);
      if at.None? {
        return false;
      }
      WriteBranch(j, base, Main().(pending := pending.With(kind, ids[..at.value] + ids[at.value + 1..])));
      return true;
    }

    /** The entry is changed before the pending list is searched: a failed search leaves the
        undoing to the journal. */
    method FinishEntry(j: Journal, ghost base: Memory, c: Change) returns (ok: bool)
      requires Ready(j, base) && Valid() && Keyed(Seen().state) && c.QueueFinished?
      modifies records, j
      ensures Ready(j, base)
      ensures (if ok then Some(Seen()) else None) == ApplyQueueFinished(old(Seen()), c)
    {
      hide *;
      QueueFinishedIs(Seen(), c);
      if c.entryId !in queue {
        return false;
      }
      var entry := EntryAt(c.entryId);
      var allowed := EntryMayFinish(entry, c.queueOutcome);
      if !allowed {
        return false;
      }
      WriteEntry(j, base, c.entryId, entry.(status := Ended(c.queueOutcome), finishedAt := Some(c.finishedAt)));
      ok := TakeFromPending(j, base, entry.kind, entry.id);
    }

    predicate SharedResultFits(c: Change)
      reads this, records
      requires Valid() && c.ToolPrepared?
      ensures SharedResultFits(c) <==> ResultAvailable(Seen(), c)
    {
      var shared := Reservations(c.result);
      if shared == {} then Fresh(ix, c.result)
      else
        && SetAt(ix.owners, c.result) - {ResultOwner} == {}
        && (forall e | e in shared ::
              EffectAt(e).operation == c.operation && EffectAt(e).step == c.step
                && EffectAt(e).assistant == c.assistant)
        && (forall e | e in shared :: EffectAt(e).index != c.index)
    }

    predicate PreparationFits(operation: Operation, c: Change)
      reads this, records
      requires Valid() && c.ToolPrepared?
      ensures PreparationFits(operation, c) <==> PrepareAllowed(Seen(), operation, c)
    {
      && operation.cancel.None?
      && c.call !in SetAt(ix.callsByOperation, c.operation)
      && Fresh(ix, c.effectId) && Fresh(ix, c.invocation)
      && SharedResultFits(c)
      && c.effectId != c.invocation && c.effectId != c.result && c.invocation != c.result
      && |operation.attempts| > 0 && operation.attempts[|operation.attempts| - 1].step == c.step
      && c.step < |operation.steps|
      && c.assistant in nodes
      && nodes[c.assistant].body.Message? && nodes[c.assistant].body.role.Assistant?
      && nodes[c.assistant].operation == Some(c.operation)
      && c.fingerprint == operation.steps[c.step].selection.fingerprint
      && c.tool in operation.steps[c.step].selection.toolNames
      && c.inputHash == InputHash(c.input)
    }

    method PrepareEffect(j: Journal, ghost base: Memory, c: Change) returns (ok: bool)
      requires Ready(j, base) && c.ToolPrepared?
      modifies this, records, j
      ensures Ready(j, base) && old(records) <= records && fresh(records - old(records))
      ensures (if ok then Some(Seen()) else None) == ApplyPrepared(old(Seen()), c)
    {
      hide Sound, View, Protects, Own, AddTo, PrepareAllowed, ApplyPrepared, OpenOperation, Links, WithLinks;
      hide Reducer.NewEffect, PreparationFits, SharedResultFits;
      PreparedIs(Seen(), c);
      var operation := OpenRun(c.operation);
      if operation.None? || !PreparationFits(operation.value, c) {
        return false;
      }
      NewEffect(j, base, c.effectId, Reducer.NewEffect(c));
      AddOwner(j, base, c.effectId, EffectOwner);
      AddOwner(j, base, c.invocation, InvocationOwner);
      AddOwner(j, base, c.result, ResultOwner);
      AddLink(j, base, EffectsOfResult, c.result, c.effectId);
      AddLink(j, base, EffectsOfRun, c.operation, c.effectId);
      AddLink(j, base, CallsOfRun, c.operation, c.call);
      return true;
    }

    method DispatchEffect(j: Journal, ghost base: Memory, c: Change) returns (ok: bool)
      requires Ready(j, base) && Valid() && Keyed(Seen().state) && c.ToolDispatched?
      modifies this, records, j
      ensures Ready(j, base) && old(records) <= records && fresh(records - old(records))
      ensures (if ok then Some(Seen()) else None) == ApplyDispatched(old(Seen()), c)
    {
      hide *;
      DispatchedIs(Seen(), c);
      var effect := LiveTool(c.effectId);
      if effect.None? {
        return false;
      }
      var operation := OpenRun(effect.value.operation);
      if operation.None? || !DispatchAllowed(operation.value, effect.value) || !Fresh(ix, c.dispatchId) {
        return false;
      }
      WriteEffect(j, base, c.effectId, Dispatch(effect.value, c.dispatchId, c.dispatchedAt));
      AddOwner(j, base, c.dispatchId, DispatchOwner);
      return true;
    }

    method MarkInDoubt(j: Journal, ghost base: Memory, c: Change) returns (ok: bool)
      requires Ready(j, base) && Keyed(Seen().state) && c.ToolInDoubt?
      modifies this, records, j
      ensures Ready(j, base) && old(records) <= records && fresh(records - old(records))
      ensures (if ok then Some(Seen()) else None) == ApplyInDoubt(old(Seen()), c)
    {
      hide Sound, View, Protects;
      var effect := LiveTool(c.effectId);
      if effect.None? || !effect.value.status.Dispatched? {
        return false;
      }
      WriteEffect(j, base, c.effectId, Doubt(effect.value, c.noticedAt, c.detail));
      return true;
    }

    method BeginRecovery(j: Journal, ghost base: Memory, c: Change) returns (ok: bool)
      requires Ready(j, base) && Valid() && Keyed(Seen().state) && c.ToolRecoveryStarted?
      modifies this, records, j
      ensures Ready(j, base) && old(records) <= records && fresh(records - old(records))
      ensures (if ok then Some(Seen()) else None) == ApplyRecovery(old(Seen()), c)
    {
      hide *;
      RecoveryIs(Seen(), c);
      var effect := LiveTool(c.effectId);
      if effect.None? || !effect.value.status.InDoubt? || !effect.value.policy.Reconcile?
        || effect.value.recovery.Some? || !Fresh(ix, c.recoveryId)
      {
        return false;
      }
      WriteEffect(j, base, c.effectId, StartRecovery(effect.value, c.recoveryId, c.startedAt));
      AddOwner(j, base, c.recoveryId, RecoveryOwner);
      return true;
    }

    method FinishEffect(j: Journal, ghost base: Memory, c: Change) returns (ok: bool)
      requires Ready(j, base) && Keyed(Seen().state) && c.ToolFinished?
      modifies this, records, j
      ensures Ready(j, base) && old(records) <= records && fresh(records - old(records))
      ensures (if ok then Some(Seen()) else None) == ApplyToolFinished(old(Seen()), c)
    {
      hide Sound, View, Protects;
      var effect := LiveTool(c.effectId);
      if effect.None? || !effect.value.status.Dispatched? || c.output.None? {
        return false;
      }
      WriteEffect(j, base, c.effectId, Complete(effect.value, c.settled, c.finishedAt, c.output));
      return true;
    }

    method ReconcileEffect(j: Journal, ghost base: Memory, c: Change) returns (ok: bool)
      requires Ready(j, base) && Valid() && Keyed(Seen().state) && c.ToolReconciled?
      modifies this, records, j
      ensures Ready(j, base) && old(records) <= records && fresh(records - old(records))
      ensures (if ok then Some(Seen()) else None) == ApplyReconciled(old(Seen()), c)
    {
      hide *;
      ReconciledIs(Seen(), c);
      var effect := LiveTool(c.effectId);
      if effect.None? || !effect.value.status.RecoveryStarted? || !effect.value.policy.Reconcile?
        || effect.value.recovery != Some(c.reconciliationId)
        || (c.settled.NotApplied? && c.output.Some?) || (!c.settled.NotApplied? && c.output.None?)
      {
        return false;
      }
      WriteEffect(j, base, c.effectId,
        Settle(effect.value, c.reconciliationId, effect.value.cancelledBy, c.settled, c.resolvedAt, c.output));
      AddOwner(j, base, c.reconciliationId, SettlementOwner);
      return true;
    }

    method ResolveEffect(j: Journal, ghost base: Memory, c: Change) returns (ok: bool)
      requires Ready(j, base) && Valid() && Keyed(Seen().state) && c.ToolResolved?
      modifies this, records, j
      ensures Ready(j, base) && old(records) <= records && fresh(records - old(records))
      ensures (if ok then Some(Seen()) else None) == ApplyResolved(old(Seen()), c)
    {
      hide *;
      ResolvedIs(Seen(), c);
      var effect := LiveTool(c.effectId);
      if effect.None? {
        return false;
      }
      var operation := OpenRun(effect.value.operation);
      if operation.None? || !ResolveAllowed(operation.value, effect.value)
        || (c.settled.Abandoned? && c.output.Some?) || (!c.settled.Abandoned? && c.output.None?)
        || !Fresh(ix, c.resolutionId)
      {
        return false;
      }
      var canceller := Canceller(operation.value, effect.value);
      WriteEffect(j, base, c.effectId,
        Settle(effect.value, c.resolutionId, canceller, c.settled, c.resolvedAt, c.output));
      AddOwner(j, base, c.resolutionId, SettlementOwner);
      return true;
    }

    method ApplyRunChange(j: Journal, ghost base: Memory, c: Change) returns (ok: bool)
      requires Ready(j, base) && Valid() && Inv(Seen())
      requires (c.RunAccepted? || c.RunStepSelected? || c.RunAttempt? || c.RunCancel? || c.RunCheckpoint?
        || c.RunFinished?)
      modifies this, records, j
      ensures Ready(j, base) && old(records) <= records && fresh(records - old(records))
      ensures StepsTo(old(Seen()), c, if ok then Some(Seen()) else None)
    {
      hide *;
      ReadyToChange(Seen(), c);
      match c {
        case RunAccepted(_, _, _, _, _, _) => ok := AcceptRun(j, base, c);
        case RunStepSelected(_, _, _, _) => ok := SelectRunStep(j, base, c);
        case RunAttempt(_, _, _, _, _, _) => ok := StartAttempt(j, base, c);
        case RunCancel(_, _, _, _) => ok := CancelRun(j, base, c);
        case RunCheckpoint(_, _, _, _) => ok := AddRunCheckpoint(j, base, c);
        case RunFinished(_, _, _, _) => ok := FinishRun(j, base, c);
      }
    }

    method ApplyToolChange(j: Journal, ghost base: Memory, c: Change) returns (ok: bool)
      requires Ready(j, base) && Valid() && Inv(Seen())
      requires (c.ToolPrepared? || c.ToolDispatched? || c.ToolInDoubt? || c.ToolRecoveryStarted? || c.ToolFinished?
        || c.ToolReconciled? || c.ToolResolved?)
      modifies this, records, j
      ensures Ready(j, base) && old(records) <= records && fresh(records - old(records))
      ensures StepsTo(old(Seen()), c, if ok then Some(Seen()) else None)
    {
      hide *;
      ReadyToChange(Seen(), c);
      match c {
        case ToolPrepared(_, _, _, _, _, _, _, _, _, _, _, _, _, _) => ok := PrepareEffect(j, base, c);
        case ToolDispatched(_, _, _) => ok := DispatchEffect(j, base, c);
        case ToolInDoubt(_, _, _) => ok := MarkInDoubt(j, base, c);
        case ToolRecoveryStarted(_, _, _) => ok := BeginRecovery(j, base, c);
        case ToolFinished(_, _, _, _) => ok := FinishEffect(j, base, c);
        case ToolReconciled(_, _, _, _, _) => ok := ReconcileEffect(j, base, c);
        case ToolResolved(_, _, _, _, _) => ok := ResolveEffect(j, base, c);
      }
    }

    method ApplyQueueChange(j: Journal, ghost base: Memory, c: Change) returns (ok: bool)
      requires Ready(j, base) && Valid() && Inv(Seen()) && (c.QueueAdded? || c.QueueClaimed? || c.QueueFinished?)
      modifies this, records, j
      ensures Ready(j, base) && old(records) <= records && fresh(records - old(records))
      ensures StepsTo(old(Seen()), c, if ok then Some(Seen()) else None)
    {
      hide *;
      ReadyToChange(Seen(), c);
      match c {
        case QueueAdded(_, _, _, _, _) => ok := AddQueueEntry(j, base, c);
        case QueueClaimed(_, _, _) => ok := ClaimEntry(j, base, c);
        case QueueFinished(_, _, _) => ok := FinishEntry(j, base, c);
      }
    }

    method ApplyMetadata(j: Journal, ghost base: Memory, c: Change) returns (ok: bool)
      requires Ready(j, base) && Valid() && Inv(Seen()) && (c.MoveHead? || c.LabelNode? || c.RenameSession?)
      modifies this, records, j
      ensures Ready(j, base) && old(records) <= records && fresh(records - old(records))
      ensures StepsTo(old(Seen()), c, if ok then Some(Seen()) else None)
    {
      hide *;
      ReadyToChange(Seen(), c);
      match c {
        case MoveHead(_) => ok := SetHead(j, base, c);
        case LabelNode(_, _) => ok := SetLabel(j, base, c);
        case RenameSession(name) =>
          SetName(j, base, name);
          ok := true;
      }
    }

    /** One change in place, exactly as `Step` says. */
    method ApplyChange(j: Journal, ghost base: Memory, c: Change) returns (ok: bool)
      requires Ready(j, base) && Valid() && Inv(Seen())
      modifies this, records, j
      ensures Ready(j, base) && old(records) <= records && fresh(records - old(records))
      ensures StepsTo(old(Seen()), c, if ok then Some(Seen()) else None)
    {
      hide *;
      ReadyToChange(Seen(), c);
      if c.AddNode? {
        ok := AddConversationNode(j, base, c);
      } else if c.MoveHead? || c.LabelNode? || c.RenameSession? {
        ok := ApplyMetadata(j, base, c);
      } else if c.QueueAdded? || c.QueueClaimed? || c.QueueFinished? {
        ok := ApplyQueueChange(j, base, c);
      } else if c.RunAccepted? || c.RunStepSelected? || c.RunAttempt? || c.RunCancel? || c.RunCheckpoint?
        || c.RunFinished?
      {
        ok := ApplyRunChange(j, base, c);
      } else {
        ok := ApplyToolChange(j, base, c);
      }
    }

    /** A queued prompt must have been claimed by its operation in the same commit. */
    method PromptsAreClaimed(changes: seq<Change>) returns (ok: bool)
      requires Valid()
      ensures ok <==> PromptsClaimed(Seen(), changes)
    {
      hide Sound, View, ClaimedIn;
      for i := 0 to |changes|
        invariant forall k :: 0 <= k < i ==> PromptClaimed(Seen(), changes, changes[k])
      {
        var c := changes[i];
        if c.RunAccepted? && c.prompt.Some? {
          var entry := EntryTargeting(c.prompt.value);
          if entry.Some?
            && (!ClaimedIn(changes, entry.value.id, c.operation) || entry.value.operation != Some(c.operation))
          {
            assert !PromptClaimed(Seen(), changes, changes[i]);
            return false;
          }
        }
      }
      return true;
    }

    method ApplyAll(j: Journal, ghost base: Memory, changes: seq<Change>) returns (ok: bool)
      requires Ready(j, base) && Inv(Seen()) && WellFormedAll(changes)
      modifies this, records, j
      ensures Ready(j, base) && old(records) <= records && fresh(records - old(records))
      ensures (if ok then Some(Seen()) else None) == Steps(old(Seen()), changes)
    {
      hide Sound, View, Protects, Inv, Step, Steps, WellFormedChange, Now;
      ghost var s := Seen();
      TailOfAll(changes);
      for i := 0 to |changes|
        invariant Ready(j, base) && old(records) <= records && fresh(records - old(records))
        invariant Inv(Seen()) && Steps(s, changes) == Steps(Seen(), changes[i..])
      {
        ghost var before := Seen();
        TailOf(changes, i);
        ok := ApplyChange(j, base, changes[i]);
        StepsFrom(before, changes[i..], if ok then Some(Seen()) else None);
        if !ok {
          return false;
        }
        StepKeepsInv(before, changes[i], Seen());
      }
      NoSteps(Seen());
      assert changes[|changes|..] == [];
      return true;
    }

    // ----- one commit -----

    /** Runs one undo step. */
    method RunUndo(u: Undo)
      requires u.Restore? ==> u.record in records
      modifies this, records
      ensures Now() == Undone(u, old(Now())) && records == old(records)
    {
      hide Now, Undone;
      if u.Restore? {
        UndoEdit(u);
      } else if TouchesIndexes(u) {
        UndoIndex(u);
      } else if TouchesObjects(u) {
        UndoObject(u);
      } else {
        UndoTable(u);
      }
    }

    predicate TouchesObjects(u: Undo) {
      u.RunBack? || u.EntryBack? || u.EffectBack?
    }

    method UndoEdit(u: Undo)
      requires u.Restore? && u.record in records
      modifies records
      ensures Now() == Undone(u, old(Now()))
    {
      u.record.content := u.before;
      assert Now().contents == old(Now()).contents[u.record := u.before];
    }

    method UndoTable(u: Undo)
      requires !u.Restore? && !TouchesIndexes(u) && !TouchesObjects(u)
      modifies this
      ensures Now() == Undone(u, old(Now())) && records == old(records)
    {
      hide PutBack, IndexesUndone;
      match u {
        case SequenceBack(n) => sequence := n;
        case NameBack(before) => name := before;
        case LabelBack(k, title) => labels := PutBack(labels, k, title);
        case NodeBack(k, node) => nodes := PutBack(nodes, k, node);
        case CheckpointBack(k, checkpoint) => checkpoints := PutBack(checkpoints, k, checkpoint);
        case CommitBack(k, commit) => commits := PutBack(commits, k, commit);
      }
      assert Now().contents == old(Now()).contents;
    }

    method UndoObject(u: Undo)
      requires TouchesObjects(u)
      modifies this
      ensures Now() == Undone(u, old(Now())) && records == old(records)
    {
      hide PutBack, IndexesUndone;
      match u {
        case RunBack(k, held) => runs := PutBack(runs, k, held);
        case EntryBack(k, held) => queue := PutBack(queue, k, held);
        case EffectBack(k, held) => effects := PutBack(effects, k, held);
      }
      assert Now().contents == old(Now()).contents;
    }

    method UndoIndex(u: Undo)
      requires TouchesIndexes(u)
      modifies this`ix
      ensures Now() == Undone(u, old(Now()))
    {
      hide IndexesUndone;
      ix := IndexesUndone(u, ix);
      assert Now().contents == old(Now()).contents;
    }

    /** Runs the undo steps, the last one first; the memory is what it was. */
    method Rollback(j: Journal, ghost base: Memory)
      requires Ready(j, base) && Sound(branch, base)
      modifies this, records, j
      ensures Valid() && j.settled && records == old(records)
      ensures Restores(Now(), base) && Seen() == View(header, branch, base)
    {
      hide Undone, View, Sound, Now;
      ghost var m := Now();
      var i := |j.undo|;
      var undo := j.undo;
      ProtectedParts(undo, j.edited, m, base);
      j.Commit();
      assert undo[..i] == undo;
      while i > 0
        invariant 0 <= i <= |undo| && j.settled && records == old(records)
        invariant KnownRecords(undo, Now().contents)
        invariant RevertAll(undo[..i], Now()) == RevertAll(undo, m)
      {
        i := i - 1;
        RevertOne(undo, i, Now());
        KnownAfter(undo, i, Now());
        RecordsAreKnown();
        RunUndo(undo[i]);
      }
      assert undo[..0] == [];
      RestoredView(header, branch, Now(), base);
    }

    lemma RecordsAreKnown()
      ensures Now().contents.Keys == records
    {
    }

    /** The changes of a commit, the check of its queued prompts, and its own entry. */
    method ApplyCommit(j: Journal, ghost base: Memory, commit: Commit) returns (ok: bool)
      requires Ready(j, base) && Settled(Seen()) && Offered(Seen(), commit)
      modifies this, records, j
      ensures Ready(j, base) && old(records) <= records && fresh(records - old(records))
      ensures Transition(old(Seen()), commit) == if ok then Applied(Seen()) else Rejected
    {
      hide Sound, View, Protects, Settled, Now, Steps, Transition, Inv, PromptsClaimed;
      ghost var s := Seen();
      SettledIs(s);
      TransitionIs(s, commit);
      ok := ApplyAll(j, base, commit.changes);
      if !ok {
        return;
      }
      ok := PromptsAreClaimed(commit.changes);
      if !ok {
        return;
      }
      SetSequence(j, base, commit.sequence);
      PutCommit(j, base, commit);
    }

    /** Applies a commit, or, with `retain` off, only finds out whether it would apply. */
    method Offer(commit: Commit, retain: bool) returns (verdict: Verdict)
      requires Valid() && Settled(Seen())
      modifies this, records
      ensures Valid() && old(records) <= records && fresh(records - old(records))
      ensures verdict == Judged(Transition(old(Seen()), commit))
      ensures if verdict == Admitted && retain then Applied(Seen()) == Transition(old(Seen()), commit)
        else Restores(Now(), old(Now())) && Seen() == old(Seen())
    {
      hide Sound, View, Protects, Settled, WellFormed, Now, Transition, Restores;
      ghost var base, s := Now(), Seen();
      RestoresItself(base);
      if !Offered(s, commit) {
        NotOffered(s, commit);
      }
      if !WellFormed(commit) {
        return Denied;
      }
      if commit.commitId in commits {
        return if commits[commit.commitId] == commit then Repeated else Denied;
      }
      if commit.sequence != sequence + 1 {
        return Denied;
      }
      var j := new Journal();
      NothingToRevert(base);
      var ok := ApplyCommit(j, base, commit);
      if ok && retain {
        j.Commit();
        return Admitted;
      }
      Rollback(j, base);
      return if ok then Admitted else Denied;
    }

    // ----- rebuilding the indexes -----

    function RunsNow(): (m: map<Id, Operation>)
      reads this, records
      requires Valid()
      ensures m == Seen().state.operations
    {
      map k | k in runs :: RunAt(k)
    }

    function EntriesNow(): (m: map<Id, QueueEntry>)
      reads this, records
      requires Valid()
      ensures m == Seen().state.queue
    {
      map k | k in queue :: EntryAt(k)
    }

    function EffectsNow(): (m: map<Id, Effect>)
      reads this, records
      requires Valid()
      ensures m == Seen().state.effects
    {
      map k | k in effects :: EffectAt(k)
    }

    function Snapshot(): (s: State)
      reads this, records
      requires Valid()
      ensures s == Seen().state
    {
      State(header, sequence, name, labels, Main(), nodes, RunsNow(), checkpoints, EntriesNow(), EffectsNow(), commits)
    }

    /** A rebuild, which a cloned state needs, yields the indexes that were kept in place. */
    method RebuiltIndexes() returns (built: Indexes)
      requires Valid() && Inv(Seen())
      ensures built == ix
    {
      hide *;
      InvParts(Seen());
      ItsParts(Seen());
      built := BuildIndexes(Snapshot(), Seen().ix);
    }

    // ----- reducing on a clone -----

    /** A store with all tables of a state except those that hold objects, and without indexes. */
    constructor Tables(s: State)
      ensures Valid() && fresh(records) && header == s.header
      ensures Seen() == Session(s.(operations := map[], queue := map[], effects := map[]), NO_INDEXES)
    {
      header := s.header;
      var main := new Journals.Record(BranchContent(s.branch));
      branch := main;
      sequence, name, labels, nodes, checkpoints, commits := s.sequence, s.name, s.labels, s.nodes, s.checkpoints,
        s.commits;
      runs, queue, effects, ix := map[], map[], map[], NO_INDEXES;
      records := {main};
    }

    method AdoptRun(id: Id, p: Operation)
      requires Valid()
      modifies this`runs, this`records
      ensures Valid() && old(records) <= records && fresh(records - old(records))
      ensures Seen() == old(Seen()).(state := old(Seen()).state.(operations := old(Seen()).state.operations[id := p]))
    {
      hide View, Sound, Write;
      ghost var m := Now();
      var r := Allocate(RunContent(p));
      RunPlaced(header, branch, m, id, r, p);
      runs := runs[id := r];
      assert Now() == Write(m, r, RunContent(p)).(runs := m.runs[id := r]);
    }

    method AdoptEntry(id: Id, q: QueueEntry)
      requires Valid()
      modifies this`queue, this`records
      ensures Valid() && old(records) <= records && fresh(records - old(records))
      ensures Seen() == old(Seen()).(state := old(Seen()).state.(queue := old(Seen()).state.queue[id := q]))
    {
      hide View, Sound, Write;
      ghost var m := Now();
      var r := Allocate(EntryContent(q));
      EntryPlaced(header, branch, m, id, r, q);
      queue := queue[id := r];
      assert Now() == Write(m, r, EntryContent(q)).(queue := m.queue[id := r]);
    }

    method AdoptEffect(id: Id, e: Effect)
      requires Valid()
      modifies this`effects, this`records
      ensures Valid() && old(records) <= records && fresh(records - old(records))
      ensures Seen() == old(Seen()).(state := old(Seen()).state.(effects := old(Seen()).state.effects[id := e]))
    {
      hide View, Sound, Write;
      ghost var m := Now();
      var r := Allocate(EffectContent(e));
      EffectPlaced(header, branch, m, id, r, e);
      effects := effects[id := r];
      assert Now() == Write(m, r, EffectContent(e)).(effects := m.effects[id := r]);
    }

    method AdoptRuns(table: map<Id, Operation>)
      requires Valid() && Seen().state.operations == map[]
      modifies this`runs, this`records
      ensures Valid() && old(records) <= records && fresh(records - old(records))
      ensures Seen() == old(Seen()).(state := old(Seen()).state.(operations := table))
    {
      hide *;
      var todo := table.Keys;
      NoneTaken(table);
      while todo != {}
        invariant todo <= table.Keys && Valid() && old(records) <= records && fresh(records - old(records))
        invariant Seen() == old(Seen()).(state := old(Seen()).state.(operations := Untaken(table, todo)))
        decreases todo
      {
        var id :| id in todo;
        OneMoreTaken(table, todo, id);
        AdoptRun(id, table[id]);
        todo := todo - {id};
      }
      AllTaken(table);
    }

    method AdoptEntries(table: map<Id, QueueEntry>)
      requires Valid() && Seen().state.queue == map[]
      modifies this`queue, this`records
      ensures Valid() && old(records) <= records && fresh(records - old(records))
      ensures Seen() == old(Seen()).(state := old(Seen()).state.(queue := table))
    {
      hide *;
      var todo := table.Keys;
      NoneTaken(table);
      while todo != {}
        invariant todo <= table.Keys && Valid() && old(records) <= records && fresh(records - old(records))
        invariant Seen() == old(Seen()).(state := old(Seen()).state.(queue := Untaken(table, todo)))
        decreases todo
      {
        var id :| id in todo;
        OneMoreTaken(table, todo, id);
        AdoptEntry(id, table[id]);
        todo := todo - {id};
      }
      AllTaken(table);
    }

    method AdoptEffects(table: map<Id, Effect>)
      requires Valid() && Seen().state.effects == map[]
      modifies this`effects, this`records
      ensures Valid() && old(records) <= records && fresh(records - old(records))
      ensures Seen() == old(Seen()).(state := old(Seen()).state.(effects := table))
    {
      hide *;
      var todo := table.Keys;
      NoneTaken(table);
      while todo != {}
        invariant todo <= table.Keys && Valid() && old(records) <= records && fresh(records - old(records))
        invariant Seen() == old(Seen()).(state := old(Seen()).state.(effects := Untaken(table, todo)))
        decreases todo
      {
        var id :| id in todo;
        OneMoreTaken(table, todo, id);
        AdoptEffect(id, table[id]);
        todo := todo - {id};
      }
      AllTaken(table);
    }

    /** A clone with objects of its own, and with indexes that are built from its state. */
    method Clone() returns (copy: SessionStore)
      requires Valid() && Inv(Seen())
      ensures fresh(copy) && fresh(copy.records) && copy.Valid() && copy.Seen() == Seen()
    {
      hide *;
      var s := Snapshot();
      copy := new SessionStore.Tables(s);
      copy.AdoptRuns(s.operations);
      copy.AdoptEntries(s.queue);
      copy.AdoptEffects(s.effects);
      InvParts(Seen());
      ItsParts(Seen());
      var built := BuildIndexes(copy.Snapshot(), Seen().ix);
      copy.TakeIndexes(built);
    }

    method TakeIndexes(next: Indexes)
      requires Valid()
      modifies this`ix
      ensures Valid() && Seen() == old(Seen()).(ix := next)
    {
      hide RunsHeld, EntriesHeld, EffectsHeld, RunsShown, EntriesShown, EffectsShown;
      ghost var m := Now();
      ix := next;
      assert Now() == m.(ix := next);
    }

    /** Reduces a commit on a clone: the clone goes where the store itself would go with the commit
        applied in place, and the store stays as it is. */
    method Reduce(commit: Commit) returns (next: SessionStore, verdict: Verdict)
      requires Valid() && Settled(Seen())
      ensures fresh(next) && fresh(next.records) && next.Valid()
      ensures verdict == Judged(Transition(Seen(), commit))
      ensures if verdict == Admitted then Applied(next.Seen()) == Transition(Seen(), commit)
        else next.Seen() == Seen()
    {
      hide *;
      SettledIs(Seen());
      next := Clone();
      verdict := next.Offer(commit, true);
    }
  }

  /** A table without some of its keys. */
  function Untaken<T>(table: map<Id, T>, ids: set<Id>): map<Id, T> {
    map k | k in table && k !in ids :: table[k]
  }

  lemma NoneTaken<T>(table: map<Id, T>)
    ensures Untaken(table, table.Keys) == map[]
  {
  }

  lemma OneMoreTaken<T>(table: map<Id, T>, ids: set<Id>, id: Id)
    requires id in ids && ids <= table.Keys
    ensures Untaken(table, ids)[id := table[id]] == Untaken(table, ids - {id})
  {
  }

  lemma AllTaken<T>(table: map<Id, T>)
    ensures Untaken(table, {}) == table
  {
  }

  lemma ItsParts(s: Session)
    ensures s == Session(s.state, s.ix)
  {
  }

  ghost function Continued(path: seq<Id>, walk: Walk): Walk {
    match walk
    case Reached(rest) => Reached(path + rest)
    case _ => walk
  }

  lemma ContinuedOn(path: seq<Id>, n: Id, walk: Walk)
    ensures Continued(path, match walk case Reached(rest) => Reached([n] + rest) case failure => failure)
      == Continued(path + [n], walk)
  {
    if walk.Reached? {
      assert path + ([n] + walk.path) == path + [n] + walk.path;
    }
  }

  /** Agreeing with one reservation is agreeing with all. */
  lemma OneReservation(s: State, ids: set<Id>, first: Id, node: Node)
    requires ids <= s.effects.Keys && first in ids
    ensures EffectsAllow(s, ids, node) <==>
      && IsToolMessage(node) && node.operation == Some(s.effects[first].operation)
      && (forall e :: e in ids ==> SameReservation(s.effects[e], s.effects[first]))
      && Ancestry(s.nodes, node.parent, Some(s.effects[first].assistant), Some(s.effects[first].operation)).Reached?
  {
    hide Ancestry, IsToolMessage;
  }

  /** A link from a node other than the ancestor goes through its parent. */
  lemma LinkUp(nodes: map<Id, Node>, at: Option<Id>, ancestor: Option<Id>, owner: Option<Id>)
    requires at != ancestor && Known(nodes, at) && owner.Some?
    ensures Linked(nodes, at, ancestor, owner) <==>
      at.Some? && nodes[at.value].operation == owner && Linked(nodes, nodes[at.value].parent, ancestor, owner)
  {
    if Linked(nodes, at, ancestor, owner) {
      var path :| IsPath(nodes, path, at, ancestor, owner);
      assert path != [] && at == Some(path[0]) && IsPath(nodes, path[1..], nodes[path[0]].parent, ancestor, owner);
    }
    if at.Some? && nodes[at.value].operation == owner && Linked(nodes, nodes[at.value].parent, ancestor, owner) {
      LinkStep(nodes, at.value, ancestor, owner);
    }
  }

  // ----- what each change comes to, case by case -----

  lemma AcceptedIs(s: Session, c: Change)
    requires c.RunAccepted?
    ensures ApplyAccepted(s, c) ==
      if s.state.branch.open.Some? || !Fresh(s.ix, c.operation) || c.prompt == Some(c.operation)
        || s.state.branch.head != c.source || !Known(s.state.nodes, c.source) || !PromptAvailable(s, c.prompt)
      then None
      else
        var placed := s.(state := s.state.(operations := s.state.operations[c.operation := NewOperation(c)]));
        var owned := placed.(ix := Own(s.ix, c.operation, OperationOwner));
        var t := if c.prompt.None? then owned else
          var prompted := owned.(ix := Own(owned.ix, c.prompt.value, PromptOwner));
          prompted.(ix := prompted.ix.(
            operationByPrompt := prompted.ix.operationByPrompt[c.prompt.value := c.operation]));
        Some(t.(state := t.state.(branch := s.state.branch.(open := Some(c.operation)))))
  {
  }

  lemma ResolvedIs(s: Session, c: Change)
    requires c.ToolResolved? && Keyed(s.state)
    ensures ApplyResolved(s, c) ==
      var effect := LiveEffect(s.state, c.effectId);
      if effect.None? then None else
      var operation := OpenOperation(s.state, effect.value.operation);
      if operation.None? || !ResolveAllowed(operation.value, effect.value)
        || (c.settled.Abandoned? && c.output.Some?) || (!c.settled.Abandoned? && c.output.None?)
        || !Fresh(s.ix, c.resolutionId)
      then None
      else
        Some(s.(
          state := s.state.(effects := s.state.effects[c.effectId := Settle(
            effect.value, c.resolutionId, Canceller(operation.value, effect.value), c.settled, c.resolvedAt,
            c.output)])).(
          ix := Own(s.ix, c.resolutionId, SettlementOwner)))
    ensures LiveEffect(s.state, c.effectId).Some? ==> c.effectId in s.state.effects
  {
    hide Own, Fresh, ResolveAllowed, Canceller;
  }

  lemma RecoveryIs(s: Session, c: Change)
    requires c.ToolRecoveryStarted? && Keyed(s.state)
    ensures ApplyRecovery(s, c) ==
      var effect := LiveEffect(s.state, c.effectId);
      if effect.None? || !effect.value.status.InDoubt? || !effect.value.policy.Reconcile?
        || effect.value.recovery.Some? || !Fresh(s.ix, c.recoveryId)
      then None
      else
        Some(s.(
          state := s.state.(effects := s.state.effects[
            c.effectId := StartRecovery(effect.value, c.recoveryId, c.startedAt)])).(
          ix := Own(s.ix, c.recoveryId, RecoveryOwner)))
    ensures LiveEffect(s.state, c.effectId).Some? ==> c.effectId in s.state.effects
  {
    hide Own, Fresh;
  }

  lemma CheckpointIs(s: Session, c: Change)
    requires c.RunCheckpoint? && Keyed(s.state)
    ensures ApplyCheckpoint(s, c) ==
      var p := OpenOperation(s.state, c.operation);
      if p.None? || !Fresh(s.ix, c.checkpointId) then None
      else
        var placed := s.(state := s.state.(checkpoints := s.state.checkpoints[
          c.checkpointId := Checkpoint(c.checkpointId, c.operation, c.createdAt, c.data)]));
        Some(placed.(state := placed.state.(
          operations := s.state.operations[c.operation := AddCheckpoint(p.value, c.checkpointId)])).(
            ix := Own(s.ix, c.checkpointId, CheckpointOwner)))
    ensures OpenOperation(s.state, c.operation).Some? ==> c.operation in s.state.operations
    ensures Checkpoint(c.checkpointId, c.operation, c.createdAt, c.data).id == c.checkpointId
  {
    hide Own, Fresh;
  }

  lemma ClaimIs(s: Session, c: Change)
    requires c.QueueClaimed? && Keyed(s.state)
    ensures OpenOperation(s.state, c.operation).None? || c.entryId !in s.state.queue ==> ApplyQueueClaimed(s, c) == None
    ensures c.entryId in s.state.queue && OpenOperation(s.state, c.operation).Some? ==>
      var q := s.state.queue[c.entryId];
      var owner, pending := PromptOf(s, q.target), s.state.branch.pending.Of(q.kind);
      && q.id == c.entryId
      && ApplyQueueClaimed(s, c) ==
        if !q.status.Queued? || (owner.Some? && owner.value.id != c.operation) || pending == [] || pending[0] != q.id
        then None
        else
          var claimed := q.(status := Claimed, operation := Some(c.operation), claimedAt := Some(c.claimedAt));
          Some(s.(state := s.state.(queue := s.state.queue[c.entryId := claimed])).(
            ix := WithLinks(s.ix, EntriesOfRun, AddTo(Links(s.ix, EntriesOfRun), c.operation, q.id))))
  {
    hide AddTo, PromptOf, OpenOperation, Pending.Of;
  }

  lemma AttemptIs(s: Session, c: Change)
    requires c.RunAttempt? && Keyed(s.state)
    ensures ApplyAttempt(s, c) ==
      var p := OpenOperation(s.state, c.operation);
      if p.None? || !Fresh(s.ix, c.attemptId) || !AttemptAllowed(p.value, c.step, c.attempt) then None
      else
        var attempt := Attempt(c.attemptId, c.step, c.attempt, c.task, c.startedAt);
        Some(s.(state := s.state.(operations := s.state.operations[c.operation := AddAttempt(p.value, attempt)])).(
          ix := Own(s.ix, c.attemptId, AttemptOwner)))
    ensures OpenOperation(s.state, c.operation).Some? ==> c.operation in s.state.operations
  {
    hide Own, Fresh, AttemptAllowed;
  }

  /** A session after an entry has left its pending list; `None` if it is not there. */
  function Taken(s: Session, kind: QueueKind, id: Id): Option<Session> {
    var pending := s.state.branch.pending;
    if id !in pending.Of(kind) then None
    else Some(s.(state := s.state.(
      branch := s.state.branch.(pending := pending.With(kind, Without(pending.Of(kind), id))))))
  }

  lemma QueueFinishedIs(s: Session, c: Change)
    requires c.QueueFinished? && Keyed(s.state)
    ensures c.entryId !in s.state.queue ==> ApplyQueueFinished(s, c) == None
    ensures c.entryId in s.state.queue ==>
      var q := s.state.queue[c.entryId];
      var ended := q.(status := Ended(c.queueOutcome), finishedAt := Some(c.finishedAt));
      && q.id == c.entryId
      && ApplyQueueFinished(s, c) ==
        if !QueueFinishAllowed(s.state, q, c.queueOutcome) then None
        else Taken(s.(state := s.state.(queue := s.state.queue[c.entryId := ended])), q.kind, q.id)
  {
    hide Without, Pending.With, QueueFinishAllowed;
  }

  lemma PreparedIs(s: Session, c: Change)
    requires c.ToolPrepared?
    ensures ApplyPrepared(s, c) ==
      var operation := OpenOperation(s.state, c.operation);
      if operation.None? || !PrepareAllowed(s, operation.value, c) then None
      else
        var placed := s.(state := s.state.(effects := s.state.effects[c.effectId := Reducer.NewEffect(c)]));
        var owned := placed.(
          ix := Own(Own(Own(s.ix, c.effectId, EffectOwner), c.invocation, InvocationOwner), c.result, ResultOwner));
        var shared := owned.(ix := WithLinks(owned.ix, EffectsOfResult,
          AddTo(Links(owned.ix, EffectsOfResult), c.result, c.effectId)));
        var run := shared.(ix := WithLinks(shared.ix, EffectsOfRun,
          AddTo(Links(shared.ix, EffectsOfRun), c.operation, c.effectId)));
        Some(run.(ix := WithLinks(run.ix, CallsOfRun, AddTo(Links(run.ix, CallsOfRun), c.operation, c.call))))
  {
    hide AddTo, PrepareAllowed;
  }

  lemma NodeApplied(s: Session, node: Node)
    requires NodeAllowed(s, node)
    ensures ApplyNode(s, node)
      == Some(s.(state := s.state.(nodes := s.state.nodes[node.id := node])).(ix := Own(s.ix, node.id, NodeOwner)))
  {
  }

  lemma NodeRefused(s: Session, node: Node)
    requires !NodeAllowed(s, node)
    ensures ApplyNode(s, node) == None
  {
  }

  ghost function Cancelling(effects: map<Id, Effect>, ids: set<Id>, cancelId: Id, at: Time): map<Id, Effect> {
    map e | e in effects :: if e in ids then CancelEffect(effects[e], cancelId, at) else effects[e]
  }

  lemma NothingCancelled(effects: map<Id, Effect>, cancelId: Id, at: Time)
    ensures Cancelling(effects, {}, cancelId, at) == effects
  {
  }

  lemma CancelledMore(effects: map<Id, Effect>, ids: set<Id>, e: Id, cancelId: Id, at: Time)
    requires e !in ids
    ensures Cancelling(effects, ids + {e}, cancelId, at)
      == if e in effects then Cancelling(effects, ids, cancelId, at)[e := CancelEffect(effects[e], cancelId, at)]
         else Cancelling(effects, ids, cancelId, at)
    ensures e in effects && !effects[e].status.Prepared? ==>
      Cancelling(effects, ids + {e}, cancelId, at) == Cancelling(effects, ids, cancelId, at)
    ensures e in effects ==> Cancelling(effects, ids, cancelId, at)[e] == effects[e]
  {
  }

  lemma OwnKeepsEffects(ix: Indexes, id: Id, owner: Owner)
    ensures Own(ix, id, owner).effectsByOperation == ix.effectsByOperation
  {
  }

  lemma OwnKeepsTargets(ix: Indexes, a: Id, first: Owner, b: Id, second: Owner)
    ensures Own(Own(ix, a, first), b, second).entryByTarget == ix.entryByTarget
  {
  }

  lemma DispatchedIs(s: Session, c: Change)
    requires c.ToolDispatched? && Keyed(s.state)
    ensures ApplyDispatched(s, c) ==
      var effect := LiveEffect(s.state, c.effectId);
      if effect.None? then None else
      var operation := OpenOperation(s.state, effect.value.operation);
      if operation.None? || !DispatchAllowed(operation.value, effect.value) || !Fresh(s.ix, c.dispatchId) then None
      else
        Some(s.(
          state := s.state.(effects := s.state.effects[
            c.effectId := Dispatch(effect.value, c.dispatchId, c.dispatchedAt)])).(
          ix := Own(s.ix, c.dispatchId, DispatchOwner)))
    ensures LiveEffect(s.state, c.effectId).Some? ==> c.effectId in s.state.effects
  {
    hide Own, Fresh, DispatchAllowed;
  }

  lemma ReconciledIs(s: Session, c: Change)
    requires c.ToolReconciled? && Keyed(s.state)
    ensures ApplyReconciled(s, c) ==
      var effect := LiveEffect(s.state, c.effectId);
      if effect.None? || !effect.value.status.RecoveryStarted? || !effect.value.policy.Reconcile?
        || effect.value.recovery != Some(c.reconciliationId)
        || (c.settled.NotApplied? && c.output.Some?) || (!c.settled.NotApplied? && c.output.None?)
      then None
      else
        Some(s.(
          state := s.state.(effects := s.state.effects[c.effectId := Settle(
            effect.value, c.reconciliationId, effect.value.cancelledBy, c.settled, c.resolvedAt, c.output)])).(
          ix := Own(s.ix, c.reconciliationId, SettlementOwner)))
    ensures LiveEffect(s.state, c.effectId).Some? ==> c.effectId in s.state.effects
  {
    hide Own, Fresh;
  }

  lemma {:induction false} WithoutSplices(ids: seq<Id>, id: Id, i: nat)
    requires i < |ids| && ids[i] == id && id !in ids[..i]
    ensures ids[..i] + ids[i + 1..] == Without(ids, id)
  {
    if i == 0 {
      assert ids[..0] + ids[1..] == ids[1..];
    } else {
      assert ids[0] in ids[..i];
      assert ids[1..][..i - 1] == ids[1..i] && ids[1..][i..] == ids[i + 1..];
      assert forall x :: x in ids[1..i] ==> x in ids[..i];
      WithoutSplices(ids[1..], id, i - 1);
      assert ids[..i] == [ids[0]] + ids[1..i];
    }
  }

  // ----- changes and commits -----

  /** What a change does to a session, `None` standing for its rejection. */
  ghost predicate StepsTo(s: Session, c: Change, outcome: Option<Session>) {
    Step(s, c) == outcome
  }

  lemma ReadyToChange(s: Session, c: Change)
    requires Inv(s)
    ensures Keyed(s.state) && Forest(s.state.nodes)
    ensures c.AddNode? ==> StepsTo(s, c, ApplyNode(s, c.node))
    ensures c.MoveHead? ==> StepsTo(s, c, ApplyHead(s, c.head))
    ensures c.LabelNode? ==> StepsTo(s, c, ApplyLabel(s, c.labelled, c.title))
    ensures c.RunAccepted? ==> StepsTo(s, c, ApplyAccepted(s, c))
    ensures c.RunStepSelected? ==> StepsTo(s, c, ApplyStep(s, c))
    ensures c.RunAttempt? ==> StepsTo(s, c, ApplyAttempt(s, c))
    ensures c.RunCancel? ==> StepsTo(s, c, ApplyCancel(s, c))
    ensures c.RunCheckpoint? ==> StepsTo(s, c, ApplyCheckpoint(s, c))
    ensures c.RunFinished? ==> StepsTo(s, c, ApplyFinished(s, c))
    ensures c.QueueAdded? ==> StepsTo(s, c, ApplyQueueAdded(s, c))
    ensures c.QueueClaimed? ==> StepsTo(s, c, ApplyQueueClaimed(s, c))
    ensures c.QueueFinished? ==> StepsTo(s, c, ApplyQueueFinished(s, c))
    ensures c.ToolPrepared? ==> StepsTo(s, c, ApplyPrepared(s, c))
    ensures c.ToolDispatched? ==> StepsTo(s, c, ApplyDispatched(s, c))
    ensures c.ToolInDoubt? ==> StepsTo(s, c, ApplyInDoubt(s, c))
    ensures c.ToolRecoveryStarted? ==> StepsTo(s, c, ApplyRecovery(s, c))
    ensures c.ToolFinished? ==> StepsTo(s, c, ApplyToolFinished(s, c))
    ensures c.ToolReconciled? ==> StepsTo(s, c, ApplyReconciled(s, c))
    ensures c.ToolResolved? ==> StepsTo(s, c, ApplyResolved(s, c))
    ensures c.RenameSession? ==> StepsTo(s, c, Some(s.(state := s.state.(name := c.name))))
  {
    hide ApplyNode, ApplyHead, ApplyLabel, ApplyAccepted, ApplyStep, ApplyAttempt, ApplyCancel, ApplyCheckpoint;
    hide ApplyFinished, ApplyQueueAdded;
    hide ApplyQueueClaimed, ApplyQueueFinished, ApplyPrepared, ApplyDispatched, ApplyInDoubt, ApplyRecovery;
    hide ApplyToolFinished, ApplyReconciled, ApplyResolved;
    InvParts(s);
    NodesFormForest(s.state);
  }

  lemma NodesFormForest(s: State)
    requires NodesOk(s.nodes, s.branch.head, s.operations.Keys)
    ensures Forest(s.nodes)
  {
  }

  lemma TailOfAll(changes: seq<Change>)
    ensures changes[0..] == changes
  {
  }

  lemma TailOf(changes: seq<Change>, i: nat)
    requires WellFormedAll(changes) && i < |changes|
    ensures changes[i..] != [] && changes[i..][0] == changes[i] && changes[i..][1..] == changes[i + 1..]
    ensures WellFormedChange(changes[i])
  {
  }

  lemma StepsFrom(s: Session, cs: seq<Change>, outcome: Option<Session>)
    requires cs != [] && StepsTo(s, cs[0], outcome)
    ensures Step(s, cs[0]) == outcome
    ensures Steps(s, cs) == if outcome.None? then None else Steps(outcome.value, cs[1..])
  {
    hide Step;
  }

  /** A well-formed, new commit with the next sequence number. */
  predicate Offered(s: Session, commit: Commit) {
    WellFormed(commit) && commit.commitId !in s.state.commits && commit.sequence == s.state.sequence + 1
  }

  lemma TransitionIs(s: Session, commit: Commit)
    requires Offered(s, commit)
    ensures WellFormedAll(commit.changes)
    ensures Steps(s, commit.changes) == None ==> Transition(s, commit) == Rejected
    ensures forall t :: Steps(s, commit.changes) == Some(t) ==>
      Transition(s, commit) == if PromptsClaimed(t, commit.changes)
        then Applied(Reducer.Record(t, commit)) else Rejected
  {
    hide Steps, PromptsClaimed, Reducer.Record;
  }

  lemma NotOffered(s: Session, commit: Commit)
    requires !Offered(s, commit)
    ensures Transition(s, commit) == if WellFormed(commit) && Get(s.state.commits, commit.commitId) == Some(commit)
      then Duplicate else Rejected
  {
    hide Steps, WellFormed;
  }

  lemma ProtectedParts(undo: seq<Undo>, edited: set<Journals.Record>, m: Memory, base: Memory)
    requires Protects(undo, edited, m, base)
    ensures Restores(RevertAll(undo, m), base) && KnownRecords(undo, m.contents)
  {
  }

  lemma RevertOne(undo: seq<Undo>, i: nat, m: Memory)
    requires i < |undo|
    ensures RevertAll(undo[..i + 1], m) == RevertAll(undo[..i], Undone(undo[i], m))
  {
    assert undo[..i + 1][..i] == undo[..i];
  }

  lemma KnownAfter(undo: seq<Undo>, i: nat, m: Memory)
    requires i < |undo| && KnownRecords(undo, m.contents)
    ensures undo[i].Restore? ==> undo[i].record in m.contents
    ensures KnownRecords(undo, Undone(undo[i], m).contents)
  {
    hide Undone;
    UndoneKeys(undo[i], m);
  }

  lemma RestoredView(header: Header, branch: Journals.Record, m: Memory, base: Memory)
    requires Sound(branch, base) && Restores(m, base)
    ensures Sound(branch, m) && View(header, branch, m) == View(header, branch, base)
  {
    assert RunsShown(m.runs, m.contents) == RunsShown(base.runs, base.contents);
    assert EntriesShown(m.queue, m.contents) == EntriesShown(base.queue, base.contents);
    assert EffectsShown(m.effects, m.contents) == EffectsShown(base.effects, base.contents);
  }

  lemma RestoresItself(m: Memory)
    ensures Restores(m, m)
  {
  }

  datatype Verdict = Denied | Repeated | Admitted

  function Judged(outcome: Outcome): Verdict {
    match outcome
    case Rejected => Denied
    case Duplicate => Repeated
    case Applied(_) => Admitted
  }
}
