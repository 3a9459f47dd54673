/** What holds of every reachable session. */
module Invariant {
  import opened Options
  import opened SessionTypes
  import opened Reducer
  import opened Paths

  // ----- every record is filed under its own id -----

  ghost predicate Keyed(s: State) {
    && (forall n :: n in s.nodes ==> s.nodes[n].id == n)
    && (forall p :: p in s.operations ==> s.operations[p].id == p)
    && (forall q :: q in s.queue ==> s.queue[q].id == q)
    && (forall e :: e in s.effects ==> s.effects[e].id == e)
  }

  // ----- what the indexes must say: the pairs that a rebuild collects -----

  type Claim = (Id, Owner)

  ghost function Maybe(id: Option<Id>, owner: Owner): set<Claim> {
    if id.Some? then {(id.value, owner)} else {}
  }

  ghost function OperationClaims(p: Operation): set<Claim> {
    {(p.id, OperationOwner)}
    + Maybe(p.prompt, PromptOwner)
    + (set i | 0 <= i < |p.attempts| :: (p.attempts[i].id, AttemptOwner))
    + Maybe(if p.cancel.Some? then Some(p.cancel.value.id) else None, CancelOwner)
  }

  ghost function EntryClaims(q: QueueEntry): set<Claim> {
    {(q.id, EntryOwner), (q.target, TargetOwner)}
  }

  ghost function EffectClaims(e: Effect): set<Claim> {
    {(e.id, EffectOwner), (e.invocation, InvocationOwner), (e.result, ResultOwner)}
    + (set i | 0 <= i < |e.dispatches| :: (e.dispatches[i], DispatchOwner))
    + Maybe(e.recovery, RecoveryOwner)
    + Maybe(e.settlement, SettlementOwner)
  }

  ghost function NodeClaims(nodes: map<Id, Node>): set<Claim> {
    set n | n in nodes :: (n, NodeOwner)
  }

  ghost function RunClaims(operations: map<Id, Operation>): set<Claim> {
    set p, c | p in operations && c in OperationClaims(operations[p]) :: c
  }

  ghost function CheckpointClaims(checkpoints: map<Id, Checkpoint>): set<Claim> {
    set c | c in checkpoints :: (c, CheckpointOwner)
  }

  ghost function QueueClaims(queue: map<Id, QueueEntry>): set<Claim> {
    set q, c | q in queue && c in EntryClaims(queue[q]) :: c
  }

  ghost function ToolClaims(effects: map<Id, Effect>): set<Claim> {
    set e, c | e in effects && c in EffectClaims(effects[e]) :: c
  }

  ghost function OwnerPairs(s: State): set<Claim> {
    NodeClaims(s.nodes) + RunClaims(s.operations) + CheckpointClaims(s.checkpoints) + QueueClaims(s.queue)
    + ToolClaims(s.effects)
  }

  ghost function TargetPairs(queue: map<Id, QueueEntry>): set<(Id, Id)> {
    set q | q in queue :: (queue[q].target, q)
  }

  ghost function PromptPairs(operations: map<Id, Operation>): set<(Id, Id)> {
    set p | p in operations && operations[p].prompt.Some? :: (operations[p].prompt.value, p)
  }

  ghost function ResultPairs(effects: map<Id, Effect>): set<(Id, Id)> {
    set e | e in effects :: (effects[e].result, e)
  }

  ghost function EntryPairs(queue: map<Id, QueueEntry>): set<(Id, Id)> {
    set q | q in queue && queue[q].operation.Some? :: (queue[q].operation.value, q)
  }

  ghost function EffectPairs(effects: map<Id, Effect>): set<(Id, Id)> {
    set e | e in effects :: (effects[e].operation, e)
  }

  ghost function CallPairs(effects: map<Id, Effect>): set<(Id, string)> {
    set e | e in effects :: (effects[e].operation, effects[e].call)
  }

  ghost predicate Lists<T(!new)>(m: Sets<T>, pairs: set<(string, T)>) {
    && (forall k, v :: v in SetAt(m, k) <==> (k, v) in pairs)
    && (forall k :: k in m ==> m[k] != {})
  }

  ghost predicate Maps(m: map<Id, Id>, pairs: set<(Id, Id)>) {
    forall k, v :: (k in m && m[k] == v) <==> (k, v) in pairs
  }

  /** The seven indexes hold exactly what a rebuild from the state collects. */
  ghost predicate Indexed(s: Session) {
    && Lists(s.ix.owners, OwnerPairs(s.state))
    && Maps(s.ix.entryByTarget, TargetPairs(s.state.queue))
    && Maps(s.ix.operationByPrompt, PromptPairs(s.state.operations))
    && Lists(s.ix.effectsByResult, ResultPairs(s.state.effects))
    && Lists(s.ix.entriesByOperation, EntryPairs(s.state.queue))
    && Lists(s.ix.effectsByOperation, EffectPairs(s.state.effects))
    && Lists(s.ix.callsByOperation, CallPairs(s.state.effects))
  }

  lemma SetsAreDetermined<T(!new)>(a: Sets<T>, b: Sets<T>, pairs: set<(string, T)>)
    requires Lists(a, pairs) && Lists(b, pairs)
    ensures a == b
  {
    forall k ensures SetAt(a, k) == SetAt(b, k) {
      forall v ensures v in SetAt(a, k) <==> v in SetAt(b, k) {
        assert v in SetAt(a, k) <==> (k, v) in pairs;
      }
    }
    assert forall k :: k in a <==> SetAt(a, k) != {};
    assert forall k :: k in b <==> SetAt(b, k) != {};
    forall k | k in a ensures k in b && a[k] == b[k] {
      assert SetAt(a, k) == SetAt(b, k);
    }
    forall k | k in b ensures k in a {
      assert SetAt(a, k) == SetAt(b, k);
    }
  }

  lemma MapIsDetermined(a: map<Id, Id>, b: map<Id, Id>, pairs: set<(Id, Id)>)
    requires Maps(a, pairs) && Maps(b, pairs)
    ensures a == b
  {
    forall k | k in a ensures k in b && a[k] == b[k] {
      assert (k, a[k]) in pairs;
    }
    forall k | k in b ensures k in a {
      assert (k, b[k]) in pairs;
    }
  }

  /** A state has only one correct set of indexes. */
  lemma IndexesAreDetermined(state: State, a: Indexes, b: Indexes)
    requires Indexed(Session(state, a)) && Indexed(Session(state, b))
    ensures a == b
  {
    SetsAreDetermined(a.owners, b.owners, OwnerPairs(state));
    MapIsDetermined(a.entryByTarget, b.entryByTarget, TargetPairs(state.queue));
    MapIsDetermined(a.operationByPrompt, b.operationByPrompt, PromptPairs(state.operations));
    SetsAreDetermined(a.effectsByResult, b.effectsByResult, ResultPairs(state.effects));
    SetsAreDetermined(a.entriesByOperation, b.entriesByOperation, EntryPairs(state.queue));
    SetsAreDetermined(a.effectsByOperation, b.effectsByOperation, EffectPairs(state.effects));
    SetsAreDetermined(a.callsByOperation, b.callsByOperation, CallPairs(state.effects));
  }

  // ----- ids -----

  /** The ways in which one id may be owned. */
  ghost predicate Compatible(owners: set<Owner>) {
    || (forall a, b :: a in owners && b in owners ==> a == b)
    || owners <= {NodeOwner, TargetOwner, PromptOwner}
    || owners <= {NodeOwner, ResultOwner}
    || owners <= {RecoveryOwner, SettlementOwner}
  }

  ghost predicate IdsOwned(ix: Indexes) {
    forall id :: Compatible(SetAt(ix.owners, id))
  }

  // ----- queue -----

  ghost predicate IsPending(q: QueueEntry) {
    q.status.Queued? || q.status.Claimed?
  }

  /** A pending list holds, without repeats, exactly the queued and claimed entries of its kind. */
  ghost predicate PendingExact(queue: map<Id, QueueEntry>, pending: Pending, kind: QueueKind) {
    && Distinct(pending.Of(kind))
    && (forall q :: q in pending.Of(kind) <==> q in queue && queue[q].kind == kind && IsPending(queue[q]))
  }

  ghost predicate IsFirst(pending: Pending, q: QueueEntry) {
    |pending.Of(q.kind)| > 0 && pending.Of(q.kind)[0] == q.id
  }

  ghost predicate EntryOk(nodes: map<Id, Node>, operations: set<Id>, branch: Branch, q: QueueEntry) {
    && (q.status.Queued? ==> q.operation.None?)
    && (q.status.Claimed? ==> q.operation.Some? && branch.open == q.operation && IsFirst(branch.pending, q))
    && (q.operation.Some? ==> q.operation.value in operations)
    && (q.target in nodes ==> q.operation.Some? && nodes[q.target].operation == q.operation)
    && (q.status == Ended(Consumed) ==> q.target in nodes)
    && (q.status.Ended? <==> q.finishedAt.Some?)
  }

  ghost predicate QueueOk(
    nodes: map<Id, Node>, operations: set<Id>, branch: Branch, queue: map<Id, QueueEntry>)
  {
    && (forall kind :: PendingExact(queue, branch.pending, kind))
    && (forall q :: q in queue ==> EntryOk(nodes, operations, branch, queue[q]))
  }

  /** A queued entry whose target is some operation's prompt belongs to the open operation. */
  ghost predicate QueuedPromptsOpen(
    open: Option<Id>, operations: map<Id, Operation>, queue: map<Id, QueueEntry>)
  {
    forall q, p ::
      (q in queue && p in operations && queue[q].status.Queued? && operations[p].prompt == Some(queue[q].target))
      ==> open == Some(p)
  }

  // ----- runs -----

  ghost predicate PromptPlaced(nodes: map<Id, Node>, p: Operation) {
    p.prompt.Some? && p.prompt.value in nodes ==>
      && nodes[p.prompt.value].operation == Some(p.id)
      && Linked(nodes, p.prompt, p.source, Some(p.id))
  }

  ghost predicate StepsOk(p: Operation) {
    && (forall i :: 0 <= i < |p.steps| ==> p.steps[i].step == i)
    && (forall i :: 0 <= i < |p.attempts| ==> p.attempts[i].step < |p.steps|)
  }

  ghost predicate RunOk(nodes: map<Id, Node>, open: Option<Id>, p: Operation) {
    && (open == Some(p.id) <==> !p.status.Finished?)
    && (p.status.Finished? <==> p.finishedAt.Some?)
    && (p.status == Finished(Completed) ==> p.cancel.None?)
    && (p.status == Finished(RunCancelled) ==> p.cancel.Some?)
    && (p.status.Finished? ==> Known(nodes, p.prompt))
    && Known(nodes, p.source)
    && (p.prompt.Some? ==> p.prompt != p.source)
    && StepsOk(p)
    && PromptPlaced(nodes, p)
  }

  ghost predicate RunsOk(nodes: map<Id, Node>, open: Option<Id>, operations: map<Id, Operation>) {
    && (open.Some? ==> open.value in operations)
    && (forall p :: p in operations ==> RunOk(nodes, open, operations[p]))
  }

  // ----- tool effects -----

  ghost predicate InDoubtOrRecovering(e: Effect) {
    e.status.InDoubt? || e.status.RecoveryStarted?
  }

  /** How often an effect may have been dispatched. */
  ghost predicate DispatchBound(e: Effect) {
    |e.dispatches| <= if e.policy.Repeatable? then 2 else 1
  }

  ghost predicate LifeOk(e: Effect) {
    && DispatchBound(e)
    && (e.status.Prepared? ==> |e.dispatches| == 0)
    && (e.status.Dispatched? ==> |e.dispatches| > 0)
    && (e.output.Some? <==> e.status.Succeeded? || e.status.Failed?)
    && (e.finishedAt.Some? <==> Terminal(e.status))
    && (e.inDoubtAt.Some? <==> InDoubtOrRecovering(e))
    && (e.inDoubtDetail.Some? ==> InDoubtOrRecovering(e))
    && (e.status.RecoveryStarted? ==> e.policy.Reconcile? && e.recovery.Some?)
    && (e.recovery.Some? ==> e.policy.Reconcile? && (e.status.RecoveryStarted? || Terminal(e.status)))
    && (e.settlement.Some? ==> Terminal(e.status))
  }

  ghost predicate ResultPlaced(nodes: map<Id, Node>, e: Effect) {
    e.result in nodes ==>
      && IsToolMessage(nodes[e.result])
      && nodes[e.result].operation == Some(e.operation)
      && Linked(nodes, nodes[e.result].parent, Some(e.assistant), Some(e.operation))
  }

  /** What an effect and its operation agree on. */
  ghost predicate EffectFits(nodes: map<Id, Node>, p: Operation, e: Effect) {
    && e.step < |p.steps|
    && e.fingerprint == p.steps[e.step].selection.fingerprint
    && (p.cancel.Some? ==> !e.status.Prepared?)
    && (p.status.Finished? ==> Terminal(e.status) && e.result in nodes)
  }

  ghost predicate EffectOk(nodes: map<Id, Node>, operations: map<Id, Operation>, e: Effect) {
    && LifeOk(e)
    && e.operation in operations && EffectFits(nodes, operations[e.operation], e)
    && e.assistant in nodes
    && nodes[e.assistant].operation == Some(e.operation)
    && ResultPlaced(nodes, e)
  }

  ghost predicate ReservationsAgree(effects: map<Id, Effect>) {
    forall e, f :: (e in effects && f in effects && effects[e].result == effects[f].result) ==>
      SameReservation(effects[e], effects[f])
  }

  ghost predicate EffectsOk(nodes: map<Id, Node>, operations: map<Id, Operation>, effects: map<Id, Effect>) {
    && (forall e :: e in effects ==> EffectOk(nodes, operations, effects[e]))
    && ReservationsAgree(effects)
  }

  // ----- conversation -----

  /** The retained nodes of a compaction lie on its parent's path, from root to leaf. */
  ghost predicate RetainedInOrder(nodes: map<Id, Node>, node: Node) {
    node.body.Compaction? ==>
      var retained := node.body.retained;
      && (forall i :: 0 <= i < |retained| ==>
            retained[i] in nodes && node.parent.Some? && Linked(nodes, node.parent, Some(retained[i]), None))
      && (forall i, j :: 0 <= i < j < |retained| ==>
            Linked(nodes, Some(retained[j]), Some(retained[i]), None))
  }

  ghost predicate NodeOk(nodes: map<Id, Node>, operations: set<Id>, node: Node) {
    && RetainedInOrder(nodes, node)
    && (node.operation.Some? ==> node.operation.value in operations)
  }

  ghost predicate NodesOk(nodes: map<Id, Node>, head: Option<Id>, operations: set<Id>) {
    && Forest(nodes)
    && Known(nodes, head)
    && (forall n :: n in nodes ==> NodeOk(nodes, operations, nodes[n]))
  }

  ghost predicate StateOk(s: State) {
    && Keyed(s)
    && NodesOk(s.nodes, s.branch.head, s.operations.Keys)
    && RunsOk(s.nodes, s.branch.open, s.operations)
    && QueueOk(s.nodes, s.operations.Keys, s.branch, s.queue)
    && QueuedPromptsOpen(s.branch.open, s.operations, s.queue)
    && EffectsOk(s.nodes, s.operations, s.effects)
  }

  ghost predicate Inv(s: Session) {
    && StateOk(s.state)
    && Indexed(s)
    && IdsOwned(s.ix)
  }
}
