/** How a later session relates to an earlier one: what can never be taken back. */
module Evolution {
  import opened Options
  import opened CanonicalJson
  import opened SessionTypes
  import opened Reducer
  import opened Paths
  import opened Invariant

  ghost predicate Prefix<T>(s: seq<T>, t: seq<T>) {
    |s| <= |t| && t[..|s|] == s
  }

  ghost predicate RunEvolves(p: Operation, q: Operation) {
    && q.id == p.id && q.prompt == p.prompt && q.source == p.source && q.acceptedAt == p.acceptedAt
    && q.request == p.request && q.selection == p.selection
    && Prefix(p.steps, q.steps) && Prefix(p.attempts, q.attempts) && Prefix(p.checkpoints, q.checkpoints)
    && (p.cancel.Some? ==> q.cancel == p.cancel && q.steps == p.steps && q.attempts == p.attempts)
    && (p.status.Finished? ==> q == p)
  }

  ghost predicate EffectEvolves(e: Effect, f: Effect) {
    && f.id == e.id && f.operation == e.operation && f.invocation == e.invocation && f.call == e.call
    && f.tool == e.tool && f.policy == e.policy && f.input == e.input && f.inputHash == e.inputHash
    && f.result == e.result && f.step == e.step && f.index == e.index && f.assistant == e.assistant
    && f.fingerprint == e.fingerprint && f.preparedAt == e.preparedAt
    && Prefix(e.dispatches, f.dispatches)
    && (e.recovery.Some? ==> f.recovery == e.recovery)
    && (Terminal(e.status) ==> f == e)
  }

  ghost predicate EntryEvolves(q: QueueEntry, r: QueueEntry) {
    && r.id == q.id && r.target == q.target && r.kind == q.kind && r.addedAt == q.addedAt && r.message == q.message
    && (q.operation.Some? ==> r.operation == q.operation)
    && (!q.status.Queued? ==> !r.status.Queued?)
    && (q.status.Ended? ==> r == q)
  }

  /** An operation that takes no further effects or dispatches. */
  ghost predicate Quiet(p: Operation) {
    p.cancel.Some? || p.status.Finished?
  }

  ghost predicate RunsEvolve(s: map<Id, Operation>, t: map<Id, Operation>) {
    forall p :: p in s ==> p in t && RunEvolves(s[p], t[p])
  }

  ghost predicate EffectsEvolve(s: map<Id, Effect>, t: map<Id, Effect>) {
    forall e :: e in s ==> e in t && EffectEvolves(s[e], t[e])
  }

  ghost predicate EntriesEvolve(s: map<Id, QueueEntry>, t: map<Id, QueueEntry>) {
    forall q :: q in s ==> q in t && EntryEvolves(s[q], t[q])
  }

  ghost predicate CheckpointsKept(s: map<Id, Checkpoint>, t: map<Id, Checkpoint>) {
    forall c :: c in s ==> c in t && t[c] == s[c]
  }

  /** Operations that were quiet have gained no effects and no dispatches. */
  ghost predicate QuietKept(operations: map<Id, Operation>, s: map<Id, Effect>, t: map<Id, Effect>) {
    forall e :: (e in t && t[e].operation in operations && Quiet(operations[t[e].operation])) ==>
      e in s && t[e].dispatches == s[e].dispatches
  }

  ghost predicate Evolves(s: State, t: State) {
    && Extends(s.nodes, t.nodes)
    && RunsEvolve(s.operations, t.operations)
    && EffectsEvolve(s.effects, t.effects)
    && EntriesEvolve(s.queue, t.queue)
    && CheckpointsKept(s.checkpoints, t.checkpoints)
    && QuietKept(s.operations, s.effects, t.effects)
  }

  lemma PrefixIsTransitive<T>(a: seq<T>, b: seq<T>, c: seq<T>)
    requires Prefix(a, b) && Prefix(b, c)
    ensures Prefix(a, c)
  {
    assert c[..|a|] == c[..|b|][..|a|];
  }

  lemma RunEvolvesOn(p: Operation, q: Operation, r: Operation)
    requires RunEvolves(p, q) && RunEvolves(q, r)
    ensures RunEvolves(p, r)
  {
    PrefixIsTransitive(p.steps, q.steps, r.steps);
    PrefixIsTransitive(p.attempts, q.attempts, r.attempts);
    PrefixIsTransitive(p.checkpoints, q.checkpoints, r.checkpoints);
  }

  lemma RunsEvolveOn(s: map<Id, Operation>, t: map<Id, Operation>, u: map<Id, Operation>)
    requires RunsEvolve(s, t) && RunsEvolve(t, u)
    ensures RunsEvolve(s, u)
  {
    forall p | p in s ensures p in u && RunEvolves(s[p], u[p]) {
      RunEvolvesOn(s[p], t[p], u[p]);
    }
  }

  lemma EffectsEvolveOn(s: map<Id, Effect>, t: map<Id, Effect>, u: map<Id, Effect>)
    requires EffectsEvolve(s, t) && EffectsEvolve(t, u)
    ensures EffectsEvolve(s, u)
  {
    forall e | e in s ensures e in u && EffectEvolves(s[e], u[e]) {
      PrefixIsTransitive(s[e].dispatches, t[e].dispatches, u[e].dispatches);
    }
  }

  lemma QuietKeptOn(
    p: map<Id, Operation>, q: map<Id, Operation>, s: map<Id, Effect>, t: map<Id, Effect>, u: map<Id, Effect>)
    requires RunsEvolve(p, q) && EffectsEvolve(t, u) && QuietKept(p, s, t) && QuietKept(q, t, u)
    ensures QuietKept(p, s, u)
  {
    forall e | e in u && u[e].operation in p && Quiet(p[u[e].operation])
      ensures e in s && u[e].dispatches == s[e].dispatches
    {
      var o := u[e].operation;
      assert RunEvolves(p[o], q[o]);
      assert e in t && EffectEvolves(t[e], u[e]);
    }
  }

  lemma EvolvesOn(s: State, t: State, u: State)
    requires Evolves(s, t) && Evolves(t, u)
    ensures Evolves(s, u)
  {
    RunsEvolveOn(s.operations, t.operations, u.operations);
    EffectsEvolveOn(s.effects, t.effects, u.effects);
    QuietKeptOn(s.operations, t.operations, s.effects, t.effects, u.effects);
  }

  lemma EvolvesToItself(s: State)
    ensures Evolves(s, s)
  {
  }

  // ----- the shape of each kind of step -----

  predicate IsEffectUpdate(c: Change) {
    c.ToolDispatched? || c.ToolInDoubt? || c.ToolRecoveryStarted? || c.ToolFinished? || c.ToolReconciled?
    || c.ToolResolved?
  }

  predicate IsRunUpdate(c: Change) {
    c.RunStepSelected? || c.RunAttempt? || c.RunCheckpoint? || c.RunFinished?
  }

  /** Only effect `id` of the open operation has changed, and it has moved forward. */
  ghost predicate EffectUpdated(s: State, t: State, id: Id) {
    && id in s.effects && id in t.effects
    && t == s.(effects := s.effects[id := t.effects[id]])
    && var e, f := s.effects[id], t.effects[id];
       && e.operation in s.operations && s.branch.open == Some(e.operation)
       && Advanced(e, f)
       && (f.dispatches != e.dispatches ==> s.operations[e.operation].cancel.None?)
  }

  /** An effect has moved forward in its life cycle. */
  ghost predicate Advanced(e: Effect, f: Effect) {
    EffectEvolves(e, f) && LifeOk(f) && !Terminal(e.status) && !f.status.Prepared?
  }

  lemma DispatchAdvances(p: Operation, e: Effect, dispatchId: Id, at: Time)
    requires LifeOk(e) && DispatchAllowed(p, e)
    ensures Advanced(e, Dispatch(e, dispatchId, at))
  {
  }

  lemma DoubtAdvances(e: Effect, at: Time, detail: Option<Json>)
    requires LifeOk(e) && e.status.Dispatched?
    ensures Advanced(e, Doubt(e, at, detail))
  {
  }

  lemma RecoveryAdvances(e: Effect, recoveryId: Id, at: Time)
    requires LifeOk(e) && e.status.InDoubt? && e.policy.Reconcile? && e.recovery.None?
    ensures Advanced(e, StartRecovery(e, recoveryId, at))
  {
  }

  ghost predicate OutputFits(settled: EffectStatus, output: Option<Json>) {
    Terminal(settled) && (output.Some? <==> settled.Succeeded? || settled.Failed?)
  }

  lemma CompleteAdvances(e: Effect, settled: EffectStatus, at: Time, output: Option<Json>)
    requires LifeOk(e) && !Terminal(e.status) && OutputFits(settled, output)
    ensures Advanced(e, Complete(e, settled, at, output))
  {
  }

  lemma SettleAdvances(
    e: Effect, settlement: Id, cancelledBy: Option<Id>, settled: EffectStatus, at: Time, output: Option<Json>)
    requires LifeOk(e) && !Terminal(e.status) && OutputFits(settled, output)
    ensures Advanced(e, Settle(e, settlement, cancelledBy, settled, at, output))
  {
    CompleteAdvances(e, settled, at, output);
  }

  lemma DispatchedStep(s: Session, c: Change)
    requires c.ToolDispatched? && Keyed(s.state) && ApplyDispatched(s, c).Some?
    requires LifeOk(s.state.effects[c.effectId])
    ensures EffectUpdated(s.state, ApplyDispatched(s, c).value.state, c.effectId)
    ensures ApplyDispatched(s, c).value.state.effects[c.effectId].dispatches
      == s.state.effects[c.effectId].dispatches + [c.dispatchId]
  {
    var e := s.state.effects[c.effectId];
    DispatchAdvances(s.state.operations[e.operation], e, c.dispatchId, c.dispatchedAt);
  }

  lemma InDoubtStep(s: Session, c: Change)
    requires c.ToolInDoubt? && Keyed(s.state) && ApplyInDoubt(s, c).Some?
    requires LifeOk(s.state.effects[c.effectId])
    ensures EffectUpdated(s.state, ApplyInDoubt(s, c).value.state, c.effectId)
    ensures ApplyInDoubt(s, c).value.state.effects[c.effectId].dispatches == s.state.effects[c.effectId].dispatches
  {
    var e := s.state.effects[c.effectId];
    DoubtAdvances(e, c.noticedAt, c.detail);
  }

  lemma RecoveryStep(s: Session, c: Change)
    requires c.ToolRecoveryStarted? && Keyed(s.state) && ApplyRecovery(s, c).Some?
    requires LifeOk(s.state.effects[c.effectId])
    ensures EffectUpdated(s.state, ApplyRecovery(s, c).value.state, c.effectId)
    ensures ApplyRecovery(s, c).value.state.effects[c.effectId].dispatches == s.state.effects[c.effectId].dispatches
  {
    var e := s.state.effects[c.effectId];
    RecoveryAdvances(e, c.recoveryId, c.startedAt);
  }

  lemma ToolFinishedStep(s: Session, c: Change)
    requires c.ToolFinished? && WellFormedChange(c) && Keyed(s.state) && ApplyToolFinished(s, c).Some?
    requires LifeOk(s.state.effects[c.effectId])
    ensures EffectUpdated(s.state, ApplyToolFinished(s, c).value.state, c.effectId)
    ensures ApplyToolFinished(s, c).value.state.effects[c.effectId].dispatches == s.state.effects[c.effectId].dispatches
  {
    var e := s.state.effects[c.effectId];
    CompleteAdvances(e, c.settled, c.finishedAt, c.output);
  }

  lemma ReconciledStep(s: Session, c: Change)
    requires c.ToolReconciled? && WellFormedChange(c) && Keyed(s.state) && ApplyReconciled(s, c).Some?
    requires LifeOk(s.state.effects[c.effectId])
    ensures EffectUpdated(s.state, ApplyReconciled(s, c).value.state, c.effectId)
    ensures ApplyReconciled(s, c).value.state.effects[c.effectId].dispatches == s.state.effects[c.effectId].dispatches
  {
    var e := s.state.effects[c.effectId];
    SettleAdvances(e, c.reconciliationId, e.cancelledBy, c.settled, c.resolvedAt, c.output);
  }

  lemma ResolvedStep(s: Session, c: Change)
    requires c.ToolResolved? && WellFormedChange(c) && Keyed(s.state) && ApplyResolved(s, c).Some?
    requires LifeOk(s.state.effects[c.effectId])
    ensures EffectUpdated(s.state, ApplyResolved(s, c).value.state, c.effectId)
    ensures ApplyResolved(s, c).value.state.effects[c.effectId].dispatches == s.state.effects[c.effectId].dispatches
  {
    var e := s.state.effects[c.effectId];
    var canceller := Canceller(s.state.operations[e.operation], e);
    SettleAdvances(e, c.resolutionId, canceller, c.settled, c.resolvedAt, c.output);
  }

  /** Only the open operation has changed, and it has moved forward. */
  ghost predicate RunUpdated(s: State, t: State, p: Id) {
    && p in s.operations && p in t.operations && s.branch.open == Some(p)
    && t == s.(
         operations := s.operations[p := t.operations[p]], checkpoints := t.checkpoints,
         branch := s.branch.(open := t.branch.open))
    && RunEvolves(s.operations[p], t.operations[p])
    && !s.operations[p].status.Finished?
    && CheckpointsKept(s.checkpoints, t.checkpoints)
  }

  lemma RunSelectStep(s: Session, c: Change)
    requires c.RunStepSelected? && Keyed(s.state) && ApplyStep(s, c).Some?
    requires !s.state.operations[c.operation].status.Finished?
    ensures RunUpdated(s.state, ApplyStep(s, c).value.state, c.operation)
  {
  }

  lemma RunAttemptStep(s: Session, c: Change)
    requires c.RunAttempt? && Keyed(s.state) && ApplyAttempt(s, c).Some?
    requires !s.state.operations[c.operation].status.Finished?
    ensures RunUpdated(s.state, ApplyAttempt(s, c).value.state, c.operation)
  {
  }

  lemma RunCheckpointStep(s: Session, c: Change)
    requires c.RunCheckpoint? && Keyed(s.state) && Indexed(s) && ApplyCheckpoint(s, c).Some?
    requires !s.state.operations[c.operation].status.Finished?
    ensures RunUpdated(s.state, ApplyCheckpoint(s, c).value.state, c.operation)
  {
    FreshIsUnowned(s, c.checkpointId);
  }

  lemma RunFinishedStep(s: Session, c: Change)
    requires c.RunFinished? && Keyed(s.state) && ApplyFinished(s, c).Some?
    requires !s.state.operations[c.operation].status.Finished?
    ensures RunUpdated(s.state, ApplyFinished(s, c).value.state, c.operation)
  {
  }

  lemma RunIsUnfinished(s: State, p: Id)
    requires RunsOk(s.nodes, s.branch.open, s.operations) && Keyed(s) && OpenOperation(s, p).Some?
    ensures !s.operations[p].status.Finished?
  {
    assert RunOk(s.nodes, s.branch.open, s.operations[p]);
  }

  lemma FreshIsUnowned(s: Session, id: Id)
    requires Keyed(s.state) && Indexed(s) && Fresh(s.ix, id)
    ensures forall owner :: (id, owner) !in OwnerPairs(s.state)
    ensures id !in s.state.nodes && id !in s.state.operations && id !in s.state.checkpoints
    ensures id !in s.state.queue && id !in s.state.effects
  {
    forall owner ensures (id, owner) !in OwnerPairs(s.state) {
      assert owner !in SetAt(s.ix.owners, id);
    }
    assert id in s.state.nodes ==> (id, NodeOwner) in OwnerPairs(s.state);
    assert id in s.state.checkpoints ==> (id, CheckpointOwner) in OwnerPairs(s.state);
    assert id in s.state.operations ==> (id, OperationOwner) in OperationClaims(s.state.operations[id]);
    assert id in s.state.queue ==> (id, EntryOwner) in EntryClaims(s.state.queue[id]);
    assert id in s.state.effects ==> (id, EffectOwner) in EffectClaims(s.state.effects[id]);
  }

  lemma NodeIsNew(s: Session, node: Node)
    requires Keyed(s.state) && Indexed(s) && NodeAllowed(s, node)
    ensures node.id !in s.state.nodes
  {
    if Fresh(s.ix, node.id) {
      FreshIsUnowned(s, node.id);
    }
  }

  lemma EffectUpdateEvolves(s: State, t: State, id: Id)
    requires EffectUpdated(s, t, id)
    requires !s.operations[s.effects[id].operation].status.Finished?
    ensures Evolves(s, t)
  {
    EvolvesToItself(s);
  }

  lemma RunUpdateEvolves(s: State, t: State, p: Id)
    requires RunUpdated(s, t, p)
    ensures Evolves(s, t)
  {
    EvolvesToItself(s);
  }

  /** What cancelling operation `p` makes of an effect. */
  ghost function AfterCancel(e: Effect, p: Id, c: Change): Effect
    requires c.RunCancel?
  {
    if e.operation == p then CancelEffect(e, c.cancelId, c.requestedAt) else e
  }

  lemma CancelledEffects(s: Session, c: Change)
    requires c.RunCancel? && ApplyCancel(s, c).Some? && s.state.operations[c.operation].id == c.operation
    requires Lists(s.ix.effectsByOperation, EffectPairs(s.state.effects))
    ensures ApplyCancel(s, c).value.state.effects
      == map e | e in s.state.effects :: AfterCancel(s.state.effects[e], c.operation, c)
  {
    forall e | e in s.state.effects
      ensures e in SetAt(s.ix.effectsByOperation, c.operation) <==> s.state.effects[e].operation == c.operation
    {
      assert e in SetAt(s.ix.effectsByOperation, c.operation) <==> (c.operation, e) in EffectPairs(s.state.effects);
    }
  }

  lemma CancelKeepsLife(e: Effect, p: Id, c: Change)
    requires c.RunCancel? && LifeOk(e)
    ensures var f := AfterCancel(e, p, c);
      && EffectEvolves(e, f) && LifeOk(f) && f.dispatches == e.dispatches
      && (e.operation == p ==> !f.status.Prepared?)
  {
  }

  lemma CancelEvolves(s: Session, c: Change)
    requires c.RunCancel? && ApplyCancel(s, c).Some? && s.state.operations[c.operation].id == c.operation
    requires Lists(s.ix.effectsByOperation, EffectPairs(s.state.effects))
    requires !s.state.operations[c.operation].status.Finished?
    requires forall e :: e in s.state.effects ==> LifeOk(s.state.effects[e])
    ensures Evolves(s.state, ApplyCancel(s, c).value.state)
  {
    hide EffectEvolves, AfterCancel, CancelEffect, Lists, Fresh, SetAt, Own;
    CancelledEffects(s, c);
    forall e | e in s.state.effects
      ensures EffectEvolves(s.state.effects[e], AfterCancel(s.state.effects[e], c.operation, c))
      ensures AfterCancel(s.state.effects[e], c.operation, c).dispatches == s.state.effects[e].dispatches
    {
      CancelKeepsLife(s.state.effects[e], c.operation, c);
    }
  }

  lemma AcceptedEvolves(s: Session, c: Change)
    requires c.RunAccepted? && c.operation !in s.state.operations && ApplyAccepted(s, c).Some?
    ensures Evolves(s.state, ApplyAccepted(s, c).value.state)
  {
    EvolvesToItself(s.state);
  }

  lemma PreparedShape(s: Session, c: Change)
    requires c.ToolPrepared? && ApplyPrepared(s, c).Some?
    ensures ApplyPrepared(s, c).value.state == s.state.(effects := s.state.effects[c.effectId := NewEffect(c)])
    ensures s.state.branch.open == Some(c.operation) && c.operation in s.state.operations
    ensures s.state.operations[c.operation].cancel.None?
  {
  }

  lemma EffectAdded(s: State, effect: Effect)
    requires effect.id !in s.effects
    requires effect.operation in s.operations && !Quiet(s.operations[effect.operation])
    ensures Evolves(s, s.(effects := s.effects[effect.id := effect]))
  {
    EvolvesToItself(s);
  }

  lemma QueueAddedEvolves(s: Session, c: Change)
    requires c.QueueAdded? && c.entryId !in s.state.queue && ApplyQueueAdded(s, c).Some?
    ensures Evolves(s.state, ApplyQueueAdded(s, c).value.state)
  {
    EvolvesToItself(s.state);
  }

  lemma QueueClaimedEvolves(s: Session, c: Change)
    requires c.QueueClaimed? && ApplyQueueClaimed(s, c).Some? && s.state.queue[c.entryId].operation.None?
    ensures Evolves(s.state, ApplyQueueClaimed(s, c).value.state)
  {
    EvolvesToItself(s.state);
  }

  lemma QueueFinishedEvolves(s: Session, c: Change)
    requires c.QueueFinished? && ApplyQueueFinished(s, c).Some?
    ensures Evolves(s.state, ApplyQueueFinished(s, c).value.state)
  {
    EvolvesToItself(s.state);
  }

  lemma LivesOk(s: State)
    requires EffectsOk(s.nodes, s.operations, s.effects)
    ensures forall e :: e in s.effects ==> LifeOk(s.effects[e])
  {
    forall e | e in s.effects ensures LifeOk(s.effects[e]) {
      assert EffectOk(s.nodes, s.operations, s.effects[e]);
    }
  }

  lemma NodeEvolves(s: Session, node: Node)
    requires node.id !in s.state.nodes && ApplyNode(s, node).Some?
    ensures Evolves(s.state, ApplyNode(s, node).value.state)
  {
    EvolvesToItself(s.state);
  }

  lemma AddNodeEvolves(s: Session, node: Node)
    requires Keyed(s.state) && Indexed(s) && ApplyNode(s, node).Some?
    ensures Evolves(s.state, ApplyNode(s, node).value.state)
  {
    NodeIsNew(s, node);
    NodeEvolves(s, node);
  }

  lemma MetadataEvolves(s: State, t: State)
    requires t == s.(branch := t.branch, name := t.name, labels := t.labels)
    ensures Evolves(s, t)
  {
    EvolvesToItself(s);
  }

  // ----- all changes -----

  /** Which part of the reducer a change goes to. */
  lemma StepCases(s: Session, c: Change, t: Session)
    requires Step(s, c) == Some(t)
    ensures c.AddNode? ==> ApplyNode(s, c.node) == Some(t)
    ensures c.MoveHead? ==> ApplyHead(s, c.head) == Some(t)
    ensures c.LabelNode? ==> ApplyLabel(s, c.labelled, c.title) == Some(t)
    ensures c.RunAccepted? ==> ApplyAccepted(s, c) == Some(t)
    ensures c.RunStepSelected? ==> ApplyStep(s, c) == Some(t)
    ensures c.RunAttempt? ==> ApplyAttempt(s, c) == Some(t)
    ensures c.RunCancel? ==> ApplyCancel(s, c) == Some(t)
    ensures c.RunCheckpoint? ==> ApplyCheckpoint(s, c) == Some(t)
    ensures c.RunFinished? ==> ApplyFinished(s, c) == Some(t)
    ensures c.QueueAdded? ==> ApplyQueueAdded(s, c) == Some(t)
    ensures c.QueueClaimed? ==> ApplyQueueClaimed(s, c) == Some(t)
    ensures c.QueueFinished? ==> ApplyQueueFinished(s, c) == Some(t)
    ensures c.ToolPrepared? ==> ApplyPrepared(s, c) == Some(t)
    ensures c.ToolDispatched? ==> ApplyDispatched(s, c) == Some(t)
    ensures c.ToolInDoubt? ==> ApplyInDoubt(s, c) == Some(t)
    ensures c.ToolRecoveryStarted? ==> ApplyRecovery(s, c) == Some(t)
    ensures c.ToolFinished? ==> ApplyToolFinished(s, c) == Some(t)
    ensures c.ToolReconciled? ==> ApplyReconciled(s, c) == Some(t)
    ensures c.ToolResolved? ==> ApplyResolved(s, c) == Some(t)
    ensures c.RenameSession? ==> t == s.(state := s.state.(name := c.name))
  {
    hide ApplyNode, ApplyHead, ApplyLabel, ApplyAccepted, ApplyStep, ApplyAttempt, ApplyCancel, ApplyCheckpoint;
    hide ApplyFinished, ApplyQueueAdded;
    hide ApplyQueueClaimed, ApplyQueueFinished, ApplyPrepared, ApplyDispatched, ApplyInDoubt, ApplyRecovery;
    hide ApplyToolFinished, ApplyReconciled, ApplyResolved;
  }

  lemma InvParts(s: Session)
    requires Inv(s)
    ensures StateOk(s.state) && Keyed(s.state) && Indexed(s) && IdsOwned(s.ix)
    ensures NodesOk(s.state.nodes, s.state.branch.head, s.state.operations.Keys)
    ensures RunsOk(s.state.nodes, s.state.branch.open, s.state.operations)
    ensures QueueOk(s.state.nodes, s.state.operations.Keys, s.state.branch, s.state.queue)
    ensures QueuedPromptsOpen(s.state.branch.open, s.state.operations, s.state.queue)
    ensures EffectsOk(s.state.nodes, s.state.operations, s.state.effects)
  {
  }

  lemma IndexParts(s: Session)
    requires Indexed(s)
    ensures Lists(s.ix.owners, OwnerPairs(s.state))
    ensures Maps(s.ix.entryByTarget, TargetPairs(s.state.queue))
    ensures Maps(s.ix.operationByPrompt, PromptPairs(s.state.operations))
    ensures Lists(s.ix.effectsByResult, ResultPairs(s.state.effects))
    ensures Lists(s.ix.entriesByOperation, EntryPairs(s.state.queue))
    ensures Lists(s.ix.effectsByOperation, EffectPairs(s.state.effects))
    ensures Lists(s.ix.callsByOperation, CallPairs(s.state.effects))
  {
  }

  /** The record that a change is about exists and is in good order. */
  lemma UpdatedEffect(s: Session, c: Change, t: Session)
    requires IsEffectUpdate(c) && Step(s, c) == Some(t)
    requires EffectsOk(s.state.nodes, s.state.operations, s.state.effects)
    ensures c.effectId in s.state.effects && LifeOk(s.state.effects[c.effectId])
    ensures OpenOperation(s.state, s.state.effects[c.effectId].operation).Some?
  {
    StepCases(s, c, t);
    hide Step;
    assert LiveEffect(s.state, c.effectId).Some?;
    assert EffectOk(s.state.nodes, s.state.operations, s.state.effects[c.effectId]);
  }

  lemma UpdatedRun(s: Session, c: Change, t: Session)
    requires IsRunUpdate(c) || c.RunCancel? || c.ToolPrepared?
    requires Keyed(s.state) && RunsOk(s.state.nodes, s.state.branch.open, s.state.operations)
    requires Step(s, c) == Some(t)
    ensures OpenOperation(s.state, c.operation).Some? && !s.state.operations[c.operation].status.Finished?
    ensures s.state.operations[c.operation].id == c.operation
  {
    StepCases(s, c, t);
    hide Step;
    assert OpenOperation(s.state, c.operation).Some?;
    RunIsUnfinished(s.state, c.operation);
  }

  lemma UpdatedEntry(s: Session, c: Change, t: Session)
    requires (c.QueueClaimed? || c.QueueFinished?) && Keyed(s.state) && Step(s, c) == Some(t)
    requires QueueOk(s.state.nodes, s.state.operations.Keys, s.state.branch, s.state.queue)
    ensures c.entryId in s.state.queue && s.state.queue[c.entryId].id == c.entryId
    ensures c.QueueClaimed? ==> s.state.queue[c.entryId].operation.None?
  {
    StepCases(s, c, t);
    hide Step;
    assert c.entryId in s.state.queue;
    assert EntryOk(s.state.nodes, s.state.operations.Keys, s.state.branch, s.state.queue[c.entryId]);
  }

  lemma EffectStep(s: Session, c: Change, t: Session)
    requires IsEffectUpdate(c) && WellFormedChange(c) && Keyed(s.state) && Step(s, c) == Some(t)
    requires EffectsOk(s.state.nodes, s.state.operations, s.state.effects)
    ensures EffectUpdated(s.state, t.state, c.effectId)
    ensures t.state.effects[c.effectId].dispatches
      == s.state.effects[c.effectId].dispatches + if c.ToolDispatched? then [c.dispatchId] else []
  {
    hide *;
    StepCases(s, c, t);
    UpdatedEffect(s, c, t);
    EffectUpdateIs(c);
    match c
    case ToolDispatched(_, _, _) => DispatchedStep(s, c);
    case ToolInDoubt(_, _, _) => InDoubtStep(s, c);
    case ToolRecoveryStarted(_, _, _) => RecoveryStep(s, c);
    case ToolFinished(_, _, _, _) => ToolFinishedStep(s, c);
    case ToolReconciled(_, _, _, _, _) => ReconciledStep(s, c);
    case ToolResolved(_, _, _, _, _) => ResolvedStep(s, c);
  }

  lemma EffectUpdateIs(c: Change)
    ensures IsEffectUpdate(c) <==>
      (c.ToolDispatched? || c.ToolInDoubt? || c.ToolRecoveryStarted? || c.ToolFinished? || c.ToolReconciled?
       || c.ToolResolved?)
    ensures IsRunUpdate(c) <==> (c.RunStepSelected? || c.RunAttempt? || c.RunCheckpoint? || c.RunFinished?)
  {
  }

  lemma RunStep(s: Session, c: Change, t: Session)
    requires IsRunUpdate(c) && Keyed(s.state) && Indexed(s) && Step(s, c) == Some(t)
    requires RunsOk(s.state.nodes, s.state.branch.open, s.state.operations)
    ensures RunUpdated(s.state, t.state, c.operation)
  {
    hide *;
    StepCases(s, c, t);
    EffectUpdateIs(c);
    UpdatedRun(s, c, t);
    match c
    case RunStepSelected(_, _, _, _) => RunSelectStep(s, c);
    case RunAttempt(_, _, _, _, _, _) => RunAttemptStep(s, c);
    case RunCheckpoint(_, _, _, _) => RunCheckpointStep(s, c);
    case RunFinished(_, _, _, _) => RunFinishedStep(s, c);
  }

  lemma EffectStepEvolves(s: Session, c: Change, t: Session)
    requires IsEffectUpdate(c) && WellFormedChange(c) && Keyed(s.state) && Step(s, c) == Some(t)
    requires RunsOk(s.state.nodes, s.state.branch.open, s.state.operations)
    requires EffectsOk(s.state.nodes, s.state.operations, s.state.effects)
    ensures Evolves(s.state, t.state)
  {
    hide *;
    EffectStep(s, c, t);
    UpdatedEffect(s, c, t);
    EffectUpdateIs(c);
    RunIsUnfinished(s.state, s.state.effects[c.effectId].operation);
    EffectUpdateEvolves(s.state, t.state, c.effectId);
  }

  lemma RunStepEvolves(s: Session, c: Change, t: Session)
    requires IsRunUpdate(c) && Keyed(s.state) && Indexed(s) && Step(s, c) == Some(t)
    requires RunsOk(s.state.nodes, s.state.branch.open, s.state.operations)
    ensures Evolves(s.state, t.state)
  {
    hide *;
    RunStep(s, c, t);
    EffectUpdateIs(c);
    RunUpdateEvolves(s.state, t.state, c.operation);
  }

  lemma HeadEvolves(s: Session, c: Change)
    requires c.MoveHead? && ApplyHead(s, c.head).Some?
    ensures Evolves(s.state, ApplyHead(s, c.head).value.state)
  {
    MetadataEvolves(s.state, ApplyHead(s, c.head).value.state);
  }

  lemma LabelEvolves(s: Session, c: Change)
    requires c.LabelNode? && ApplyLabel(s, c.labelled, c.title).Some?
    ensures Evolves(s.state, ApplyLabel(s, c.labelled, c.title).value.state)
  {
    MetadataEvolves(s.state, ApplyLabel(s, c.labelled, c.title).value.state);
  }

  lemma PreparedEvolves(s: Session, c: Change)
    requires c.ToolPrepared? && Keyed(s.state) && Indexed(s) && ApplyPrepared(s, c).Some?
    requires OpenOperation(s.state, c.operation).Some? && !s.state.operations[c.operation].status.Finished?
    ensures Evolves(s.state, ApplyPrepared(s, c).value.state)
  {
    PreparedShape(s, c);
    hide Indexed, ApplyPrepared, Evolves;
    PreparedIsNew(s, c);
    EffectAdded(s.state, NewEffect(c));
  }

  lemma PreparedIsNew(s: Session, c: Change)
    requires c.ToolPrepared? && Keyed(s.state) && Indexed(s) && ApplyPrepared(s, c).Some?
    ensures c.effectId !in s.state.effects
  {
    FreshIsUnowned(s, c.effectId);
  }

  lemma AcceptedIsNew(s: Session, c: Change)
    requires c.RunAccepted? && Keyed(s.state) && Indexed(s) && ApplyAccepted(s, c).Some?
    ensures c.operation !in s.state.operations
  {
    FreshIsUnowned(s, c.operation);
  }

  lemma EntryIsNew(s: Session, c: Change)
    requires c.QueueAdded? && Keyed(s.state) && Indexed(s) && ApplyQueueAdded(s, c).Some?
    ensures c.entryId !in s.state.queue
  {
    FreshIsUnowned(s, c.entryId);
  }

  /** One accepted change never takes anything back. */
  lemma StepEvolves(s: Session, c: Change, t: Session)
    requires Inv(s) && WellFormedChange(c) && Step(s, c) == Some(t)
    ensures Evolves(s.state, t.state)
  {
    hide *;
    InvParts(s);
    IndexParts(s);
    LivesOk(s.state);
    StepCases(s, c, t);
    EffectUpdateIs(c);
    match c
    case AddNode(_) => AddNodeEvolves(s, c.node);
    case MoveHead(_) => HeadEvolves(s, c);
    case RenameSession(_) => MetadataEvolves(s.state, t.state);
    case LabelNode(_, _) => LabelEvolves(s, c);
    case RunAccepted(_, _, _, _, _, _) =>
      AcceptedIsNew(s, c);
      AcceptedEvolves(s, c);
    case RunCancel(_, _, _, _) =>
      UpdatedRun(s, c, t);
      CancelEvolves(s, c);
    case ToolPrepared(_, _, _, _, _, _, _, _, _, _, _, _, _, _) =>
      UpdatedRun(s, c, t);
      PreparedEvolves(s, c);
    case QueueAdded(_, _, _, _, _) =>
      EntryIsNew(s, c);
      QueueAddedEvolves(s, c);
    case QueueClaimed(_, _, _) =>
      UpdatedEntry(s, c, t);
      QueueClaimedEvolves(s, c);
    case QueueFinished(_, _, _) => QueueFinishedEvolves(s, c);
    case RunStepSelected(_, _, _, _) => RunStepEvolves(s, c, t);
    case RunAttempt(_, _, _, _, _, _) => RunStepEvolves(s, c, t);
    case RunCheckpoint(_, _, _, _) => RunStepEvolves(s, c, t);
    case RunFinished(_, _, _, _) => RunStepEvolves(s, c, t);
    case _ => EffectStepEvolves(s, c, t);
  }

  /** What each kind of change leaves alone. */
  ghost predicate Framed(s: State, c: Change, t: State) {
    && t.commits == s.commits && t.sequence == s.sequence && t.header == s.header
    && (!c.AddNode? ==> t.nodes == s.nodes)
    && (!c.RunAccepted? ==> t.operations.Keys == s.operations.Keys)
    && (!c.RunAccepted? && !c.RunFinished? ==> t.branch.open == s.branch.open)
    && (!c.QueueAdded? ==> t.queue.Keys == s.queue.Keys)
    && (!c.QueueAdded? && !c.QueueClaimed? && !c.QueueFinished? ==>
          t.queue == s.queue && t.branch.pending == s.branch.pending)
    && (!IsEffectUpdate(c) && !c.RunCancel? && !c.ToolPrepared? ==> t.effects == s.effects)
  }

  lemma FrameParts(s: State, c: Change, t: State)
    requires Framed(s, c, t)
    ensures t.commits == s.commits && t.sequence == s.sequence && t.header == s.header
    ensures !c.AddNode? ==> t.nodes == s.nodes
    ensures !c.RunAccepted? && !c.RunFinished? ==> t.branch.open == s.branch.open
    ensures !c.QueueAdded? && !c.QueueClaimed? && !c.QueueFinished? ==>
      t.queue == s.queue && t.branch.pending == s.branch.pending
    ensures !IsEffectUpdate(c) && !c.RunCancel? && !c.ToolPrepared? ==> t.effects == s.effects
  {
  }

  lemma MetadataFrame(s: Session, c: Change)
    ensures c.AddNode? && ApplyNode(s, c.node).Some? ==> Framed(s.state, c, ApplyNode(s, c.node).value.state)
    ensures c.MoveHead? && ApplyHead(s, c.head).Some? ==> Framed(s.state, c, ApplyHead(s, c.head).value.state)
    ensures c.LabelNode? && ApplyLabel(s, c.labelled, c.title).Some? ==>
      Framed(s.state, c, ApplyLabel(s, c.labelled, c.title).value.state)
    ensures c.RenameSession? ==> Framed(s.state, c, s.state.(name := c.name))
  {
    hide NodeAllowed, Own;
  }

  lemma AcceptedFrame(s: Session, c: Change)
    requires c.RunAccepted? && ApplyAccepted(s, c).Some?
    ensures Framed(s.state, c, ApplyAccepted(s, c).value.state)
  {
    hide PromptAvailable, Fresh, Own;
  }

  lemma CancelFrame(s: Session, c: Change)
    requires c.RunCancel? && Keyed(s.state) && ApplyCancel(s, c).Some?
    ensures Framed(s.state, c, ApplyCancel(s, c).value.state)
  {
    hide CancelEffect, Fresh, Own;
  }

  lemma RunFrame(s: State, c: Change, t: State)
    requires IsRunUpdate(c) && RunUpdated(s, t, c.operation)
    requires c.RunFinished? || t.branch.open == s.branch.open
    ensures Framed(s, c, t)
  {
    hide RunEvolves, CheckpointsKept;
  }

  lemma RunKeepsOpen(s: Session, c: Change)
    ensures c.RunStepSelected? && ApplyStep(s, c).Some? ==> ApplyStep(s, c).value.state.branch == s.state.branch
    ensures c.RunAttempt? && ApplyAttempt(s, c).Some? ==> ApplyAttempt(s, c).value.state.branch == s.state.branch
    ensures c.RunCheckpoint? && ApplyCheckpoint(s, c).Some? ==>
      ApplyCheckpoint(s, c).value.state.branch == s.state.branch
  {
    hide Fresh, Own;
  }

  lemma QueueFrame(s: Session, c: Change)
    requires Keyed(s.state)
    ensures c.QueueAdded? && ApplyQueueAdded(s, c).Some? ==> Framed(s.state, c, ApplyQueueAdded(s, c).value.state)
    ensures c.QueueClaimed? && ApplyQueueClaimed(s, c).Some? ==>
      Framed(s.state, c, ApplyQueueClaimed(s, c).value.state)
    ensures c.QueueFinished? && ApplyQueueFinished(s, c).Some? ==>
      Framed(s.state, c, ApplyQueueFinished(s, c).value.state)
  {
    hide Fresh, Own, ClaimAllowed, QueueFinishAllowed, Pending.With, Without;
    assert c.QueueClaimed? && ApplyQueueClaimed(s, c).Some? ==> c.entryId in s.state.queue;
    assert c.QueueFinished? && ApplyQueueFinished(s, c).Some? ==> c.entryId in s.state.queue;
  }

  lemma PreparedFrame(s: Session, c: Change)
    requires c.ToolPrepared? && ApplyPrepared(s, c).Some?
    ensures Framed(s.state, c, ApplyPrepared(s, c).value.state)
  {
    hide PrepareAllowed, Own;
  }

  lemma EffectFrame(s: State, c: Change, t: State)
    requires IsEffectUpdate(c) && EffectUpdated(s, t, c.effectId)
    ensures Framed(s, c, t)
  {
    hide Advanced;
  }

  lemma StepFrame(s: Session, c: Change, t: Session)
    requires Inv(s) && WellFormedChange(c) && Step(s, c) == Some(t)
    ensures Framed(s.state, c, t.state)
  {
    hide *;
    InvParts(s);
    StepCases(s, c, t);
    EffectUpdateIs(c);
    if IsEffectUpdate(c) {
      EffectStep(s, c, t);
      EffectFrame(s.state, c, t.state);
    } else if IsRunUpdate(c) {
      RunStep(s, c, t);
      RunKeepsOpen(s, c);
      RunFrame(s.state, c, t.state);
    } else if c.RunAccepted? {
      AcceptedFrame(s, c);
    } else if c.RunCancel? {
      CancelFrame(s, c);
    } else if c.ToolPrepared? {
      PreparedFrame(s, c);
    } else {
      MetadataFrame(s, c);
      QueueFrame(s, c);
    }
  }
}
