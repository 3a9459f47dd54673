/** Every accepted change keeps the state invariant. */
module Preservation {
  import opened Options
  import opened SessionTypes
  import opened Reducer
  import opened Paths
  import opened Invariant
  import opened Evolution

  // ----- tool effects move forward -----

  lemma EffectFitsOn(nodes: map<Id, Node>, operations: map<Id, Operation>, e: Effect, f: Effect)
    requires EffectOk(nodes, operations, e) && Advanced(e, f) && !operations[e.operation].status.Finished?
    ensures EffectOk(nodes, operations, f)
  {
  }

  lemma EffectReplaced(nodes: map<Id, Node>, operations: map<Id, Operation>, effects: map<Id, Effect>, f: Effect)
    requires EffectsOk(nodes, operations, effects) && f.id in effects
    requires Advanced(effects[f.id], f) && !operations[effects[f.id].operation].status.Finished?
    ensures EffectsOk(nodes, operations, effects[f.id := f])
  {
    EffectFitsOn(nodes, operations, effects[f.id], f);
    assert SameReservation(effects[f.id], f);
  }

  lemma EffectUpdateKeeps(s: State, t: State, id: Id)
    requires StateOk(s) && EffectUpdated(s, t, id) && !s.operations[s.effects[id].operation].status.Finished?
    ensures StateOk(t)
  {
    hide NodesOk, RunsOk, QueueOk, QueuedPromptsOpen, EffectsOk, LifeOk;
    EffectReplaced(s.nodes, s.operations, s.effects, t.effects[id]);
  }

  // ----- a run moves forward -----

  lemma EffectFitsNewRun(nodes: map<Id, Node>, p: Operation, q: Operation, e: Effect)
    requires EffectFits(nodes, p, e) && RunEvolves(p, q)
    requires q.cancel == p.cancel && !q.status.Finished?
    ensures EffectFits(nodes, q, e)
  {
  }

  lemma RunReplacedUnderEffects(
    nodes: map<Id, Node>, operations: map<Id, Operation>, effects: map<Id, Effect>, q: Operation)
    requires EffectsOk(nodes, operations, effects) && q.id in operations && RunEvolves(operations[q.id], q)
    requires q.cancel == operations[q.id].cancel && !q.status.Finished?
    ensures EffectsOk(nodes, operations[q.id := q], effects)
  {
    forall e | e in effects ensures EffectOk(nodes, operations[q.id := q], effects[e]) {
      assert EffectOk(nodes, operations, effects[e]);
      if effects[e].operation == q.id {
        EffectFitsNewRun(nodes, operations[q.id], q, effects[e]);
      }
    }
  }

  lemma RunReplaced(nodes: map<Id, Node>, operations: map<Id, Operation>, q: Operation)
    requires RunsOk(nodes, Some(q.id), operations) && q.id in operations && RunEvolves(operations[q.id], q)
    requires StepsOk(q) && !q.status.Finished? && q.finishedAt.None?
    ensures RunsOk(nodes, Some(q.id), operations[q.id := q])
  {
    assert RunOk(nodes, Some(q.id), operations[q.id]);
    assert RunOk(nodes, Some(q.id), q);
  }

  /** Replacing the open operation by one that kept its prompt, its source and its cancellation. */
  lemma RunUpdateKeeps(s: State, t: State, p: Id)
    requires StateOk(s) && RunUpdated(s, t, p)
    requires t.branch == s.branch && StepsOk(t.operations[p])
    requires !t.operations[p].status.Finished? && t.operations[p].finishedAt.None?
    requires t.operations[p].cancel == s.operations[p].cancel
    ensures StateOk(t)
  {
    RunReplacedUnderEffects(s.nodes, s.operations, s.effects, t.operations[p]);
    RunReplaced(s.nodes, s.operations, t.operations[p]);
    OperationReplaced(s, t, t.operations[p]);
  }

  lemma SelectKeepsSteps(p: Operation, step: StepSelection)
    requires StepsOk(p) && step.step == |p.steps|
    ensures StepsOk(SelectStep(p, step))
  {
  }

  lemma AttemptKeepsSteps(p: Operation, attempt: Attempt)
    requires StepsOk(p) && |p.steps| > 0 && p.steps[|p.steps| - 1].step == attempt.step
    ensures StepsOk(AddAttempt(p, attempt))
  {
  }

  lemma SelectedKeeps(s: Session, c: Change)
    requires c.RunStepSelected? && StateOk(s.state) && ApplyStep(s, c).Some?
    ensures StateOk(ApplyStep(s, c).value.state)
  {
    RunIsUnfinished(s.state, c.operation);
    var p := s.state.operations[c.operation];
    assert RunOk(s.state.nodes, s.state.branch.open, p);
    RunSelectStep(s, c);
    SelectKeepsSteps(p, StepSelection(c.step, c.selectedAt, c.selection));
    RunUpdateKeeps(s.state, ApplyStep(s, c).value.state, c.operation);
  }

  lemma AttemptKeeps(s: Session, c: Change)
    requires c.RunAttempt? && StateOk(s.state) && ApplyAttempt(s, c).Some?
    ensures StateOk(ApplyAttempt(s, c).value.state)
  {
    RunIsUnfinished(s.state, c.operation);
    var p := s.state.operations[c.operation];
    assert RunOk(s.state.nodes, s.state.branch.open, p);
    RunAttemptStep(s, c);
    AttemptKeepsSteps(p, Attempt(c.attemptId, c.step, c.attempt, c.task, c.startedAt));
    RunUpdateKeeps(s.state, ApplyAttempt(s, c).value.state, c.operation);
  }

  lemma CheckpointKeeps(s: Session, c: Change)
    requires c.RunCheckpoint? && StateOk(s.state) && Indexed(s) && ApplyCheckpoint(s, c).Some?
    ensures StateOk(ApplyCheckpoint(s, c).value.state)
  {
    RunIsUnfinished(s.state, c.operation);
    var p := s.state.operations[c.operation];
    assert RunOk(s.state.nodes, s.state.branch.open, p);
    RunCheckpointStep(s, c);
    assert StepsOk(AddCheckpoint(p, c.checkpointId));
    RunUpdateKeeps(s.state, ApplyCheckpoint(s, c).value.state, c.operation);
  }

  // ----- a run finishes -----

  lemma RunCloses(nodes: map<Id, Node>, operations: map<Id, Operation>, p: Id, c: Change)
    requires c.RunFinished? && p in operations && RunsOk(nodes, Some(p), operations) && operations[p].id == p
    requires forall x :: x in operations ==> operations[x].id == x
    requires Known(nodes, operations[p].prompt)
    requires c.runOutcome.Completed? ==> operations[p].cancel.None?
    requires c.runOutcome.RunCancelled? ==> operations[p].cancel.Some?
    ensures RunsOk(nodes, None, operations[p := Finish(operations[p], c.runOutcome, c.finishedAt, c.detail)])
  {
    var q := Finish(operations[p], c.runOutcome, c.finishedAt, c.detail);
    assert RunOk(nodes, Some(p), operations[p]);
    assert RunOk(nodes, None, q);
    forall x | x in operations && x != p ensures RunOk(nodes, None, operations[x]) {
      assert RunOk(nodes, Some(p), operations[x]);
    }
  }

  lemma EffectsClose(
    nodes: map<Id, Node>, operations: map<Id, Operation>, effects: map<Id, Effect>, q: Operation)
    requires EffectsOk(nodes, operations, effects) && q.id in operations && RunEvolves(operations[q.id], q)
    requires q.cancel == operations[q.id].cancel
    requires forall e :: e in effects && effects[e].operation == q.id ==>
      Terminal(effects[e].status) && effects[e].result in nodes
    ensures EffectsOk(nodes, operations[q.id := q], effects)
  {
    forall e | e in effects ensures EffectOk(nodes, operations[q.id := q], effects[e]) {
      assert EffectOk(nodes, operations, effects[e]);
    }
  }

  lemma QueueCloses(nodes: map<Id, Node>, operations: set<Id>, branch: Branch, queue: map<Id, QueueEntry>)
    requires QueueOk(nodes, operations, branch, queue)
    requires forall q :: q in queue ==> !queue[q].status.Claimed?
    ensures QueueOk(nodes, operations, branch.(open := None), queue)
  {
    forall q | q in queue ensures EntryOk(nodes, operations, branch.(open := None), queue[q]) {
      assert EntryOk(nodes, operations, branch, queue[q]);
    }
    assert branch.(open := None).pending == branch.pending;
  }

  lemma EffectsListed(s: Session, p: Id)
    requires Lists(s.ix.effectsByOperation, EffectPairs(s.state.effects))
    ensures forall e :: e in s.state.effects ==>
      (s.state.effects[e].operation == p <==> e in SetAt(s.ix.effectsByOperation, p))
  {
    forall e | e in s.state.effects
      ensures s.state.effects[e].operation == p <==> e in SetAt(s.ix.effectsByOperation, p)
    {
      assert e in SetAt(s.ix.effectsByOperation, p) <==> (p, e) in EffectPairs(s.state.effects);
    }
  }

  lemma EntriesListed(s: Session, p: Id)
    requires Lists(s.ix.entriesByOperation, EntryPairs(s.state.queue))
    ensures forall q :: q in s.state.queue ==>
      (s.state.queue[q].operation == Some(p) <==> q in SetAt(s.ix.entriesByOperation, p))
  {
    forall q | q in s.state.queue
      ensures s.state.queue[q].operation == Some(p) <==> q in SetAt(s.ix.entriesByOperation, p)
    {
      assert q in SetAt(s.ix.entriesByOperation, p) <==> (p, q) in EntryPairs(s.state.queue);
    }
  }

  /** When a finish is allowed, the operation's effects are settled. */
  lemma FinishSettles(s: Session, c: Change)
    requires c.RunFinished? && Lists(s.ix.effectsByOperation, EffectPairs(s.state.effects)) && ApplyFinished(s, c).Some?
    requires s.state.operations[c.operation].id == c.operation
    ensures forall e :: e in s.state.effects && s.state.effects[e].operation == c.operation ==>
      EffectSettled(s.state, s.state.effects[e])
  {
    EffectsListed(s, c.operation);
  }

  /** When a finish is allowed, no entry is claimed. */
  lemma FinishUnclaims(s: Session, c: Change)
    requires c.RunFinished? && Lists(s.ix.entriesByOperation, EntryPairs(s.state.queue)) && ApplyFinished(s, c).Some?
    requires s.state.operations[c.operation].id == c.operation
    requires QueueOk(s.state.nodes, s.state.operations.Keys, s.state.branch, s.state.queue)
    ensures forall q :: q in s.state.queue ==> !s.state.queue[q].status.Claimed?
  {
    EntriesListed(s, c.operation);
    forall q | q in s.state.queue ensures !s.state.queue[q].status.Claimed? {
      assert EntryOk(s.state.nodes, s.state.operations.Keys, s.state.branch, s.state.queue[q]);
    }
  }

  lemma NoQueuedPromptOf(s: State, p: Id)
    requires QueueOk(s.nodes, s.operations.Keys, s.branch, s.queue)
    requires QueuedPromptsOpen(Some(p), s.operations, s.queue)
    requires p in s.operations && Known(s.nodes, s.operations[p].prompt)
    ensures QueuedPromptsOpen(None, s.operations, s.queue)
  {
    forall q | q in s.queue && s.queue[q].status.Queued? ensures s.operations[p].prompt != Some(s.queue[q].target) {
      assert EntryOk(s.nodes, s.operations.Keys, s.branch, s.queue[q]);
    }
  }

  lemma FinishedShape(s: Session, c: Change)
    requires c.RunFinished? && ApplyFinished(s, c).Some? && s.state.operations[c.operation].id == c.operation
    ensures var p := s.state.operations[c.operation];
      && s.state.branch.open == Some(c.operation) && Known(s.state.nodes, p.prompt)
      && (c.runOutcome.Completed? ==> p.cancel.None?) && (c.runOutcome.RunCancelled? ==> p.cancel.Some?)
      && ApplyFinished(s, c).value.state == s.state.(
           operations := s.state.operations[c.operation := Finish(p, c.runOutcome, c.finishedAt, c.detail)],
           branch := s.state.branch.(open := None))
  {
  }

  lemma FinishedKeeps(s: Session, c: Change)
    requires c.RunFinished? && StateOk(s.state) && Indexed(s) && ApplyFinished(s, c).Some?
    ensures StateOk(ApplyFinished(s, c).value.state)
  {
    var t := ApplyFinished(s, c).value.state;
    FinishSettles(s, c);
    FinishUnclaims(s, c);
    FinishedShape(s, c);
    RunIsUnfinished(s.state, c.operation);
    RunFinishedStep(s, c);
    FinishKeeps(s.state, t, c);
  }

  lemma SettledEffects(s: State, p: Id)
    requires forall e :: e in s.effects && s.effects[e].operation == p ==> EffectSettled(s, s.effects[e])
    ensures forall e :: e in s.effects && s.effects[e].operation == p ==>
      Terminal(s.effects[e].status) && s.effects[e].result in s.nodes
  {
  }

  lemma FinishKeeps(s: State, t: State, c: Change)
    requires c.RunFinished? && StateOk(s) && RunUpdated(s, t, c.operation)
    requires Known(s.nodes, s.operations[c.operation].prompt)
    requires c.runOutcome.Completed? ==> s.operations[c.operation].cancel.None?
    requires c.runOutcome.RunCancelled? ==> s.operations[c.operation].cancel.Some?
    requires t == s.(
      operations := s.operations[
        c.operation := Finish(s.operations[c.operation], c.runOutcome, c.finishedAt, c.detail)],
      branch := s.branch.(open := None))
    requires forall e :: e in s.effects && s.effects[e].operation == c.operation ==>
      EffectSettled(s, s.effects[e])
    requires forall q :: q in s.queue ==> !s.queue[q].status.Claimed?
    ensures StateOk(t)
  {
    hide RunsOk, EffectsOk, QueueOk, QueuedPromptsOpen, NodesOk, LifeOk, EffectSettled;
    assert t.operations.Keys == s.operations.Keys;
    assert forall e :: e in s.effects && s.effects[e].operation == c.operation ==>
      Terminal(s.effects[e].status) && s.effects[e].result in s.nodes by {
      SettledEffects(s, c.operation);
    }
    RunCloses(s.nodes, s.operations, c.operation, c);
    EffectsClose(s.nodes, s.operations, s.effects, t.operations[c.operation]);
    QueueCloses(s.nodes, s.operations.Keys, s.branch, s.queue);
    NoQueuedPromptOf(s, c.operation);
    PromptsUnchanged(None, s.operations, t.operations, s.queue);
  }

  lemma PromptsUnchanged(
    open: Option<Id>, operations: map<Id, Operation>, more: map<Id, Operation>, queue: map<Id, QueueEntry>)
    requires QueuedPromptsOpen(open, operations, queue) && more.Keys == operations.Keys
    requires forall p :: p in operations ==> more[p].prompt == operations[p].prompt
    ensures QueuedPromptsOpen(open, more, queue)
  {
  }

  // ----- a run is cancelled -----

  lemma CancelledEffectOk(nodes: map<Id, Node>, operations: map<Id, Operation>, e: Effect, q: Operation, c: Change)
    requires c.RunCancel? && EffectOk(nodes, operations, e)
    requires q.id in operations && RunEvolves(operations[q.id], q) && !q.status.Finished?
    ensures EffectOk(nodes, operations[q.id := q], AfterCancel(e, q.id, c))
  {
    CancelKeepsLife(e, q.id, c);
  }

  lemma CancelledStillAgree(effects: map<Id, Effect>, p: Id, c: Change)
    requires c.RunCancel? && ReservationsAgree(effects)
    ensures ReservationsAgree(map e | e in effects :: AfterCancel(effects[e], p, c))
  {
  }

  lemma EffectsCancelled(
    nodes: map<Id, Node>, operations: map<Id, Operation>, effects: map<Id, Effect>, q: Operation, c: Change)
    requires c.RunCancel? && ReservationsAgree(effects)
    requires forall e :: e in effects ==> EffectOk(nodes, operations, effects[e])
    requires q.id in operations && RunEvolves(operations[q.id], q) && !q.status.Finished?
    ensures EffectsOk(nodes, operations[q.id := q], map e | e in effects :: AfterCancel(effects[e], q.id, c))
  {
    forall e | e in effects ensures EffectOk(nodes, operations[q.id := q], AfterCancel(effects[e], q.id, c)) {
      CancelledEffectOk(nodes, operations, effects[e], q, c);
    }
    CancelledStillAgree(effects, q.id, c);
  }

  lemma CancelledShape(s: Session, c: Change)
    requires c.RunCancel? && ApplyCancel(s, c).Some? && s.state.operations[c.operation].id == c.operation
    requires Lists(s.ix.effectsByOperation, EffectPairs(s.state.effects))
    ensures var p := s.state.operations[c.operation];
      && s.state.branch.open == Some(c.operation) && p.cancel.None?
      && ApplyCancel(s, c).value.state == s.state.(
           operations := s.state.operations[
             c.operation := RequestCancel(p, Cancellation(c.cancelId, c.requestedAt, c.reason))],
           effects := map e | e in s.state.effects :: AfterCancel(s.state.effects[e], c.operation, c))
  {
    CancelledEffects(s, c);
  }

  lemma CancelKeeps(s: Session, c: Change)
    requires c.RunCancel? && StateOk(s.state) && ApplyCancel(s, c).Some?
    requires Lists(s.ix.effectsByOperation, EffectPairs(s.state.effects))
    ensures StateOk(ApplyCancel(s, c).value.state)
  {
    var t := ApplyCancel(s, c).value.state;
    CancelledShape(s, c);
    RunIsUnfinished(s.state, c.operation);
    CancelStateKeeps(s.state, t.operations[c.operation], t.effects, c);
  }

  lemma CancelStateKeeps(s: State, q: Operation, effects: map<Id, Effect>, c: Change)
    requires c.RunCancel? && StateOk(s) && c.operation in s.operations && s.branch.open == Some(c.operation)
    requires s.operations[c.operation].cancel.None? && !s.operations[c.operation].status.Finished?
    requires q == RequestCancel(s.operations[c.operation], Cancellation(c.cancelId, c.requestedAt, c.reason))
    requires effects == map e | e in s.effects :: AfterCancel(s.effects[e], c.operation, c)
    ensures StateOk(s.(operations := s.operations[c.operation := q], effects := effects))
  {
    CancelledRunOk(s.nodes, s.operations, q, c);
    EffectsCancelled(s.nodes, s.operations, s.effects, q, c);
    OperationReplaced(s, s.(operations := s.operations[c.operation := q], effects := effects), q);
  }

  lemma CancelledRunOk(nodes: map<Id, Node>, operations: map<Id, Operation>, q: Operation, c: Change)
    requires c.RunCancel? && RunsOk(nodes, Some(c.operation), operations) && c.operation in operations
    requires operations[c.operation].id == c.operation
    requires operations[c.operation].cancel.None? && !operations[c.operation].status.Finished?
    requires q == RequestCancel(operations[c.operation], Cancellation(c.cancelId, c.requestedAt, c.reason))
    ensures RunEvolves(operations[c.operation], q)
    ensures RunsOk(nodes, Some(c.operation), operations[c.operation := q])
  {
    assert RunOk(nodes, Some(c.operation), operations[c.operation]);
    assert StepsOk(q);
    RunReplaced(nodes, operations, q);
  }

  /** What replacing an operation leaves alone. */
  lemma OperationReplaced(s: State, t: State, q: Operation)
    requires StateOk(s) && q.id in s.operations && q.prompt == s.operations[q.id].prompt
    requires t == s.(operations := s.operations[q.id := q], effects := t.effects, checkpoints := t.checkpoints)
    requires forall e :: e in t.effects ==> t.effects[e].id == e
    requires RunsOk(t.nodes, t.branch.open, t.operations)
    requires EffectsOk(t.nodes, t.operations, t.effects)
    ensures StateOk(t)
  {
    hide RunsOk, EffectsOk, QueueOk, QueuedPromptsOpen, NodesOk;
    assert t.operations.Keys == s.operations.Keys;
    PromptsUnchanged(s.branch.open, s.operations, t.operations, s.queue);
  }

  // ----- a run is accepted -----

  lemma RunsOpen(nodes: map<Id, Node>, operations: map<Id, Operation>, p: Operation)
    requires RunsOk(nodes, None, operations) && p.id !in operations && RunOk(nodes, Some(p.id), p)
    requires forall x :: x in operations ==> operations[x].id == x
    ensures RunsOk(nodes, Some(p.id), operations[p.id := p])
  {
    forall x | x in operations ensures RunOk(nodes, Some(p.id), operations[x]) {
      assert RunOk(nodes, None, operations[x]);
    }
  }

  lemma NodesUnderMore(nodes: map<Id, Node>, head: Option<Id>, operations: set<Id>, more: set<Id>)
    requires NodesOk(nodes, head, operations) && operations <= more
    ensures NodesOk(nodes, head, more)
  {
    forall n | n in nodes ensures NodeOk(nodes, more, nodes[n]) {
      assert NodeOk(nodes, operations, nodes[n]);
    }
  }

  lemma QueueOpens(
    nodes: map<Id, Node>, operations: set<Id>, more: set<Id>, branch: Branch, queue: map<Id, QueueEntry>, p: Id)
    requires QueueOk(nodes, operations, branch, queue) && operations <= more && branch.open.None?
    ensures QueueOk(nodes, more, branch.(open := Some(p)), queue)
  {
    forall q | q in queue ensures EntryOk(nodes, more, branch.(open := Some(p)), queue[q]) {
      assert EntryOk(nodes, operations, branch, queue[q]);
    }
    assert branch.(open := Some(p)).pending == branch.pending;
  }

  lemma EffectsUnderMore(
    nodes: map<Id, Node>, operations: map<Id, Operation>, effects: map<Id, Effect>, p: Operation)
    requires EffectsOk(nodes, operations, effects) && p.id !in operations
    ensures EffectsOk(nodes, operations[p.id := p], effects)
  {
    forall e | e in effects ensures EffectOk(nodes, operations[p.id := p], effects[e]) {
      assert EffectOk(nodes, operations, effects[e]);
    }
  }

  lemma AcceptedShape(s: Session, c: Change)
    requires c.RunAccepted? && ApplyAccepted(s, c).Some?
    ensures s.state.branch.open.None? && Known(s.state.nodes, c.source)
    ensures c.prompt.Some? ==> c.prompt.value !in s.state.nodes
    ensures ApplyAccepted(s, c).value.state == s.state.(
      operations := s.state.operations[c.operation := NewOperation(c)],
      branch := s.state.branch.(open := Some(c.operation)))
  {
  }

  lemma AcceptedKeeps(s: Session, c: Change)
    requires c.RunAccepted? && StateOk(s.state) && Indexed(s) && ApplyAccepted(s, c).Some?
    ensures StateOk(ApplyAccepted(s, c).value.state)
  {
    FreshIsUnowned(s, c.operation);
    AcceptedShape(s, c);
    AcceptedStateKeeps(s.state, ApplyAccepted(s, c).value.state, c);
  }

  lemma NewRunIsOk(s: State, c: Change)
    requires c.RunAccepted? && Known(s.nodes, c.source) && (c.prompt.Some? ==> c.prompt.value !in s.nodes)
    ensures RunOk(s.nodes, Some(c.operation), NewOperation(c))
  {
  }

  lemma AcceptedStateKeeps(s: State, t: State, c: Change)
    requires c.RunAccepted? && StateOk(s) && c.operation !in s.operations && s.branch.open.None?
    requires Known(s.nodes, c.source) && (c.prompt.Some? ==> c.prompt.value !in s.nodes)
    requires t == s.(operations := s.operations[c.operation := NewOperation(c)],
                     branch := s.branch.(open := Some(c.operation)))
    ensures StateOk(t)
  {
    hide RunsOk, EffectsOk, QueueOk, QueuedPromptsOpen, NodesOk, RunOk;
    var p := NewOperation(c);
    NewRunIsOk(s, c);
    RunsOpen(s.nodes, s.operations, p);
    NodesUnderMore(s.nodes, s.branch.head, s.operations.Keys, t.operations.Keys);
    QueueOpens(s.nodes, s.operations.Keys, t.operations.Keys, s.branch, s.queue, c.operation);
    EffectsUnderMore(s.nodes, s.operations, s.effects, p);
    NoQueuedPromptYet(s.operations, s.queue, p);
  }

  lemma NoQueuedPromptYet(operations: map<Id, Operation>, queue: map<Id, QueueEntry>, p: Operation)
    requires QueuedPromptsOpen(None, operations, queue)
    ensures QueuedPromptsOpen(Some(p.id), operations[p.id := p], queue)
  {
  }

  // ----- an effect is prepared -----

  lemma OthersGone(owners: set<Owner>)
    ensures owners - {ResultOwner} == {} ==> NodeOwner !in owners
  {
    assert owners <= (owners - {ResultOwner}) + {ResultOwner};
  }

  lemma ResultNotPlaced(s: Session, c: Change)
    requires c.ToolPrepared? && ResultAvailable(s, c) && Lists(s.ix.owners, OwnerPairs(s.state))
    ensures c.result !in s.state.nodes
  {
    var owners := SetAt(s.ix.owners, c.result);
    assert NodeOwner in owners <==> (c.result, NodeOwner) in OwnerPairs(s.state);
    OthersGone(owners);
  }

  lemma SharersAgree(s: Session, c: Change)
    requires c.ToolPrepared? && ResultAvailable(s, c) && Lists(s.ix.effectsByResult, ResultPairs(s.state.effects))
    ensures forall e :: e in s.state.effects && s.state.effects[e].result == c.result ==>
      && s.state.effects[e].operation == c.operation && s.state.effects[e].step == c.step
      && s.state.effects[e].assistant == c.assistant
  {
    forall e | e in s.state.effects && s.state.effects[e].result == c.result
      ensures e in EffectsFor(s, c.result)
    {
      assert (c.result, e) in ResultPairs(s.state.effects);
    }
  }

  lemma EffectJoins(nodes: map<Id, Node>, operations: map<Id, Operation>, effects: map<Id, Effect>, f: Effect)
    requires EffectsOk(nodes, operations, effects) && f.id !in effects && EffectOk(nodes, operations, f)
    requires forall e :: e in effects && effects[e].result == f.result ==>
      effects[e].operation == f.operation && effects[e].step == f.step && effects[e].assistant == f.assistant
    ensures EffectsOk(nodes, operations, effects[f.id := f])
  {
    forall e | e in effects && effects[e].result == f.result ensures SameReservation(effects[e], f) {
      assert EffectOk(nodes, operations, effects[e]);
    }
  }

  lemma PreparedKeeps(s: Session, c: Change)
    requires c.ToolPrepared? && StateOk(s.state) && Indexed(s) && ApplyPrepared(s, c).Some?
    ensures StateOk(ApplyPrepared(s, c).value.state)
  {
    PreparedShape(s, c);
    RunIsUnfinished(s.state, c.operation);
    FreshIsUnowned(s, c.effectId);
    PreparedEffectsOk(s, c);
    EffectAddedKeeps(s.state, NewEffect(c));
  }

  lemma PreparedEffectsOk(s: Session, c: Change)
    requires c.ToolPrepared? && ApplyPrepared(s, c).Some? && c.effectId !in s.state.effects
    requires EffectsOk(s.state.nodes, s.state.operations, s.state.effects)
    requires Lists(s.ix.owners, OwnerPairs(s.state)) && Lists(s.ix.effectsByResult, ResultPairs(s.state.effects))
    requires !s.state.operations[c.operation].status.Finished?
    ensures EffectsOk(s.state.nodes, s.state.operations, s.state.effects[c.effectId := NewEffect(c)])
  {
    ResultNotPlaced(s, c);
    SharersAgree(s, c);
    NewEffectOk(s, c);
    EffectJoins(s.state.nodes, s.state.operations, s.state.effects, NewEffect(c));
  }

  lemma EffectAddedKeeps(s: State, effect: Effect)
    requires StateOk(s)
    requires EffectsOk(s.nodes, s.operations, s.effects[effect.id := effect])
    ensures StateOk(s.(effects := s.effects[effect.id := effect]))
  {
  }

  lemma NewEffectOk(s: Session, c: Change)
    requires c.ToolPrepared? && ApplyPrepared(s, c).Some? && c.result !in s.state.nodes
    requires !s.state.operations[c.operation].status.Finished?
    ensures EffectOk(s.state.nodes, s.state.operations, NewEffect(c))
  {
  }

  // ----- a node is added -----

  lemma LinkKeptEverywhere(nodes: map<Id, Node>, more: map<Id, Node>)
    requires Extends(nodes, more)
    ensures forall start, ancestor, owner ::
      Linked(nodes, start, ancestor, owner) ==> Linked(more, start, ancestor, owner)
  {
    forall start, ancestor, owner | Linked(nodes, start, ancestor, owner)
      ensures Linked(more, start, ancestor, owner)
    {
      LinkKept(nodes, more, start, ancestor, owner);
    }
  }

  lemma DescendsIsLink(nodes: map<Id, Node>, descendant: Id, ancestor: Id)
    requires Forest(nodes) && descendant in nodes && Descends(nodes, descendant, ancestor)
    ensures Linked(nodes, Some(descendant), Some(ancestor), None)
  {
    if descendant == ancestor {
      assert IsPath(nodes, [], Some(descendant), Some(ancestor), None);
    } else {
      AncestryIsLink(nodes, Some(descendant), Some(ancestor), None);
    }
  }

  lemma AllowedBodyInOrder(nodes: map<Id, Node>, node: Node)
    requires Forest(nodes) && BodyAllowed(nodes, node) && Known(nodes, node.parent)
    ensures RetainedInOrder(nodes, node)
  {
    if node.body.Compaction? {
      var retained := node.body.retained;
      forall i | 0 <= i < |retained| ensures Linked(nodes, node.parent, Some(retained[i]), None) {
        DescendsIsLink(nodes, node.parent.value, retained[i]);
      }
      forall i | 0 < i < |retained| ensures Linked(nodes, Some(retained[i]), Some(retained[i - 1]), None) {
        DescendsIsLink(nodes, retained[i], retained[i - 1]);
      }
      forall i, j | 0 <= i < j < |retained| ensures Linked(nodes, Some(retained[j]), Some(retained[i]), None) {
        ChainIsOrdered(nodes, retained, i, j);
      }
    }
  }

  lemma NodesGrow(nodes: map<Id, Node>, head: Option<Id>, operations: set<Id>, node: Node)
    requires NodesOk(nodes, head, operations) && node.id !in nodes && Known(nodes, node.parent)
    requires BodyAllowed(nodes, node) && (node.operation.Some? ==> node.operation.value in operations)
    ensures NodesOk(nodes[node.id := node], head, operations)
  {
    hide Linked, BodyAllowed, Forest, RetainedInOrder;
    var more := nodes[node.id := node];
    ForestGrows(nodes, node);
    AllowedBodyInOrder(nodes, node);
    forall n | n in more ensures NodeOk(more, operations, more[n]) {
      if n == node.id {
        RetainedKept(nodes, more, node);
      } else {
        assert NodeOk(nodes, operations, nodes[n]);
        RetainedKept(nodes, more, nodes[n]);
      }
    }
  }

  lemma RetainedKept(nodes: map<Id, Node>, more: map<Id, Node>, node: Node)
    requires Extends(nodes, more) && RetainedInOrder(nodes, node)
    ensures RetainedInOrder(more, node)
  {
    hide Linked;
    LinkKeptEverywhere(nodes, more);
  }

  lemma PromptPlacedOn(nodes: map<Id, Node>, more: map<Id, Node>, p: Operation)
    requires Extends(nodes, more) && PromptPlaced(nodes, p)
    requires p.prompt.Some? && p.prompt.value in more ==> p.prompt.value in nodes
    ensures PromptPlaced(more, p)
  {
    if p.prompt.Some? && p.prompt.value in nodes {
      LinkKept(nodes, more, p.prompt, p.source, Some(p.id));
    }
  }

  lemma PromptArrives(s: State, node: Node, p: Operation, queued: bool)
    requires Forest(s.nodes) && node.id !in s.nodes && Known(s.nodes, node.parent)
    requires p.prompt == Some(node.id) && PromptAllows(s, p, queued, node)
    ensures PromptPlaced(s.nodes[node.id := node], p)
  {
    var more := s.nodes[node.id := node];
    AncestryIsLink(s.nodes, node.parent, p.source, Some(p.id));
    LinkKept(s.nodes, more, node.parent, p.source, Some(p.id));
    LinkStep(more, node.id, p.source, Some(p.id));
  }

  /** An operation whose prompt is this node is the one the index names. */
  lemma PromptIndexed(s: Session, p: Id, node: Id)
    requires Maps(s.ix.operationByPrompt, PromptPairs(s.state.operations))
    requires p in s.state.operations && s.state.operations[p].prompt == Some(node)
    ensures PromptOf(s, node) == Some(s.state.operations[p])
  {
    assert (node, p) in PromptPairs(s.state.operations);
  }

  lemma TargetIndexed(s: Session, q: Id, node: Id)
    requires Maps(s.ix.entryByTarget, TargetPairs(s.state.queue))
    requires q in s.state.queue && s.state.queue[q].target == node
    ensures EntryFor(s, node) == Some(s.state.queue[q])
  {
    assert (node, q) in TargetPairs(s.state.queue);
  }

  lemma ResultIndexed(s: Session, e: Id, node: Id)
    requires Lists(s.ix.effectsByResult, ResultPairs(s.state.effects))
    requires e in s.state.effects && s.state.effects[e].result == node
    ensures e in EffectsFor(s, node)
  {
    assert (node, e) in ResultPairs(s.state.effects);
  }

  lemma RunsSeeNode(s: Session, node: Node)
    requires NodeAllowed(s, node) && node.id !in s.state.nodes && Forest(s.state.nodes)
    requires Maps(s.ix.operationByPrompt, PromptPairs(s.state.operations))
    requires RunsOk(s.state.nodes, s.state.branch.open, s.state.operations)
    ensures RunsOk(s.state.nodes[node.id := node], s.state.branch.open, s.state.operations)
  {
    var nodes, more, operations := s.state.nodes, s.state.nodes[node.id := node], s.state.operations;
    forall p | p in operations ensures RunOk(more, s.state.branch.open, operations[p]) {
      assert RunOk(nodes, s.state.branch.open, operations[p]);
      if operations[p].prompt == Some(node.id) {
        PromptIndexed(s, p, node.id);
        PromptArrives(s.state, node, operations[p], EntryFor(s, node.id).Some?);
      } else {
        PromptPlacedOn(nodes, more, operations[p]);
      }
    }
  }

  lemma QueueSeesNode(s: Session, node: Node)
    requires NodeAllowed(s, node) && node.id !in s.state.nodes
    requires Maps(s.ix.entryByTarget, TargetPairs(s.state.queue))
    requires QueueOk(s.state.nodes, s.state.operations.Keys, s.state.branch, s.state.queue)
    ensures QueueOk(s.state.nodes[node.id := node], s.state.operations.Keys, s.state.branch, s.state.queue)
  {
    var nodes, more, queue := s.state.nodes, s.state.nodes[node.id := node], s.state.queue;
    forall q | q in queue ensures EntryOk(more, s.state.operations.Keys, s.state.branch, queue[q]) {
      assert EntryOk(nodes, s.state.operations.Keys, s.state.branch, queue[q]);
      if queue[q].target == node.id {
        TargetIndexed(s, q, node.id);
      }
    }
  }

  lemma ResultArrives(s: State, node: Node, e: Effect)
    requires Forest(s.nodes) && node.id !in s.nodes && Known(s.nodes, node.parent) && e.result == node.id
    requires IsToolMessage(node) && node.operation == Some(e.operation)
    requires Ancestry(s.nodes, node.parent, Some(e.assistant), Some(e.operation)).Reached?
    ensures ResultPlaced(s.nodes[node.id := node], e)
  {
    AncestryIsLink(s.nodes, node.parent, Some(e.assistant), Some(e.operation));
    LinkKept(s.nodes, s.nodes[node.id := node], node.parent, Some(e.assistant), Some(e.operation));
  }

  lemma ResultPlacedOn(nodes: map<Id, Node>, more: map<Id, Node>, e: Effect)
    requires Extends(nodes, more) && ResultPlaced(nodes, e) && (e.result in more ==> e.result in nodes)
    ensures ResultPlaced(more, e)
  {
    if e.result in nodes {
      LinkKept(nodes, more, nodes[e.result].parent, Some(e.assistant), Some(e.operation));
    }
  }

  lemma EffectsSeeNode(s: Session, node: Node)
    requires NodeAllowed(s, node) && node.id !in s.state.nodes && Forest(s.state.nodes)
    requires Lists(s.ix.effectsByResult, ResultPairs(s.state.effects))
    requires EffectsOk(s.state.nodes, s.state.operations, s.state.effects)
    ensures EffectsOk(s.state.nodes[node.id := node], s.state.operations, s.state.effects)
  {
    hide LifeOk, Linked, Lists, BodyAllowed, PromptAllows, EntryAllows, Fresh, ReservationsAgree, Forest;
    var nodes, more, effects := s.state.nodes, s.state.nodes[node.id := node], s.state.effects;
    forall e | e in effects ensures EffectOk(more, s.state.operations, effects[e]) {
      assert EffectOk(nodes, s.state.operations, effects[e]);
      if effects[e].result == node.id {
        ResultIndexed(s, e, node.id);
        ResultArrives(s.state, node, effects[e]);
      } else {
        ResultPlacedOn(nodes, more, effects[e]);
      }
    }
  }

  lemma NodeKeeps(s: Session, node: Node)
    requires StateOk(s.state) && Indexed(s) && ApplyNode(s, node).Some?
    ensures StateOk(ApplyNode(s, node).value.state)
  {
    NodeIsNew(s, node);
    NodesGrow(s.state.nodes, s.state.branch.head, s.state.operations.Keys, node);
    RunsSeeNode(s, node);
    QueueSeesNode(s, node);
    EffectsSeeNode(s, node);
  }

  // ----- the queue -----

  lemma EntryUnder(
    nodes: map<Id, Node>, operations: set<Id>, branch: Branch, more: Branch, q: QueueEntry)
    requires EntryOk(nodes, operations, branch, q) && more.open == branch.open
    requires IsFirst(branch.pending, q) ==> IsFirst(more.pending, q)
    ensures EntryOk(nodes, operations, more, q)
  {
  }

  lemma QueueJoins(
    nodes: map<Id, Node>, operations: set<Id>, branch: Branch, queue: map<Id, QueueEntry>, q: QueueEntry)
    requires QueueOk(nodes, operations, branch, queue) && q.id !in queue
    requires q.status.Queued? && q.operation.None? && q.finishedAt.None? && q.target !in nodes
    ensures QueueOk(nodes, operations,
      branch.(pending := branch.pending.With(q.kind, branch.pending.Of(q.kind) + [q.id])), queue[q.id := q])
  {
    var pending := branch.pending.With(q.kind, branch.pending.Of(q.kind) + [q.id]);
    var more := branch.(pending := pending);
    var joined := queue[q.id := q];
    assert PendingExact(queue, branch.pending, q.kind);
    assert q.id !in branch.pending.Of(q.kind);
    forall kind ensures PendingExact(joined, pending, kind) {
      assert PendingExact(queue, branch.pending, kind);
    }
    forall x | x in queue ensures EntryOk(nodes, operations, more, queue[x]) {
      EntryUnder(nodes, operations, branch, more, queue[x]);
    }
  }

  lemma QueueAddedKeeps(s: Session, c: Change)
    requires c.QueueAdded? && StateOk(s.state) && Indexed(s) && ApplyQueueAdded(s, c).Some?
    ensures StateOk(ApplyQueueAdded(s, c).value.state)
  {
    FreshIsUnowned(s, c.entryId);
    FreshIsUnowned(s, c.target);
    NoPromptAt(s, c.target);
    EntryJoins(s.state, QueueEntry(c.entryId, c.target, c.kind, c.addedAt, c.message, Queued, None, None, None));
  }

  lemma EntryJoins(s: State, q: QueueEntry)
    requires StateOk(s) && q.id !in s.queue
    requires q.status.Queued? && q.operation.None? && q.finishedAt.None? && q.target !in s.nodes
    requires forall p :: p in s.operations ==> s.operations[p].prompt != Some(q.target)
    ensures StateOk(s.(
      queue := s.queue[q.id := q],
      branch := s.branch.(pending := s.branch.pending.With(q.kind, s.branch.pending.Of(q.kind) + [q.id]))))
  {
    QueueJoins(s.nodes, s.operations.Keys, s.branch, s.queue, q);
  }

  lemma NoPromptAt(s: Session, target: Id)
    requires Lists(s.ix.owners, OwnerPairs(s.state)) && Fresh(s.ix, target)
    ensures forall p :: p in s.state.operations ==> s.state.operations[p].prompt != Some(target)
  {
    forall p | p in s.state.operations ensures s.state.operations[p].prompt != Some(target) {
      assert (target, PromptOwner) in OperationClaims(s.state.operations[p]) ==>
        (target, PromptOwner) in OwnerPairs(s.state);
      assert PromptOwner in SetAt(s.ix.owners, target) <==> (target, PromptOwner) in OwnerPairs(s.state);
    }
  }

  lemma QueueReplaced(
    nodes: map<Id, Node>, operations: set<Id>, branch: Branch, queue: map<Id, QueueEntry>, q: QueueEntry)
    requires QueueOk(nodes, operations, branch, queue) && q.id in queue && q.kind == queue[q.id].kind
    requires IsPending(queue[q.id]) <==> IsPending(q)
    requires EntryOk(nodes, operations, branch, q)
    ensures QueueOk(nodes, operations, branch, queue[q.id := q])
  {
    var replaced := queue[q.id := q];
    forall kind ensures PendingExact(replaced, branch.pending, kind) {
      assert PendingExact(queue, branch.pending, kind);
    }
  }

  lemma QueueClaimedKeeps(s: Session, c: Change)
    requires c.QueueClaimed? && StateOk(s.state) && ApplyQueueClaimed(s, c).Some?
    ensures StateOk(ApplyQueueClaimed(s, c).value.state)
  {
    var q := s.state.queue[c.entryId];
    assert EntryOk(s.state.nodes, s.state.operations.Keys, s.state.branch, q);
    QueueReplaced(s.state.nodes, s.state.operations.Keys, s.state.branch, s.state.queue,
      q.(status := Claimed, operation := Some(c.operation), claimedAt := Some(c.claimedAt)));
  }

  lemma {:induction false} WithoutRemoves(ids: seq<Id>, id: Id)
    requires Distinct(ids)
    ensures Distinct(Without(ids, id))
    ensures forall x :: x in Without(ids, id) <==> x in ids && x != id
    ensures |ids| > 0 && ids[0] != id ==> |Without(ids, id)| > 0 && Without(ids, id)[0] == ids[0]
  {
    if ids != [] {
      assert ids == [ids[0]] + ids[1..];
      assert forall i :: 0 <= i < |ids[1..]| ==> ids[1..][i] == ids[i + 1];
      if ids[0] == id {
        assert id !in ids[1..];
      } else {
        WithoutRemoves(ids[1..], id);
        assert ids[0] !in Without(ids[1..], id);
      }
    }
  }

  lemma QueueLeaves(
    nodes: map<Id, Node>, operations: set<Id>, branch: Branch, queue: map<Id, QueueEntry>, q: QueueEntry)
    requires QueueOk(nodes, operations, branch, queue) && q.id in queue && q.kind == queue[q.id].kind
    requires forall x :: x in queue ==> queue[x].id == x
    requires !IsPending(q) && EntryOk(nodes, operations, branch, q)
    ensures QueueOk(nodes, operations,
      branch.(pending := branch.pending.With(q.kind, Without(branch.pending.Of(q.kind), q.id))), queue[q.id := q])
  {
    var pending := branch.pending.With(q.kind, Without(branch.pending.Of(q.kind), q.id));
    var more := branch.(pending := pending);
    var replaced := queue[q.id := q];
    assert PendingExact(queue, branch.pending, q.kind);
    WithoutRemoves(branch.pending.Of(q.kind), q.id);
    forall kind ensures PendingExact(replaced, pending, kind) {
      assert PendingExact(queue, branch.pending, kind);
    }
    forall x | x in queue && x != q.id ensures EntryOk(nodes, operations, more, queue[x]) {
      EntryUnder(nodes, operations, branch, more, queue[x]);
    }
    assert EntryOk(nodes, operations, more, q);
  }

  lemma QueueFinishedKeeps(s: Session, c: Change)
    requires c.QueueFinished? && StateOk(s.state) && ApplyQueueFinished(s, c).Some?
    ensures StateOk(ApplyQueueFinished(s, c).value.state)
  {
    var q := s.state.queue[c.entryId];
    var r := q.(status := Ended(c.queueOutcome), finishedAt := Some(c.finishedAt));
    assert EntryOk(s.state.nodes, s.state.operations.Keys, s.state.branch, q);
    assert EntryOk(s.state.nodes, s.state.operations.Keys, s.state.branch, r);
    QueueLeaves(s.state.nodes, s.state.operations.Keys, s.state.branch, s.state.queue, r);
  }

  // ----- all changes -----

  lemma EffectStepKeeps(s: Session, c: Change, t: Session)
    requires IsEffectUpdate(c) && WellFormedChange(c) && StateOk(s.state) && Keyed(s.state) && Step(s, c) == Some(t)
    requires RunsOk(s.state.nodes, s.state.branch.open, s.state.operations)
    requires EffectsOk(s.state.nodes, s.state.operations, s.state.effects)
    ensures StateOk(t.state)
  {
    hide *;
    EffectStep(s, c, t);
    UpdatedEffect(s, c, t);
    EffectUpdateIs(c);
    RunIsUnfinished(s.state, s.state.effects[c.effectId].operation);
    EffectUpdateKeeps(s.state, t.state, c.effectId);
  }

  lemma MetadataKeeps(s: State, t: State)
    requires StateOk(s) && t == s.(branch := s.branch.(head := t.branch.head), name := t.name, labels := t.labels)
    requires Known(s.nodes, t.branch.head)
    ensures StateOk(t)
  {
    forall q | q in s.queue ensures EntryOk(s.nodes, s.operations.Keys, t.branch, s.queue[q]) {
      EntryUnder(s.nodes, s.operations.Keys, s.branch, t.branch, s.queue[q]);
    }
  }

  lemma HeadKeeps(s: Session, c: Change)
    requires c.MoveHead? && StateOk(s.state) && ApplyHead(s, c.head).Some?
    ensures StateOk(ApplyHead(s, c.head).value.state)
  {
    var t := ApplyHead(s, c.head).value.state;
    assert t == s.state.(branch := s.state.branch.(head := c.head)) && Known(s.state.nodes, c.head);
    hide StateOk;
    MetadataKeeps(s.state, t);
  }

  lemma NamesKeep(s: State, t: State)
    requires StateOk(s) && t == s.(name := t.name, labels := t.labels)
    ensures StateOk(t)
  {
  }

  lemma LabelKeeps(s: Session, c: Change)
    requires c.LabelNode? && StateOk(s.state) && ApplyLabel(s, c.labelled, c.title).Some?
    ensures StateOk(ApplyLabel(s, c.labelled, c.title).value.state)
  {
    hide StateOk;
    NamesKeep(s.state, ApplyLabel(s, c.labelled, c.title).value.state);
  }

  /** One accepted change keeps the state invariant. */
  lemma RunChangeKeepsState(s: Session, c: Change, t: Session)
    requires Inv(s) && WellFormedChange(c) && Step(s, c) == Some(t)
    requires c.RunAccepted? || c.RunStepSelected? || c.RunAttempt? || c.RunCancel? || c.RunCheckpoint? || c.RunFinished?
    ensures StateOk(t.state)
  {
    hide *;
    InvParts(s);
    IndexParts(s);
    StepCases(s, c, t);
    match c
    case RunAccepted(_, _, _, _, _, _) => AcceptedKeeps(s, c);
    case RunStepSelected(_, _, _, _) => SelectedKeeps(s, c);
    case RunAttempt(_, _, _, _, _, _) => AttemptKeeps(s, c);
    case RunCancel(_, _, _, _) => CancelKeeps(s, c);
    case RunCheckpoint(_, _, _, _) => CheckpointKeeps(s, c);
    case RunFinished(_, _, _, _) => FinishedKeeps(s, c);
  }

  lemma StepKeepsState(s: Session, c: Change, t: Session)
    requires Inv(s) && WellFormedChange(c) && Step(s, c) == Some(t)
    ensures StateOk(t.state)
  {
    hide *;
    InvParts(s);
    IndexParts(s);
    StepCases(s, c, t);
    EffectUpdateIs(c);
    match c
    case AddNode(_) => NodeKeeps(s, c.node);
    case MoveHead(_) => HeadKeeps(s, c);
    case RenameSession(_) => NamesKeep(s.state, t.state);
    case LabelNode(_, _) => LabelKeeps(s, c);
    case RunAccepted(_, _, _, _, _, _) => RunChangeKeepsState(s, c, t);
    case RunStepSelected(_, _, _, _) => RunChangeKeepsState(s, c, t);
    case RunAttempt(_, _, _, _, _, _) => RunChangeKeepsState(s, c, t);
    case RunCancel(_, _, _, _) => RunChangeKeepsState(s, c, t);
    case RunCheckpoint(_, _, _, _) => RunChangeKeepsState(s, c, t);
    case RunFinished(_, _, _, _) => RunChangeKeepsState(s, c, t);
    case QueueAdded(_, _, _, _, _) => QueueAddedKeeps(s, c);
    case QueueClaimed(_, _, _) => QueueClaimedKeeps(s, c);
    case QueueFinished(_, _, _) => QueueFinishedKeeps(s, c);
    case ToolPrepared(_, _, _, _, _, _, _, _, _, _, _, _, _, _) => PreparedKeeps(s, c);
    case _ => EffectStepKeeps(s, c, t);
  }
}
