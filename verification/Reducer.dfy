/** The session reducer as a function: what one change, and one commit, does to a session.

    `None` is a rejection (the validation error that the program throws). The lookups go
    through the derived indexes exactly where the program's do. */
module Reducer {
  import opened Options
  import opened CanonicalJson
  import opened SessionTypes

  /** SHA-256 in lowercase hexadecimal; nothing is assumed about it. */
  const SHA256: string -> string

  function InputHash(input: Json): string {
    SHA256(Canonical(input))
  }

  // ----- ancestry -----

  datatype Walk = Reached(path: seq<Id>) | NotDescendant | Cycle | UnknownNode | ForeignNode

  /** The nodes from `start` up to, and without, `ancestor`; with `owner` set, only nodes of
      that operation may be crossed. */
  function WalkUp(
    nodes: map<Id, Node>, start: Option<Id>, ancestor: Option<Id>, owner: Option<Id>, visited: set<Id>): Walk
    decreases nodes.Keys - visited
  {
    if start == ancestor then Reached([])
    else if start.None? then NotDescendant
    else if start.value in visited then Cycle
    else if start.value !in nodes then UnknownNode
    else if owner.Some? && nodes[start.value].operation != owner then ForeignNode
    else
      match WalkUp(nodes, nodes[start.value].parent, ancestor, owner, visited + {start.value})
      case Reached(path) => Reached([start.value] + path)
      case failure => failure
  }

  function Ancestry(nodes: map<Id, Node>, start: Option<Id>, ancestor: Option<Id>, owner: Option<Id>): Walk {
    WalkUp(nodes, start, ancestor, owner, {})
  }

  predicate Descends(nodes: map<Id, Node>, descendant: Id, ancestor: Id) {
    descendant == ancestor || Ancestry(nodes, Some(descendant), Some(ancestor), None).Reached?
  }

  // ----- lookups -----

  predicate Fresh(ix: Indexes, id: Id) {
    SetAt(ix.owners, id) == {}
  }

  predicate Known(nodes: map<Id, Node>, id: Option<Id>) {
    id.Some? ==> id.value in nodes
  }

  function OpenOperation(s: State, operation: Id): Option<Operation> {
    if operation in s.operations && s.branch.open == Some(operation) then Some(s.operations[operation]) else None
  }

  function EntryFor(s: Session, target: Id): Option<QueueEntry> {
    if target in s.ix.entryByTarget then Get(s.state.queue, s.ix.entryByTarget[target]) else None
  }

  function PromptOf(s: Session, node: Id): Option<Operation> {
    if node in s.ix.operationByPrompt then Get(s.state.operations, s.ix.operationByPrompt[node]) else None
  }

  function EffectsFor(s: Session, result: Id): set<Id> {
    set e | e in SetAt(s.ix.effectsByResult, result) && e in s.state.effects
  }

  function Own(ix: Indexes, id: Id, owner: Owner): Indexes {
    ix.(owners := AddTo(ix.owners, id, owner))
  }

  // ----- conversation nodes -----

  predicate BodyAllowed(nodes: map<Id, Node>, node: Node) {
    match node.body
    case Compaction(_, retained) =>
      && (forall i | 0 <= i < |retained| :: retained[i] in nodes)
      && (|retained| > 0 ==> node.parent.Some?)
      && (forall i | 0 <= i < |retained| ::
            && Descends(nodes, node.parent.value, retained[i])
            && (i > 0 ==> Descends(nodes, retained[i], retained[i - 1])))
    case BranchSummary(from, to, _) =>
      from in nodes && to in nodes && node.parent == Some(from) && Descends(nodes, to, from)
    case _ => true
  }

  predicate IsUserMessage(node: Node) {
    node.body.Message? && node.body.role.User?
  }

  predicate IsToolMessage(node: Node) {
    node.body.Message? && node.body.role.Tool?
  }

  predicate EntryAllows(entry: QueueEntry, node: Node) {
    && (IsUserMessage(node) || node.body.ExtensionContext?)
    && entry.status.Claimed? && entry.operation.Some?
    && node.operation == entry.operation
  }

  predicate SameReservation(e: Effect, f: Effect) {
    e.operation == f.operation && e.step == f.step && e.assistant == f.assistant && e.fingerprint == f.fingerprint
  }

  predicate EffectsAllow(s: State, ids: set<Id>, node: Node)
    requires ids <= s.effects.Keys
  {
    && (forall e | e in ids :: IsToolMessage(node) && node.operation == Some(s.effects[e].operation))
    && (forall e, f | e in ids && f in ids :: SameReservation(s.effects[e], s.effects[f]))
    && (forall e | e in ids ::
          Ancestry(s.nodes, node.parent, Some(s.effects[e].assistant), Some(s.effects[e].operation)).Reached?)
  }

  predicate PromptAllows(s: State, operation: Operation, queued: bool, node: Node) {
    && (IsUserMessage(node) || (queued && node.body.ExtensionContext?))
    && Ancestry(s.nodes, node.parent, operation.source, Some(operation.id)).Reached?
    && node.operation == Some(operation.id)
  }

  predicate NodeAllowed(s: Session, node: Node) {
    var entry, effects, prompt := EntryFor(s, node.id), EffectsFor(s, node.id), PromptOf(s, node.id);
    && (if entry.None? && effects == {} && prompt.None? then Fresh(s.ix, node.id) else node.id !in s.state.nodes)
    && Known(s.state.nodes, node.parent)
    && (node.operation.Some? ==> OpenOperation(s.state, node.operation.value).Some?)
    && BodyAllowed(s.state.nodes, node)
    && (entry.Some? ==> EntryAllows(entry.value, node))
    && EffectsAllow(s.state, effects, node)
    && (prompt.Some? ==> PromptAllows(s.state, prompt.value, entry.Some?, node))
  }

  function ApplyNode(s: Session, node: Node): Option<Session> {
    if !NodeAllowed(s, node) then None
    else Some(Session(
      s.state.(nodes := s.state.nodes[node.id := node]),
      Own(s.ix, node.id, NodeOwner)))
  }

  // ----- branch and session metadata -----

  function ApplyHead(s: Session, head: Option<Id>): Option<Session> {
    if !Known(s.state.nodes, head) then None
    else Some(s.(state := s.state.(branch := s.state.branch.(head := head))))
  }

  function ApplyLabel(s: Session, node: Id, title: Option<string>): Option<Session> {
    if node !in s.state.nodes then None
    else if title.None? then Some(s.(state := s.state.(labels := s.state.labels - {node})))
    else Some(s.(state := s.state.(labels := s.state.labels[node := title.value])))
  }

  // ----- runs -----

  predicate PromptAvailable(s: Session, prompt: Option<Id>) {
    prompt.Some? ==>
      var entry := EntryFor(s, prompt.value);
      && (if entry.None? then Fresh(s.ix, prompt.value) else entry.value.status.Queued?)
      && prompt.value !in s.state.nodes
  }

  function NewOperation(c: Change): Operation
    requires c.RunAccepted?
  {
    Operation(c.operation, c.prompt, c.source, c.acceptedAt, c.request, c.selection,
              [], [], None, [], Accepted, None, None)
  }

  function PutOperation(s: Session, operation: Operation): Session {
    s.(state := s.state.(operations := s.state.operations[operation.id := operation]))
  }

  function ApplyAccepted(s: Session, c: Change): Option<Session>
    requires c.RunAccepted?
  {
    if s.state.branch.open.Some? || !Fresh(s.ix, c.operation) || c.prompt == Some(c.operation)
      || s.state.branch.head != c.source || !Known(s.state.nodes, c.source) || !PromptAvailable(s, c.prompt)
    then None
    else
      var state := PutOperation(s, NewOperation(c)).state;
      var owned := Own(s.ix, c.operation, OperationOwner);
      var ix := if c.prompt.None? then owned else
        Own(owned, c.prompt.value, PromptOwner).(
          operationByPrompt := owned.operationByPrompt[c.prompt.value := c.operation]);
      Some(Session(state.(branch := state.branch.(open := Some(c.operation))), ix))
  }

  predicate StepAllowed(operation: Operation, step: nat, selection: Selection) {
    && operation.cancel.None?
    && step == |operation.steps|
    && (if step == 0 then selection == operation.selection
        else |operation.attempts| > 0 && operation.attempts[|operation.attempts| - 1].step == step - 1)
  }

  function SelectStep(operation: Operation, step: StepSelection): Operation {
    operation.(steps := operation.steps + [step])
  }

  function ApplyStep(s: Session, c: Change): Option<Session>
    requires c.RunStepSelected?
  {
    var operation :- OpenOperation(s.state, c.operation);
    if !StepAllowed(operation, c.step, c.selection) then None
    else Some(PutOperation(s, SelectStep(operation, StepSelection(c.step, c.selectedAt, c.selection))))
  }

  predicate AttemptAllowed(operation: Operation, step: nat, attempt: nat) {
    && operation.cancel.None?
    && |operation.steps| > 0 && operation.steps[|operation.steps| - 1].step == step
    && (if |operation.attempts| == 0 then step == 0 && attempt == 1
        else
          var previous := operation.attempts[|operation.attempts| - 1];
          if step == previous.step then attempt == previous.attempt + 1
          else step == previous.step + 1 && attempt == 1)
  }

  function AddAttempt(operation: Operation, attempt: Attempt): Operation {
    operation.(attempts := operation.attempts + [attempt], status := Running)
  }

  function ApplyAttempt(s: Session, c: Change): Option<Session>
    requires c.RunAttempt?
  {
    var operation :- OpenOperation(s.state, c.operation);
    if !Fresh(s.ix, c.attemptId) || !AttemptAllowed(operation, c.step, c.attempt) then None
    else Some(PutOperation(s, AddAttempt(operation, Attempt(c.attemptId, c.step, c.attempt, c.task, c.startedAt))).(
      ix := Own(s.ix, c.attemptId, AttemptOwner)))
  }

  function RequestCancel(operation: Operation, cancel: Cancellation): Operation {
    operation.(cancel := Some(cancel))
  }

  function CancelEffect(e: Effect, cancelId: Id, at: Time): Effect {
    if !e.status.Prepared? then e
    else e.(status := NotApplied, cancelledBy := Some(cancelId), finishedAt := Some(at),
            inDoubtAt := None, inDoubtDetail := None, output := None)
  }

  function ApplyCancel(s: Session, c: Change): Option<Session>
    requires c.RunCancel?
  {
    var operation :- OpenOperation(s.state, c.operation);
    if operation.cancel.Some? || !Fresh(s.ix, c.cancelId) then None
    else
      var affected := SetAt(s.ix.effectsByOperation, operation.id);
      var cancelled := PutOperation(s, RequestCancel(operation, Cancellation(c.cancelId, c.requestedAt, c.reason)));
      Some(Session(
        cancelled.state.(effects := map e | e in s.state.effects ::
          if e in affected then CancelEffect(s.state.effects[e], c.cancelId, c.requestedAt) else s.state.effects[e]),
        Own(s.ix, c.cancelId, CancelOwner)))
  }

  function AddCheckpoint(operation: Operation, checkpoint: Id): Operation {
    operation.(checkpoints := operation.checkpoints + [checkpoint])
  }

  function ApplyCheckpoint(s: Session, c: Change): Option<Session>
    requires c.RunCheckpoint?
  {
    var operation :- OpenOperation(s.state, c.operation);
    if !Fresh(s.ix, c.checkpointId) then None
    else
      var updated := PutOperation(s, AddCheckpoint(operation, c.checkpointId));
      Some(Session(
        updated.state.(checkpoints := s.state.checkpoints[
          c.checkpointId := Checkpoint(c.checkpointId, c.operation, c.createdAt, c.data)]),
        Own(s.ix, c.checkpointId, CheckpointOwner)))
  }

  predicate EffectSettled(s: State, e: Effect) {
    && Terminal(e.status)
    && (e.status.Succeeded? || e.status.Failed? ==> e.output.Some?)
    && e.result in s.nodes
  }

  predicate FinishAllowed(s: Session, operation: Operation, outcome: RunOutcome) {
    && (outcome.Completed? ==> operation.cancel.None?)
    && (outcome.RunCancelled? ==> operation.cancel.Some?)
    && Known(s.state.nodes, operation.prompt)
    && (match Ancestry(s.state.nodes, s.state.branch.head, operation.source, Some(operation.id))
        case Reached(path) => operation.prompt.Some? ==> operation.prompt.value in path
        case _ => false)
    && (forall e | e in SetAt(s.ix.entriesByOperation, operation.id) && e in s.state.queue ::
          !s.state.queue[e].status.Claimed?)
    && (forall e | e in SetAt(s.ix.effectsByOperation, operation.id) && e in s.state.effects ::
          EffectSettled(s.state, s.state.effects[e]))
  }

  function Finish(operation: Operation, outcome: RunOutcome, at: Time, detail: Option<Json>): Operation {
    operation.(status := Finished(outcome), finishedAt := Some(at), detail := detail)
  }

  function ApplyFinished(s: Session, c: Change): Option<Session>
    requires c.RunFinished?
  {
    var operation :- OpenOperation(s.state, c.operation);
    if !FinishAllowed(s, operation, c.runOutcome) then None
    else
      var finished := PutOperation(s, Finish(operation, c.runOutcome, c.finishedAt, c.detail));
      Some(finished.(state := finished.state.(branch := s.state.branch.(open := None))))
  }

  // ----- queue -----

  function ApplyQueueAdded(s: Session, c: Change): Option<Session>
    requires c.QueueAdded?
  {
    if !Fresh(s.ix, c.entryId) || !Fresh(s.ix, c.target) || c.entryId == c.target then None
    else
      var entry := QueueEntry(c.entryId, c.target, c.kind, c.addedAt, c.message, Queued, None, None, None);
      var pending := s.state.branch.pending;
      Some(Session(
        s.state.(
          queue := s.state.queue[c.entryId := entry],
          branch := s.state.branch.(pending := pending.With(c.kind, pending.Of(c.kind) + [c.entryId]))),
        Own(Own(s.ix, c.entryId, EntryOwner), c.target, TargetOwner).(
          entryByTarget := s.ix.entryByTarget[c.target := c.entryId])))
  }

  predicate ClaimAllowed(s: Session, entry: QueueEntry, operation: Id) {
    && entry.status.Queued?
    && (var owner := PromptOf(s, entry.target); owner.Some? ==> owner.value.id == operation)
    && (var pending := s.state.branch.pending.Of(entry.kind); |pending| > 0 && pending[0] == entry.id)
  }

  function ApplyQueueClaimed(s: Session, c: Change): Option<Session>
    requires c.QueueClaimed?
  {
    var operation :- OpenOperation(s.state, c.operation);
    var entry :- Get(s.state.queue, c.entryId);
    if !ClaimAllowed(s, entry, c.operation) then None
    else Some(Session(
      s.state.(queue := s.state.queue[c.entryId := entry.(
        status := Claimed, operation := Some(c.operation), claimedAt := Some(c.claimedAt))]),
      s.ix.(entriesByOperation := AddTo(s.ix.entriesByOperation, c.operation, entry.id))))
  }

  predicate QueueFinishAllowed(s: State, entry: QueueEntry, outcome: QueueOutcome) {
    match outcome
    case Consumed =>
      && entry.status.Claimed?
      && entry.target in s.nodes
      && entry.operation.Some?
      && s.nodes[entry.target].operation == entry.operation
    case Dropped => entry.status.Queued? || entry.status.Claimed?
  }

  function Without(ids: seq<Id>, id: Id): seq<Id> {
    if ids == [] then [] else if ids[0] == id then ids[1..] else [ids[0]] + Without(ids[1..], id)
  }

  function ApplyQueueFinished(s: Session, c: Change): Option<Session>
    requires c.QueueFinished?
  {
    var entry :- Get(s.state.queue, c.entryId);
    var pending := s.state.branch.pending;
    if !QueueFinishAllowed(s.state, entry, c.queueOutcome) || entry.id !in pending.Of(entry.kind) then None
    else Some(s.(state := s.state.(
      queue := s.state.queue[c.entryId := entry.(status := Ended(c.queueOutcome), finishedAt := Some(c.finishedAt))],
      branch := s.state.branch.(pending := pending.With(entry.kind, Without(pending.Of(entry.kind), entry.id))))))
  }

  // ----- tool effects -----

  predicate ResultAvailable(s: Session, c: Change)
    requires c.ToolPrepared?
  {
    var shared := EffectsFor(s, c.result);
    if shared == {} then Fresh(s.ix, c.result)
    else
      && SetAt(s.ix.owners, c.result) - {ResultOwner} == {}
      && (forall e | e in shared ::
            && s.state.effects[e].operation == c.operation
            && s.state.effects[e].step == c.step
            && s.state.effects[e].assistant == c.assistant
            && s.state.effects[e].index != c.index)
  }

  predicate PrepareAllowed(s: Session, operation: Operation, c: Change)
    requires c.ToolPrepared?
  {
    && operation.cancel.None?
    && c.call !in SetAt(s.ix.callsByOperation, c.operation)
    && Fresh(s.ix, c.effectId) && Fresh(s.ix, c.invocation)
    && ResultAvailable(s, c)
    && c.effectId != c.invocation && c.effectId != c.result && c.invocation != c.result
    && |operation.attempts| > 0 && operation.attempts[|operation.attempts| - 1].step == c.step
    && c.step < |operation.steps|
    && c.assistant in s.state.nodes
    && (var assistant := s.state.nodes[c.assistant];
        assistant.body.Message? && assistant.body.role.Assistant? && assistant.operation == Some(c.operation))
    && (var selection := operation.steps[c.step].selection;
        c.fingerprint == selection.fingerprint && c.tool in selection.toolNames)
    && c.inputHash == InputHash(c.input)
  }

  function NewEffect(c: Change): Effect
    requires c.ToolPrepared?
  {
    Effect(c.effectId, c.operation, c.invocation, c.call, c.tool, c.policy, c.input, c.inputHash, c.result,
           c.step, c.index, c.assistant, c.fingerprint, c.preparedAt, Prepared, [], None, None, None, None,
           None, None, None, None, None)
  }

  function PutEffect(s: Session, effect: Effect): Session {
    s.(state := s.state.(effects := s.state.effects[effect.id := effect]))
  }

  function ApplyPrepared(s: Session, c: Change): Option<Session>
    requires c.ToolPrepared?
  {
    var operation :- OpenOperation(s.state, c.operation);
    if !PrepareAllowed(s, operation, c) then None
    else
      var ix := Own(Own(Own(s.ix, c.effectId, EffectOwner), c.invocation, InvocationOwner), c.result, ResultOwner);
      Some(Session(
        PutEffect(s, NewEffect(c)).state,
        ix.(
          effectsByResult := AddTo(ix.effectsByResult, c.result, c.effectId),
          effectsByOperation := AddTo(ix.effectsByOperation, c.operation, c.effectId),
          callsByOperation := AddTo(ix.callsByOperation, c.operation, c.call))))
  }

  /** An effect whose operation is open. */
  function LiveEffect(s: State, effect: Id): Option<Effect> {
    if effect in s.effects && OpenOperation(s, s.effects[effect].operation).Some? then Some(s.effects[effect]) else None
  }

  predicate DispatchAllowed(operation: Operation, effect: Effect) {
    && operation.cancel.None?
    && (|| (effect.status.Prepared? && |effect.dispatches| == 0)
        || (effect.status.InDoubt? && effect.policy.Repeatable? && |effect.dispatches| == 1))
  }

  function Dispatch(effect: Effect, dispatchId: Id, at: Time): Effect {
    effect.(dispatches := effect.dispatches + [dispatchId], lastDispatchedAt := Some(at), status := Dispatched,
            inDoubtAt := None, inDoubtDetail := None)
  }

  function ApplyDispatched(s: Session, c: Change): Option<Session>
    requires c.ToolDispatched?
  {
    var effect :- LiveEffect(s.state, c.effectId);
    var operation :- OpenOperation(s.state, effect.operation);
    if !DispatchAllowed(operation, effect) || !Fresh(s.ix, c.dispatchId) then None
    else Some(PutEffect(s, Dispatch(effect, c.dispatchId, c.dispatchedAt)).(
      ix := Own(s.ix, c.dispatchId, DispatchOwner)))
  }

  function Doubt(effect: Effect, at: Time, detail: Option<Json>): Effect {
    effect.(status := InDoubt, inDoubtAt := Some(at), inDoubtDetail := detail)
  }

  function ApplyInDoubt(s: Session, c: Change): Option<Session>
    requires c.ToolInDoubt?
  {
    var effect :- LiveEffect(s.state, c.effectId);
    if !effect.status.Dispatched? then None
    else Some(PutEffect(s, Doubt(effect, c.noticedAt, c.detail)))
  }

  function StartRecovery(effect: Effect, recoveryId: Id, at: Time): Effect {
    effect.(status := RecoveryStarted, recovery := Some(recoveryId), recoveryStartedAt := Some(at))
  }

  function ApplyRecovery(s: Session, c: Change): Option<Session>
    requires c.ToolRecoveryStarted?
  {
    var effect :- LiveEffect(s.state, c.effectId);
    if !effect.status.InDoubt? || !effect.policy.Reconcile? || effect.recovery.Some? || !Fresh(s.ix, c.recoveryId)
    then None
    else Some(PutEffect(s, StartRecovery(effect, c.recoveryId, c.startedAt)).(
      ix := Own(s.ix, c.recoveryId, RecoveryOwner)))
  }

  function Complete(effect: Effect, settled: EffectStatus, at: Time, output: Option<Json>): Effect {
    effect.(status := settled, finishedAt := Some(at), inDoubtAt := None, inDoubtDetail := None, output := output)
  }

  function ApplyToolFinished(s: Session, c: Change): Option<Session>
    requires c.ToolFinished?
  {
    var effect :- LiveEffect(s.state, c.effectId);
    if !effect.status.Dispatched? || c.output.None? then None
    else Some(PutEffect(s, Complete(effect, c.settled, c.finishedAt, c.output)))
  }

  function Settle(
    effect: Effect, settlement: Id, cancelledBy: Option<Id>, settled: EffectStatus, at: Time,
    output: Option<Json>): Effect
  {
    Complete(effect, settled, at, output).(settlement := Some(settlement), cancelledBy := cancelledBy)
  }

  function ApplyReconciled(s: Session, c: Change): Option<Session>
    requires c.ToolReconciled?
  {
    var effect :- LiveEffect(s.state, c.effectId);
    if !effect.status.RecoveryStarted? || !effect.policy.Reconcile? || effect.recovery != Some(c.reconciliationId)
      || (c.settled.NotApplied? <==> c.output.Some?)
    then None
    else Some(PutEffect(s, Settle(effect, c.reconciliationId, effect.cancelledBy, c.settled, c.resolvedAt, c.output)).(
        ix := Own(s.ix, c.reconciliationId, SettlementOwner)))
  }

  predicate ResolveAllowed(operation: Operation, effect: Effect) {
    || (effect.status.InDoubt? && (effect.policy.NeverRepeat? || operation.cancel.Some?))
    || (effect.status.RecoveryStarted? && effect.policy.Reconcile?)
  }

  function Canceller(operation: Operation, effect: Effect): Option<Id> {
    if !effect.policy.NeverRepeat? && operation.cancel.Some? then Some(operation.cancel.value.id)
    else effect.cancelledBy
  }

  function ApplyResolved(s: Session, c: Change): Option<Session>
    requires c.ToolResolved?
  {
    var effect :- LiveEffect(s.state, c.effectId);
    var operation :- OpenOperation(s.state, effect.operation);
    if !ResolveAllowed(operation, effect) || (c.settled.Abandoned? <==> c.output.Some?) || !Fresh(s.ix, c.resolutionId)
    then None
    else
      Some(PutEffect(s, Settle(
        effect, c.resolutionId, Canceller(operation, effect), c.settled, c.resolvedAt, c.output)).(
          ix := Own(s.ix, c.resolutionId, SettlementOwner)))
  }

  // ----- one change, one commit, a run of commits -----

  function Step(s: Session, c: Change): Option<Session> {
    match c
    case AddNode(node) => ApplyNode(s, node)
    case MoveHead(head) => ApplyHead(s, head)
    case RenameSession(name) => Some(s.(state := s.state.(name := name)))
    case LabelNode(node, title) => ApplyLabel(s, node, title)
    case RunAccepted(_, _, _, _, _, _) => ApplyAccepted(s, c)
    case RunStepSelected(_, _, _, _) => ApplyStep(s, c)
    case RunAttempt(_, _, _, _, _, _) => ApplyAttempt(s, c)
    case RunCancel(_, _, _, _) => ApplyCancel(s, c)
    case RunCheckpoint(_, _, _, _) => ApplyCheckpoint(s, c)
    case RunFinished(_, _, _, _) => ApplyFinished(s, c)
    case QueueAdded(_, _, _, _, _) => ApplyQueueAdded(s, c)
    case QueueClaimed(_, _, _) => ApplyQueueClaimed(s, c)
    case QueueFinished(_, _, _) => ApplyQueueFinished(s, c)
    case ToolPrepared(_, _, _, _, _, _, _, _, _, _, _, _, _, _) => ApplyPrepared(s, c)
    case ToolDispatched(_, _, _) => ApplyDispatched(s, c)
    case ToolInDoubt(_, _, _) => ApplyInDoubt(s, c)
    case ToolRecoveryStarted(_, _, _) => ApplyRecovery(s, c)
    case ToolFinished(_, _, _, _) => ApplyToolFinished(s, c)
    case ToolReconciled(_, _, _, _, _) => ApplyReconciled(s, c)
    case ToolResolved(_, _, _, _, _) => ApplyResolved(s, c)
  }

  function Steps(s: Session, cs: seq<Change>): Option<Session>
    decreases |cs|
  {
    if cs == [] then Some(s)
    else
      var next :- Step(s, cs[0]);
      Steps(next, cs[1..])
  }

  predicate ClaimedIn(cs: seq<Change>, entry: Id, operation: Id) {
    exists i | 0 <= i < |cs| :: cs[i].QueueClaimed? && cs[i].entryId == entry && cs[i].operation == operation
  }

  /** A queued prompt must be accepted and claimed by the same operation in one commit. */
  predicate PromptClaimed(s: Session, cs: seq<Change>, c: Change) {
    c.RunAccepted? && c.prompt.Some? ==>
      var entry := EntryFor(s, c.prompt.value);
      entry.Some? ==> ClaimedIn(cs, entry.value.id, c.operation) && entry.value.operation == Some(c.operation)
  }

  predicate PromptsClaimed(s: Session, cs: seq<Change>) {
    forall i | 0 <= i < |cs| :: PromptClaimed(s, cs, cs[i])
  }

  datatype Outcome = Rejected | Duplicate | Applied(next: Session)

  function Record(s: Session, commit: Commit): Session {
    s.(state := s.state.(sequence := commit.sequence, commits := s.state.commits[commit.commitId := commit]))
  }

  function Transition(s: Session, commit: Commit): Outcome {
    if !WellFormed(commit) then Rejected
    else if commit.commitId in s.state.commits then
      if s.state.commits[commit.commitId] == commit then Duplicate else Rejected
    else if commit.sequence != s.state.sequence + 1 then Rejected
    else
      match Steps(s, commit.changes)
      case None => Rejected
      case Some(next) =>
        if PromptsClaimed(next, commit.changes) then Applied(Record(next, commit)) else Rejected
  }

  /** The session after offering it a commit; a rejected or repeated commit leaves it alone. */
  function After(s: Session, commit: Commit): Session {
    var outcome := Transition(s, commit);
    if outcome.Applied? then outcome.next else s
  }

  function Run(s: Session, commits: seq<Commit>): Session
    decreases |commits|
  {
    if commits == [] then s else Run(After(s, commits[0]), commits[1..])
  }

  ghost predicate Reachable(s: Session) {
    exists header, commits :: s == Run(Initial(header), commits)
  }

  /** `t` is a later state than `s`: any commits, accepted or not, may lie between. */
  ghost predicate Later(s: Session, t: Session) {
    exists commits :: t == Run(s, commits)
  }
}
