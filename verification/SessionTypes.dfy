/** The records of a session log: commits, the changes they carry, and the state they build.

    Payloads, selections and timestamps are compared only for equality. There is one branch. */
module SessionTypes {
  import opened Options
  import opened CanonicalJson

  type Id = string
  type Time = string

  // ----- conversation -----

  datatype Role = System | User | Assistant | Tool

  datatype NodeBody =
    | Message(role: Role, content: Json)
    | ModelChange(provider: string, model: string)
    | ThinkingChange(level: string)
    | ToolsChange(tools: seq<string>, toolsFingerprint: string)
    | Compaction(compacted: Json, retained: seq<Id>)
    | BranchSummary(from: Id, to: Id, summary: Json)
    | ExtensionContext(contextExtension: Id, context: Json)
    | ExtensionState(stateExtension: Id, extensionState: Json)
    | Shell(command: string, cwd: string, output: Json)

  datatype Node = Node(id: Id, parent: Option<Id>, createdAt: Time, operation: Option<Id>, body: NodeBody)

  // ----- runs -----

  datatype Selection = Selection(
    provider: string, model: string, api: Option<string>, thinkingLevel: string,
    toolNames: seq<string>, fingerprint: string)

  datatype StepSelection = StepSelection(step: nat, selectedAt: Time, selection: Selection)
  datatype Attempt = Attempt(id: Id, step: nat, attempt: nat, task: string, startedAt: Time)
  datatype Cancellation = Cancellation(id: Id, requestedAt: Time, reason: Option<string>)

  datatype RunOutcome = Completed | RunFailed | RunCancelled
  datatype RunStatus = Accepted | Running | Finished(outcome: RunOutcome)

  datatype Operation = Operation(
    id: Id, prompt: Option<Id>, source: Option<Id>, acceptedAt: Time, request: Json,
    selection: Selection, steps: seq<StepSelection>, attempts: seq<Attempt>,
    cancel: Option<Cancellation>, checkpoints: seq<Id>, status: RunStatus,
    finishedAt: Option<Time>, detail: Option<Json>)

  datatype Checkpoint = Checkpoint(id: Id, operation: Id, createdAt: Time, data: Json)

  // ----- queue -----

  datatype QueueKind = Steering | FollowUp | NextRun
  datatype QueueOutcome = Consumed | Dropped
  datatype QueueStatus = Queued | Claimed | Ended(outcome: QueueOutcome)

  datatype QueueEntry = QueueEntry(
    id: Id, target: Id, kind: QueueKind, addedAt: Time, message: Json, status: QueueStatus,
    operation: Option<Id>, claimedAt: Option<Time>, finishedAt: Option<Time>)

  // ----- tool effects -----

  datatype Policy = Repeatable | Reconcile | NeverRepeat
  datatype EffectStatus =
    | Prepared | Dispatched | InDoubt | RecoveryStarted | Succeeded | Failed | NotApplied | Abandoned

  datatype Effect = Effect(
    id: Id, operation: Id, invocation: Id, call: string, tool: string, policy: Policy,
    input: Json, inputHash: string, result: Id, step: nat, index: nat, assistant: Id,
    fingerprint: string, preparedAt: Time, status: EffectStatus, dispatches: seq<Id>,
    recovery: Option<Id>, recoveryStartedAt: Option<Time>, settlement: Option<Id>,
    cancelledBy: Option<Id>, lastDispatchedAt: Option<Time>, inDoubtAt: Option<Time>,
    inDoubtDetail: Option<Json>, finishedAt: Option<Time>, output: Option<Json>)

  predicate Terminal(status: EffectStatus) {
    status.Succeeded? || status.Failed? || status.NotApplied? || status.Abandoned?
  }

  // ----- changes and commits -----

  datatype Change =
    | AddNode(node: Node)
    | MoveHead(head: Option<Id>)
    | RenameSession(name: Option<string>)
    | LabelNode(labelled: Id, title: Option<string>)
    | RunAccepted(
        operation: Id, prompt: Option<Id>, source: Option<Id>, acceptedAt: Time, request: Json,
        selection: Selection)
    | RunStepSelected(operation: Id, step: nat, selectedAt: Time, selection: Selection)
    | RunAttempt(operation: Id, attemptId: Id, step: nat, attempt: nat, task: string, startedAt: Time)
    | RunCancel(operation: Id, cancelId: Id, requestedAt: Time, reason: Option<string>)
    | RunCheckpoint(operation: Id, checkpointId: Id, createdAt: Time, data: Json)
    | RunFinished(operation: Id, finishedAt: Time, runOutcome: RunOutcome, detail: Option<Json>)
    | QueueAdded(entryId: Id, target: Id, kind: QueueKind, addedAt: Time, message: Json)
    | QueueClaimed(entryId: Id, operation: Id, claimedAt: Time)
    | QueueFinished(entryId: Id, finishedAt: Time, queueOutcome: QueueOutcome)
    | ToolPrepared(
        effectId: Id, operation: Id, invocation: Id, call: string, tool: string, policy: Policy,
        input: Json, inputHash: string, result: Id, step: nat, index: nat, assistant: Id,
        fingerprint: string, preparedAt: Time)
    | ToolDispatched(effectId: Id, dispatchId: Id, dispatchedAt: Time)
    | ToolInDoubt(effectId: Id, noticedAt: Time, detail: Option<Json>)
    | ToolRecoveryStarted(effectId: Id, recoveryId: Id, startedAt: Time)
    | ToolFinished(effectId: Id, finishedAt: Time, settled: EffectStatus, output: Option<Json>)
    | ToolReconciled(effectId: Id, reconciliationId: Id, resolvedAt: Time, settled: EffectStatus, output: Option<Json>)
    | ToolResolved(effectId: Id, resolutionId: Id, resolvedAt: Time, settled: EffectStatus, output: Option<Json>)

  datatype Commit = Commit(sequence: nat, commitId: Id, committedAt: Time, changes: seq<Change>)
  datatype Draft = Draft(commitId: Id, committedAt: Time, changes: seq<Change>)

  predicate Distinct(s: seq<Id>) {
    forall i, j | 0 <= i < j < |s| :: s[i] != s[j]
  }

  /** The constraints of the record schema that the reducer relies on. */
  predicate WellFormedChange(c: Change) {
    match c
    case AddNode(node) =>
      node.parent != Some(node.id) && (node.body.Compaction? ==> Distinct(node.body.retained))
    case RunAttempt(_, _, _, attempt, _, _) => attempt >= 1
    case ToolFinished(_, _, settled, _) => settled.Succeeded? || settled.Failed?
    case ToolReconciled(_, _, _, settled, _) => settled.Succeeded? || settled.Failed? || settled.NotApplied?
    case ToolResolved(_, _, _, settled, _) => settled.Succeeded? || settled.Failed? || settled.Abandoned?
    case _ => true
  }

  predicate WellFormedChanges(changes: seq<Change>) {
    |changes| > 0 && forall i | 0 <= i < |changes| :: WellFormedChange(changes[i])
  }

  predicate WellFormed(commit: Commit) {
    commit.sequence >= 1 && WellFormedChanges(commit.changes)
  }

  // ----- state -----

  datatype Pending = Pending(steering: seq<Id>, followUp: seq<Id>, nextRun: seq<Id>) {
    function Of(kind: QueueKind): seq<Id> {
      match kind
      case Steering => steering
      case FollowUp => followUp
      case NextRun => nextRun
    }

    function With(kind: QueueKind, ids: seq<Id>): (p: Pending)
      ensures forall k :: p.Of(k) == if k == kind then ids else Of(k)
    {
      match kind
      case Steering => this.(steering := ids)
      case FollowUp => this.(followUp := ids)
      case NextRun => this.(nextRun := ids)
    }
  }

  datatype Branch = Branch(head: Option<Id>, open: Option<Id>, pending: Pending)

  datatype Header = Header(sessionId: Id, createdAt: Time, workspace: string, cwd: string)

  datatype State = State(
    header: Header, sequence: nat, name: Option<string>, labels: map<Id, string>, branch: Branch,
    nodes: map<Id, Node>, operations: map<Id, Operation>, checkpoints: map<Id, Checkpoint>,
    queue: map<Id, QueueEntry>, effects: map<Id, Effect>, commits: map<Id, Commit>)

  // ----- derived indexes -----

  datatype Owner =
    | NodeOwner | OperationOwner | CheckpointOwner | EntryOwner | EffectOwner | PromptOwner
    | AttemptOwner | CancelOwner | TargetOwner | ResultOwner | InvocationOwner | DispatchOwner
    | RecoveryOwner | SettlementOwner

  type Sets<T> = map<string, set<T>>

  datatype Indexes = Indexes(
    owners: Sets<Owner>,
    entryByTarget: map<Id, Id>,
    operationByPrompt: map<Id, Id>,
    effectsByResult: Sets<Id>,
    entriesByOperation: Sets<Id>,
    effectsByOperation: Sets<Id>,
    callsByOperation: Sets<string>)

  const NO_INDEXES := Indexes(map[], map[], map[], map[], map[], map[], map[])

  function SetAt<T>(m: Sets<T>, k: string): set<T> {
    if k in m then m[k] else {}
  }

  function AddTo<T>(m: Sets<T>, k: string, v: T): Sets<T> {
    m[k := SetAt(m, k) + {v}]
  }

  /** A state together with its indexes. */
  datatype Session = Session(state: State, ix: Indexes)

  function Initial(header: Header): Session {
    Session(
      State(header, 0, None, map[], Branch(None, None, Pending([], [], [])),
            map[], map[], map[], map[], map[], map[]),
      NO_INDEXES)
  }
}
