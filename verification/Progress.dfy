/** Progress: which open operations can still be closed.

    An operation is stuck when its prompt is the target of a cancelled queue entry and was never
    added. Every other open operation can be closed by commits of one change each. */
module Progress {
  import opened Options
  import opened CanonicalJson
  import opened SessionTypes
  import opened Reducer
  import opened Paths
  import opened Invariant
  import opened Evolution
  import opened Preservation
  import opened Indexing
  import opened Runs

  /** The prompt of `p` is missing and can never be added: its queue entry was cancelled. */
  ghost predicate Stuck(s: State, p: Id) {
    && p in s.operations && s.operations[p].prompt.Some?
    && s.operations[p].prompt.value !in s.nodes
    && exists q :: q in s.queue && s.queue[q].target == s.operations[p].prompt.value
         && s.queue[q].status == Ended(Dropped)
  }

  // ----- a stuck operation stays open -----

  lemma StuckNodeStaysOut(s: Session, node: Node, p: Id)
    requires Maps(s.ix.entryByTarget, TargetPairs(s.state.queue)) && Stuck(s.state, p)
    requires NodeAllowed(s, node)
    ensures s.state.operations[p].prompt != Some(node.id)
  {
    var q :| q in s.state.queue && s.state.queue[q].target == s.state.operations[p].prompt.value
      && s.state.queue[q].status == Ended(Dropped);
    TargetIndexed(s, q, s.state.operations[p].prompt.value);
  }

  lemma StuckIsNotFinished(s: Session, c: Change, p: Id)
    requires s.state.branch.open == Some(p) && Stuck(s.state, p) && s.state.operations[p].id == p
    ensures c.RunAccepted? ==> ApplyAccepted(s, c).None?
    ensures c.RunFinished? ==> ApplyFinished(s, c).None?
  {
  }

  lemma StuckStaysOpen(s: Session, c: Change, t: Session, p: Id)
    requires Inv(s) && WellFormedChange(c) && Step(s, c) == Some(t)
    requires s.state.branch.open == Some(p) && Stuck(s.state, p) && s.state.operations[p].id == p
    ensures t.state.branch.open == Some(p)
  {
    hide *;
    StepCases(s, c, t);
    StepFrame(s, c, t);
    FrameParts(s.state, c, t.state);
    StuckIsNotFinished(s, c, p);
  }

  lemma AllowedNodes(s: Session, node: Node)
    requires ApplyNode(s, node).Some?
    ensures NodeAllowed(s, node) && ApplyNode(s, node).value.state.nodes == s.state.nodes[node.id := node]
  {
  }

  lemma StuckPrompt(s: State, p: Id)
    requires Stuck(s, p)
    ensures p in s.operations && s.operations[p].prompt.Some? && s.operations[p].prompt.value !in s.nodes
  {
  }

  lemma StuckPromptStaysOut(s: Session, c: Change, t: Session, p: Id)
    requires Inv(s) && WellFormedChange(c) && Stuck(s.state, p) && Step(s, c) == Some(t)
    ensures s.state.operations[p].prompt.value !in t.state.nodes
  {
    hide *;
    InvParts(s);
    IndexParts(s);
    StepCases(s, c, t);
    StepFrame(s, c, t);
    FrameParts(s.state, c, t.state);
    StuckPrompt(s.state, p);
    if c.AddNode? {
      AllowedNodes(s, c.node);
      StuckNodeStaysOut(s, c.node, p);
    }
  }

  lemma StuckEvolves(s: State, t: State, p: Id)
    requires Stuck(s, p) && Evolves(s, t) && s.operations[p].prompt.value !in t.nodes
    ensures Stuck(t, p)
  {
    var q :| q in s.queue && s.queue[q].target == s.operations[p].prompt.value && s.queue[q].status == Ended(Dropped);
    assert EntryEvolves(s.queue[q], t.queue[q]);
    assert RunEvolves(s.operations[p], t.operations[p]);
  }

  ghost predicate OpenAndStuck(s: State, p: Id) {
    s.branch.open == Some(p) && Stuck(s, p)
  }

  lemma OpenAndStuckIs(s: State, p: Id)
    ensures OpenAndStuck(s, p) <==> s.branch.open == Some(p) && Stuck(s, p)
    ensures Stuck(s, p) && Keyed(s) ==> s.operations[p].id == p
  {
  }

  lemma StuckStep(s: Session, c: Change, t: Session, p: Id)
    requires Inv(s) && WellFormedChange(c) && OpenAndStuck(s.state, p) && Step(s, c) == Some(t)
    ensures OpenAndStuck(t.state, p)
  {
    hide *;
    InvParts(s);
    OpenAndStuckIs(s.state, p);
    OpenAndStuckIs(t.state, p);
    StuckPrompt(s.state, p);
    StuckStaysOpen(s, c, t, p);
    StuckPromptStaysOut(s, c, t, p);
    StepEvolves(s, c, t);
    StuckEvolves(s.state, t.state, p);
  }

  lemma {:induction false} StuckSteps(s: Session, cs: seq<Change>, u: Session, p: Id)
    requires Inv(s) && WellFormedAll(cs) && OpenAndStuck(s.state, p) && Steps(s, cs) == Some(u)
    ensures OpenAndStuck(u.state, p)
    decreases |cs|
  {
    hide *;
    if cs == [] {
      NoSteps(s);
    } else {
      var t := StepsUnfold(s, cs, u);
      TailWellFormed(cs);
      StuckStep(s, cs[0], t, p);
      StepKeepsInv(s, cs[0], t);
      StuckSteps(t, cs[1..], u, p);
    }
  }

  lemma StuckAfter(s: Session, commit: Commit, p: Id)
    requires Settled(s) && OpenAndStuck(s.state, p)
    ensures OpenAndStuck(After(s, commit).state, p)
  {
    hide Settled, Transition, Stuck;
    if Transition(s, commit).Applied? {
      var u := After(s, commit);
      var t := AppliedCommit(s, commit, u);
      SettledIs(s);
      StuckSteps(s, commit.changes, t, p);
      StuckRecord(t, commit, p);
    }
  }

  lemma StuckRecord(t: Session, commit: Commit, p: Id)
    requires OpenAndStuck(t.state, p)
    ensures OpenAndStuck(Record(t, commit).state, p)
  {
  }

  lemma {:induction false} StuckRun(s: Session, commits: seq<Commit>, p: Id)
    requires Settled(s) && OpenAndStuck(s.state, p)
    ensures OpenAndStuck(Run(s, commits).state, p)
    decreases |commits|
  {
    hide Settled, OpenAndStuck, After;
    if commits != [] {
      AfterKeeps(s, commits[0]);
      StuckAfter(s, commits[0], p);
      StuckRun(After(s, commits[0]), commits[1..], p);
    }
  }

  /** A stuck operation is never closed by any later commit. */
  lemma StuckForever(s: Session, t: Session, p: Id)
    requires Reachable(s) && Later(s, t) && s.state.branch.open == Some(p) && Stuck(s.state, p)
    ensures t.state.branch.open == Some(p) && Stuck(t.state, p)
  {
    ReachableIsSettled(s);
    var commits :| t == Run(s, commits);
    StuckRun(s, commits, p);
  }

  // ----- chains of changes -----

  /** Each commit carries one change and is accepted; together they lead from `s` to `t`. */
  ghost predicate OneByOne(s: Session, commits: seq<Commit>, t: Session)
    decreases |commits|
  {
    if commits == [] then t == s
    else
      && |commits[0].changes| == 1 && Transition(s, commits[0]).Applied?
      && OneByOne(Transition(s, commits[0]).next, commits[1..], t)
  }

  ghost predicate Leads(s: Session, t: Session) {
    exists commits :: OneByOne(s, commits, t)
  }

  lemma {:induction false} OneByOneJoins(s: Session, a: seq<Commit>, t: Session, b: seq<Commit>, u: Session)
    requires OneByOne(s, a, t) && OneByOne(t, b, u)
    ensures OneByOne(s, a + b, u)
    decreases |a|
  {
    hide Transition;
    if a == [] {
      assert [] + b == b;
    } else {
      assert (a + b)[0] == a[0] && (a + b)[1..] == a[1..] + b;
      OneByOneJoins(Transition(s, a[0]).next, a[1..], t, b, u);
    }
  }

  lemma LeadsOn(s: Session, t: Session, u: Session)
    requires Leads(s, t) && Leads(t, u)
    ensures Leads(s, u)
  {
    hide OneByOne;
    var a :| OneByOne(s, a, t);
    var b :| OneByOne(t, b, u);
    OneByOneJoins(s, a, t, b, u);
  }

  lemma LeadsNowhere(s: Session)
    ensures Leads(s, s)
  {
    assert OneByOne(s, [], s);
  }

  /** Some string is longer than all strings of a set. */
  lemma {:induction false} LongerThanAll(ids: set<Id>) returns (n: nat)
    ensures forall id :: id in ids ==> |id| < n
  {
    if ids == {} {
      n := 0;
    } else {
      var id :| id in ids;
      n := LongerThanAll(ids - {id});
      n := if |id| < n then n else |id| + 1;
      assert forall x :: x in ids ==> x == id || x in ids - {id};
    }
  }

  /** There is always a new commit id. */
  lemma NewCommitId(s: Session) returns (id: Id)
    ensures id !in s.state.commits
  {
    var n := LongerThanAll(s.state.commits.Keys);
    id := seq(n, i => 'x');
    assert |id| == n;
  }

  /** `u` is `t` with another log. */
  ghost predicate Relogged(t: Session, u: Session) {
    u.ix == t.ix && ButLog(t.state, u.state)
  }

  /** The states agree in everything except the recorded commits. */
  ghost predicate ButLog(t: State, u: State) {
    u == t.(sequence := u.sequence, commits := u.commits)
  }

  lemma CommitApplies(s: Session, c: Change, t: Session, commit: Commit)
    requires WellFormedChange(c) && !c.RunAccepted? && Step(s, c) == Some(t)
    requires t.state.sequence == s.state.sequence && t.state.commits == s.state.commits
    requires commit.changes == [c] && commit.commitId !in s.state.commits && commit.sequence == s.state.sequence + 1
    ensures Transition(s, commit) == Applied(Record(t, commit))
  {
    hide Step, WellFormedChange;
    assert [c][1..] == [];
    assert Steps(t, []) == Some(t);
    assert Steps(s, [c]) == Some(t);
    assert PromptsClaimed(t, [c]);
    assert WellFormedChanges([c]);
  }

  /** A commit with one accepted change. */
  lemma LeadsByOne(s: Session, c: Change, t: Session, at: Time) returns (u: Session)
    requires WellFormedChange(c) && !c.RunAccepted? && Step(s, c) == Some(t)
    requires t.state.sequence == s.state.sequence && t.state.commits == s.state.commits
    ensures Leads(s, u) && Relogged(t, u)
    ensures exists commit :: u == Record(t, commit)
  {
    hide Step, WellFormedChange, Transition;
    var id := NewCommitId(s);
    var commit := Commit(s.state.sequence + 1, id, at, [c]);
    CommitApplies(s, c, t, commit);
    u := Record(t, commit);
    assert [commit][1..] == [];
    assert OneByOne(u, [], u);
    assert OneByOne(s, [commit], u);
  }

  /** Operation `p` is open and being brought to its end. */
  ghost predicate Working(s: Session, p: Id) {
    Inv(s) && NoQueuedPrompts(s.state) && s.state.branch.open == Some(p) && p in s.state.operations
  }

  ghost predicate Supply(ids: seq<Id>, ix: Indexes) {
    Distinct(ids) && forall i :: 0 <= i < |ids| ==> Fresh(ix, ids[i])
  }

  lemma SupplyRemains(ids: seq<Id>, ix: Indexes, owner: Owner)
    requires Supply(ids, ix) && |ids| > 0
    ensures Supply(ids[1..], Own(ix, ids[0], owner))
  {
    forall i | 0 <= i < |ids[1..]| ensures Fresh(Own(ix, ids[0], owner), ids[1..][i]) {
      assert ids[1..][i] == ids[i + 1] && ids[i + 1] != ids[0];
      assert Fresh(ix, ids[i + 1]);
    }
  }

  /** One accepted change that leaves the operation open and queues nothing. */
  lemma WorkGoesOn(s: Session, p: Id, c: Change, t: Session, at: Time) returns (u: Session)
    requires Working(s, p) && WellFormedChange(c) && !c.RunAccepted? && Step(s, c) == Some(t)
    requires t.state.sequence == s.state.sequence && t.state.commits == s.state.commits
    requires t.state.branch.open == Some(p) && NoQueuedPrompts(t.state)
    ensures Leads(s, u) && Working(u, p) && Relogged(t, u)
  {
    hide Inv, Step, NoQueuedPrompts, Evolves, Leads, Record;
    u := LeadsByOne(s, c, t, at);
    StepKeepsInv(s, c, t);
    StepEvolves(s, c, t);
    RunRemains(s.state, t.state, p);
    var commit :| u == Record(t, commit);
    RecordKeeps(t, commit);
    RecordKeepsQueue(t, commit);
  }

  lemma RunRemains(s: State, t: State, p: Id)
    requires Evolves(s, t) && p in s.operations
    ensures p in t.operations
  {
  }

  lemma PromptsStayUnqueued(s: State, t: State)
    requires NoQueuedPrompts(s) && t.queue == s.queue && t.operations.Keys == s.operations.Keys
    requires forall p :: p in s.operations ==> t.operations[p].prompt == s.operations[p].prompt
    ensures NoQueuedPrompts(t)
  {
  }

  // ----- cancelling -----

  lemma CancelApplies(s: Session, p: Id, id: Id, at: Time)
    requires Keyed(s.state) && Lists(s.ix.effectsByOperation, EffectPairs(s.state.effects))
    requires OpenOperation(s.state, p).Some? && s.state.operations[p].cancel.None? && Fresh(s.ix, id)
    ensures ApplyCancel(s, RunCancel(p, id, at, None)) == Some(Session(
      s.state.(
        operations := s.state.operations[p := RequestCancel(s.state.operations[p], Cancellation(id, at, None))],
        effects := map e | e in s.state.effects :: AfterCancel(s.state.effects[e], p, RunCancel(p, id, at, None))),
      Own(s.ix, id, CancelOwner)))
  {
    CancelledShape(s, RunCancel(p, id, at, None));
  }

  /** What bringing an operation to its end leaves alone. */
  ghost predicate Kept(s: State, t: State, p: Id) {
    && t.branch.pending == s.branch.pending && t.queue == s.queue && t.nodes == s.nodes
    && t.effects.Keys == s.effects.Keys
    && p in t.operations && p in s.operations
  }

  lemma CancelKept(s: Session, p: Id, id: Id, at: Time) returns (t: Session)
    requires Working(s, p) && s.state.operations[p].cancel.None? && Fresh(s.ix, id)
    ensures Leads(s, t) && Working(t, p) && Kept(s.state, t.state, p)
    ensures t.state.operations[p].cancel.Some? && t.ix == Own(s.ix, id, CancelOwner)
    ensures t.state.operations[p].prompt == s.state.operations[p].prompt
  {
    hide Working, Leads, NoQueuedPrompts, Keyed, ApplyCancel, CancelEffect, Step;
    WorkingParts(s, p);
    CancelApplies(s, p, id, at);
    CancelSteps(s, RunCancel(p, id, at, None));
    t := ApplyCancel(s, RunCancel(p, id, at, None)).value;
    PromptsStayUnqueued(s.state, t.state);
    t := WorkGoesOn(s, p, RunCancel(p, id, at, None), t, at);
  }

  lemma CancelStage(s: Session, p: Id, ids: seq<Id>, at: Time) returns (t: Session)
    requires Working(s, p) && Supply(ids, s.ix) && |ids| > 0
    ensures Leads(s, t) && Working(t, p) && Kept(s.state, t.state, p)
    ensures t.state.operations[p].cancel.Some? && Supply(ids[1..], t.ix)
    ensures t.state.operations[p].prompt == s.state.operations[p].prompt
  {
    SupplyRemains(ids, s.ix, CancelOwner);
    if s.state.operations[p].cancel.Some? {
      t := s;
      LeadsNowhere(s);
      SupplyShrinks(ids, s.ix);
    } else {
      t := CancelKept(s, p, ids[0], at);
    }
  }

  lemma SupplyShrinks(ids: seq<Id>, ix: Indexes)
    requires Supply(ids, ix) && |ids| > 0
    ensures Supply(ids[1..], ix)
  {
    assert forall i :: 0 <= i < |ids[1..]| ==> ids[1..][i] == ids[i + 1];
  }

  // ----- settling effects -----

  ghost function Unsettled(s: State, p: Id): set<Id> {
    set e | e in s.effects && s.effects[e].operation == p && !Terminal(s.effects[e].status)
  }

  lemma EffectLives(s: State, e: Id)
    requires EffectsOk(s.nodes, s.operations, s.effects) && e in s.effects
    ensures LifeOk(s.effects[e]) && s.effects[e].operation in s.operations && s.effects[e].assistant in s.nodes
    ensures s.operations[s.effects[e].operation].cancel.Some? ==> !s.effects[e].status.Prepared?
  {
    assert EffectOk(s.nodes, s.operations, s.effects[e]);
  }

  lemma DoubtApplies(s: Session, e: Id, at: Time)
    requires Keyed(s.state) && e in s.state.effects && s.state.effects[e].status.Dispatched?
    requires OpenOperation(s.state, s.state.effects[e].operation).Some?
    ensures ApplyInDoubt(s, ToolInDoubt(e, at, None))
      == Some(s.(state := s.state.(effects := s.state.effects[e := Doubt(s.state.effects[e], at, None)])))
  {
  }

  lemma AbandonApplies(s: Session, e: Id, id: Id, at: Time)
    requires Keyed(s.state) && e in s.state.effects && InDoubtOrRecovering(s.state.effects[e])
    requires s.state.effects[e].status.RecoveryStarted? ==> s.state.effects[e].policy.Reconcile?
    requires OpenOperation(s.state, s.state.effects[e].operation).Some? && Fresh(s.ix, id)
    requires s.state.operations[s.state.effects[e].operation].cancel.Some?
    ensures ApplyResolved(s, ToolResolved(e, id, at, Abandoned, None)) == Some(Session(
      s.state.(effects := s.state.effects[e := Settle(
        s.state.effects[e], id, Canceller(s.state.operations[s.state.effects[e].operation], s.state.effects[e]),
        Abandoned, at, None)]),
      Own(s.ix, id, SettlementOwner)))
  {
  }

  lemma WorkingParts(s: Session, p: Id)
    requires Working(s, p)
    ensures Keyed(s.state) && Indexed(s) && NoQueuedPrompts(s.state) && p in s.state.operations
    ensures OpenOperation(s.state, p).Some? && Lists(s.ix.effectsByOperation, EffectPairs(s.state.effects))
  {
  }

  lemma DoubtSteps(s: Session, c: Change)
    requires c.ToolInDoubt?
    ensures Step(s, c) == ApplyInDoubt(s, c)
  {
    hide ApplyInDoubt;
  }

  lemma ResolvedSteps(s: Session, c: Change)
    requires c.ToolResolved?
    ensures Step(s, c) == ApplyResolved(s, c)
  {
    hide ApplyResolved;
  }

  lemma CancelSteps(s: Session, c: Change)
    requires c.RunCancel?
    ensures Step(s, c) == ApplyCancel(s, c)
  {
    hide ApplyCancel;
  }

  lemma DoubtKept(s: Session, p: Id, e: Id, at: Time) returns (t: Session)
    requires Working(s, p) && e in s.state.effects && s.state.effects[e].operation == p
    requires s.state.effects[e].status.Dispatched?
    ensures Leads(s, t) && Working(t, p) && t.ix == s.ix
    ensures ButLog(s.state.(effects := s.state.effects[e := Doubt(s.state.effects[e], at, None)]), t.state)
  {
    hide Working, Leads, NoQueuedPrompts, Keyed, ApplyInDoubt, Step;
    WorkingParts(s, p);
    DoubtApplies(s, e, at);
    DoubtSteps(s, ToolInDoubt(e, at, None));
    t := ApplyInDoubt(s, ToolInDoubt(e, at, None)).value;
    PromptsStayUnqueued(s.state, t.state);
    t := WorkGoesOn(s, p, ToolInDoubt(e, at, None), t, at);
  }

  lemma AbandonFits(s: Session, p: Id, e: Id)
    requires Working(s, p) && s.state.operations[p].cancel.Some?
    requires e in s.state.effects && s.state.effects[e].operation == p && InDoubtOrRecovering(s.state.effects[e])
    ensures Keyed(s.state) && OpenOperation(s.state, p).Some? && NoQueuedPrompts(s.state)
    ensures s.state.effects[e].status.RecoveryStarted? ==> s.state.effects[e].policy.Reconcile?
  {
    EffectLives(s.state, e);
  }

  lemma AbandonKept(s: Session, p: Id, e: Id, id: Id, at: Time) returns (t: Session)
    requires Working(s, p) && s.state.operations[p].cancel.Some? && Fresh(s.ix, id)
    requires e in s.state.effects && s.state.effects[e].operation == p && InDoubtOrRecovering(s.state.effects[e])
    ensures Leads(s, t) && Working(t, p)
    ensures t.ix == Own(s.ix, id, SettlementOwner)
    ensures e in t.state.effects && ButLog(s.state.(effects := s.state.effects[e := t.state.effects[e]]), t.state)
    ensures Terminal(t.state.effects[e].status) && t.state.effects[e].operation == p
  {
    hide Working, Leads, Keyed, ApplyResolved, Step;
    AbandonFits(s, p, e);
    AbandonApplies(s, e, id, at);
    ResolvedSteps(s, ToolResolved(e, id, at, Abandoned, None));
    t := ApplyResolved(s, ToolResolved(e, id, at, Abandoned, None)).value;
    PromptsStayUnqueued(s.state, t.state);
    t := WorkGoesOn(s, p, ToolResolved(e, id, at, Abandoned, None), t, at);
  }

  /** Only effect `e` differs, and it is settled now. */
  ghost predicate SettledOne(s: State, t: State, e: Id) {
    && e in s.effects && e in t.effects
    && ButLog(s.(effects := s.effects[e := t.effects[e]]), t)
    && t.effects[e].operation == s.effects[e].operation && Terminal(t.effects[e].status)
  }

  lemma AbandonStage(s: Session, p: Id, e: Id, ids: seq<Id>, at: Time) returns (t: Session)
    requires Working(s, p) && s.state.operations[p].cancel.Some? && Supply(ids, s.ix) && |ids| > 0
    requires e in s.state.effects && s.state.effects[e].operation == p && InDoubtOrRecovering(s.state.effects[e])
    ensures Leads(s, t) && Working(t, p) && SettledOne(s.state, t.state, e) && Supply(ids[1..], t.ix)
  {
    t := AbandonKept(s, p, e, ids[0], at);
    SupplyRemains(ids, s.ix, SettlementOwner);
  }

  lemma UnsettledEffect(s: Session, p: Id, e: Id)
    requires Working(s, p) && s.state.operations[p].cancel.Some? && e in Unsettled(s.state, p)
    ensures s.state.effects[e].status.Dispatched? || InDoubtOrRecovering(s.state.effects[e])
  {
    EffectLives(s.state, e);
  }

  lemma SettleOne(s: Session, p: Id, e: Id, ids: seq<Id>, at: Time) returns (t: Session)
    requires Working(s, p) && s.state.operations[p].cancel.Some? && Supply(ids, s.ix) && |ids| > 0
    requires e in Unsettled(s.state, p)
    ensures Leads(s, t) && Working(t, p) && SettledOne(s.state, t.state, e) && Supply(ids[1..], t.ix)
  {
    hide Working, Leads, Supply;
    UnsettledEffect(s, p, e);
    if s.state.effects[e].status.Dispatched? {
      var m := DoubtKept(s, p, e, at);
      t := AbandonStage(m, p, e, ids, at);
      LeadsOn(s, m, t);
    } else {
      t := AbandonStage(s, p, e, ids, at);
    }
  }

  lemma UnsettledShrinks(s: State, t: State, p: Id, e: Id)
    requires SettledOne(s, t, e) && e in Unsettled(s, p)
    ensures Unsettled(t, p) == Unsettled(s, p) - {e}
  {
  }

  /** Settling every effect of the operation. */
  lemma {:induction false} SettleStage(s: Session, p: Id, ids: seq<Id>, at: Time) returns (t: Session)
    requires Working(s, p) && s.state.operations[p].cancel.Some?
    requires Supply(ids, s.ix) && |ids| >= |Unsettled(s.state, p)| && p in s.state.operations
    ensures Leads(s, t) && Working(t, p) && Kept(s.state, t.state, p)
    ensures t.state.operations == s.state.operations && Unsettled(t.state, p) == {}
    decreases |Unsettled(s.state, p)|
  {
    hide *;
    if Unsettled(s.state, p) == {} {
      t := s;
      LeadsNowhere(s);
      KeptItself(s.state, p);
    } else {
      var e :| e in Unsettled(s.state, p);
      var m := SettleOne(s, p, e, ids, at);
      UnsettledShrinks(s.state, m.state, p, e);
      SettledOneKeeps(s.state, m.state, e, p);
      t := SettleStage(m, p, ids[1..], at);
      KeptOn(s.state, m.state, t.state, p);
      LeadsOn(s, m, t);
    }
  }

  lemma KeptItself(s: State, p: Id)
    requires p in s.operations
    ensures Kept(s, s, p)
  {
  }

  lemma SettledOneKeeps(s: State, t: State, e: Id, p: Id)
    requires SettledOne(s, t, e) && p in s.operations
    ensures Kept(s, t, p) && t.operations == s.operations
  {
  }

  lemma KeptOn(s: State, t: State, u: State, p: Id)
    requires Kept(s, t, p) && Kept(t, u, p)
    ensures Kept(s, u, p)
  {
  }

  // ----- adding the prompt -----

  lemma ResultExcludesOthers(owners: set<Owner>)
    requires Compatible(owners) && ResultOwner in owners
    ensures TargetOwner !in owners && PromptOwner !in owners
  {
  }

  lemma NotBothReserved(s: Session, node: Id)
    requires Indexed(s) && IdsOwned(s.ix) && EffectsFor(s, node) != {}
    ensures EntryFor(s, node).None? && PromptOf(s, node).None?
  {
    assert Compatible(SetAt(s.ix.owners, node));
    hide Indexed, Compatible;
    ResultIsOwned(s, node);
    ResultExcludesOthers(SetAt(s.ix.owners, node));
    if EntryFor(s, node).Some? {
      TargetIsOwned(s, node);
    }
    if PromptOf(s, node).Some? {
      PromptIsOwned(s, node);
    }
  }

  function PromptNode(operation: Operation, at: Time): Node
    requires operation.prompt.Some?
  {
    Node(operation.prompt.value, operation.source, at, Some(operation.id), Message(User, Null))
  }

  lemma StatusCases(status: QueueStatus)
    ensures status.Queued? || status.Claimed? || status == Ended(Consumed) || status == Ended(Dropped)
  {
    match status
    case Ended(Consumed) =>
    case Ended(Dropped) =>
    case _ =>
  }

  lemma WaitingEntryIsClaimed(s: Session, p: Id)
    requires Maps(s.ix.entryByTarget, TargetPairs(s.state.queue)) && NoQueuedPrompts(s.state)
    requires QueueOk(s.state.nodes, s.state.operations.Keys, s.state.branch, s.state.queue)
    requires s.state.branch.open == Some(p) && p in s.state.operations && !Stuck(s.state, p)
    requires s.state.operations[p].prompt.Some? && s.state.operations[p].prompt.value !in s.state.nodes
    ensures var entry := EntryFor(s, s.state.operations[p].prompt.value);
      entry.Some? ==> entry.value.status.Claimed? && entry.value.operation == Some(p)
  {
    var n := s.state.operations[p].prompt.value;
    if EntryFor(s, n).Some? {
      EntryIsTarget(s, n);
      var q := s.ix.entryByTarget[n];
      assert EntryOk(s.state.nodes, s.state.operations.Keys, s.state.branch, s.state.queue[q]);
      var status := s.state.queue[q].status;
      assert !status.Queued? && status != Ended(Consumed) && status != Ended(Dropped);
      StatusCases(status);
    }
  }

  lemma PromptAllowed(s: Session, p: Id, at: Time)
    requires Working(s, p) && s.state.operations[p].prompt.Some?
    requires s.state.operations[p].prompt.value !in s.state.nodes
    requires var entry := EntryFor(s, s.state.operations[p].prompt.value);
      entry.Some? ==> entry.value.status.Claimed? && entry.value.operation == Some(p)
    ensures NodeAllowed(s, PromptNode(s.state.operations[p], at))
    ensures WellFormedChange(AddNode(PromptNode(s.state.operations[p], at)))
  {
    var operation := s.state.operations[p];
    var n := operation.prompt.value;
    PromptIndexed(s, p, n);
    if EffectsFor(s, n) != {} {
      NotBothReserved(s, n);
    }
    assert RunOk(s.state.nodes, s.state.branch.open, operation);
    assert Ancestry(s.state.nodes, operation.source, operation.source, Some(p)) == Reached([]);
  }

  /** Only nodes have been added. */
  ghost predicate NodesAdded(s: State, t: State) {
    ButLog(s.(nodes := t.nodes), t) && Extends(s.nodes, t.nodes)
  }

  lemma NodeApplies(s: Session, node: Node)
    requires NodeAllowed(s, node)
    ensures Step(s, AddNode(node))
      == Some(Session(s.state.(nodes := s.state.nodes[node.id := node]), Own(s.ix, node.id, NodeOwner)))
  {
  }

  lemma NodeIsNewHere(s: Session, p: Id, node: Node)
    requires Working(s, p) && NodeAllowed(s, node)
    ensures node.id !in s.state.nodes && NoQueuedPrompts(s.state) && s.state.branch.open == Some(p)
  {
    NodeIsNew(s, node);
  }

  lemma NodeStage(s: Session, p: Id, node: Node, at: Time) returns (t: Session)
    requires Working(s, p) && NodeAllowed(s, node) && WellFormedChange(AddNode(node))
    ensures Leads(s, t) && Working(t, p)
    ensures t.state.nodes == s.state.nodes[node.id := node] && NodesAdded(s.state, t.state)
  {
    hide Working, NodeAllowed, Step, Leads, WellFormedChange;
    NodeIsNewHere(s, p, node);
    NodeApplies(s, node);
    t := Session(s.state.(nodes := s.state.nodes[node.id := node]), Own(s.ix, node.id, NodeOwner));
    PromptsStayUnqueued(s.state, t.state);
    t := WorkGoesOn(s, p, AddNode(node), t, at);
  }

  lemma PromptWaits(s: Session, p: Id)
    requires Working(s, p) && !Stuck(s.state, p)
    requires s.state.operations[p].prompt.Some? && s.state.operations[p].prompt.value !in s.state.nodes
    ensures var entry := EntryFor(s, s.state.operations[p].prompt.value);
      entry.Some? ==> entry.value.status.Claimed? && entry.value.operation == Some(p)
  {
    hide Stuck, EntryFor, QueueOk;
    WaitingEntryIsClaimed(s, p);
  }

  lemma PromptStage(s: Session, p: Id, at: Time) returns (t: Session)
    requires Working(s, p) && !Stuck(s.state, p)
    ensures Leads(s, t) && Working(t, p) && NodesAdded(s.state, t.state)
    ensures Known(t.state.nodes, t.state.operations[p].prompt)
  {
    hide Inv, Leads, Stuck, NodeAllowed, EntryFor, WellFormedChange;
    if Known(s.state.nodes, s.state.operations[p].prompt) {
      t := s;
      LeadsNowhere(s);
    } else {
      PromptWaits(s, p);
      PromptAllowed(s, p, at);
      t := NodeStage(s, p, PromptNode(s.state.operations[p], at), at);
    }
  }

  // ----- adding the results -----

  ghost function MissingResults(s: State, p: Id): set<Id> {
    set e | e in s.effects && s.effects[e].operation == p && s.effects[e].result !in s.nodes :: s.effects[e].result
  }

  function ResultNode(e: Effect, at: Time): Node {
    Node(e.result, Some(e.assistant), at, Some(e.operation), Message(Tool, Null))
  }

  lemma SharersReserveAlike(s: Session, e: Id)
    requires Lists(s.ix.effectsByResult, ResultPairs(s.state.effects)) && ReservationsAgree(s.state.effects)
    requires e in s.state.effects
    ensures EffectsFor(s, s.state.effects[e].result) != {}
    ensures forall f :: f in EffectsFor(s, s.state.effects[e].result) ==>
      SameReservation(s.state.effects[f], s.state.effects[e])
  {
    ResultIndexed(s, e, s.state.effects[e].result);
    forall f | f in EffectsFor(s, s.state.effects[e].result)
      ensures SameReservation(s.state.effects[f], s.state.effects[e])
    {
      assert (s.state.effects[e].result, f) in ResultPairs(s.state.effects);
    }
  }

  /** What a missing result node needs in order to be added. */
  lemma ResultCanBeAdded(s: Session, p: Id, e: Id)
    requires Working(s, p) && e in s.state.effects && s.state.effects[e].operation == p
    ensures var r := s.state.effects[e].result;
      && EffectsFor(s, r) != {} && EntryFor(s, r).None? && PromptOf(s, r).None?
      && (forall f :: f in EffectsFor(s, r) ==> SameReservation(s.state.effects[f], s.state.effects[e]))
    ensures s.state.effects[e].assistant in s.state.nodes && OpenOperation(s.state, p).Some?
  {
    SharersReserveAlike(s, e);
    NotBothReserved(s, s.state.effects[e].result);
    EffectLives(s.state, e);
  }

  lemma ResultAllowed(s: Session, p: Id, e: Id, at: Time)
    requires Working(s, p) && e in s.state.effects && s.state.effects[e].operation == p
    requires s.state.effects[e].result !in s.state.nodes
    ensures NodeAllowed(s, ResultNode(s.state.effects[e], at))
    ensures WellFormedChange(AddNode(ResultNode(s.state.effects[e], at)))
  {
    hide Working, Inv;
    ResultCanBeAdded(s, p, e);
    var effect := s.state.effects[e];
    assert Ancestry(s.state.nodes, Some(effect.assistant), Some(effect.assistant), Some(p)) == Reached([]);
    assert EffectsAllow(s.state, EffectsFor(s, effect.result), ResultNode(effect, at));
  }

  lemma MissingShrinks(s: State, p: Id, node: Node, t: State)
    requires node.id in MissingResults(s, p) && t.nodes == s.nodes[node.id := node] && t.effects == s.effects
    ensures MissingResults(t, p) == MissingResults(s, p) - {node.id}
  {
  }

  lemma {:induction false} ResultStage(s: Session, p: Id, at: Time) returns (t: Session)
    requires Working(s, p)
    ensures Leads(s, t) && Working(t, p) && NodesAdded(s.state, t.state) && MissingResults(t.state, p) == {}
    decreases |MissingResults(s.state, p)|
  {
    hide Working, Leads, NodeAllowed;
    if MissingResults(s.state, p) == {} {
      t := s;
      LeadsNowhere(s);
    } else {
      var r :| r in MissingResults(s.state, p);
      var e :| e in s.state.effects && s.state.effects[e].operation == p && s.state.effects[e].result == r
        && r !in s.state.nodes;
      var node := ResultNode(s.state.effects[e], at);
      ResultAllowed(s, p, e, at);
      var m := NodeStage(s, p, node, at);
      MissingShrinks(s.state, p, node, m.state);
      t := ResultStage(m, p, at);
      LeadsOn(s, m, t);
    }
  }

  // ----- cancelling claimed entries -----

  ghost function ClaimedEntries(s: State): set<Id> {
    set q | q in s.queue && s.queue[q].status.Claimed?
  }

  function Drop(q: QueueEntry, at: Time): QueueEntry {
    q.(status := Ended(Dropped), finishedAt := Some(at))
  }

  lemma DropApplies(s: Session, q: Id, at: Time)
    requires Keyed(s.state) && q in s.state.queue && s.state.queue[q].status.Claimed?
    requires PendingExact(s.state.queue, s.state.branch.pending, s.state.queue[q].kind)
    ensures var entry, pending := s.state.queue[q], s.state.branch.pending;
      ApplyQueueFinished(s, QueueFinished(q, at, Dropped)) == Some(s.(state := s.state.(
        queue := s.state.queue[q := Drop(entry, at)],
        branch := s.state.branch.(pending := pending.With(entry.kind, Without(pending.Of(entry.kind), q))))))
  {
  }

  lemma DropFits(s: Session, p: Id, q: Id)
    requires Working(s, p) && q in s.state.queue
    ensures Keyed(s.state) && NoQueuedPrompts(s.state) && s.state.branch.open == Some(p)
    ensures PendingExact(s.state.queue, s.state.branch.pending, s.state.queue[q].kind)
  {
  }

  /** Only queue entries have been cancelled. */
  ghost predicate OnlyQueue(s: State, t: State) {
    ButLog(s.(queue := t.queue, branch := s.branch.(pending := t.branch.pending)), t)
  }

  lemma DropStage(s: Session, p: Id, q: Id, at: Time) returns (t: Session)
    requires Working(s, p) && q in ClaimedEntries(s.state)
    ensures Leads(s, t) && Working(t, p) && OnlyQueue(s.state, t.state)
    ensures ClaimedEntries(t.state) == ClaimedEntries(s.state) - {q}
  {
    hide *;
    var u := DroppedEntry(s, p, q, at);
    t := WorkGoesOn(s, p, QueueFinished(q, at, Dropped), u, at);
    OnlyQueueOn(s.state, u, t);
  }

  lemma OnlyQueueOn(s: State, t: Session, u: Session)
    requires OnlyQueue(s, t.state) && Relogged(t, u)
    ensures OnlyQueue(s, u.state) && ClaimedEntries(u.state) == ClaimedEntries(t.state)
  {
  }

  lemma DropSteps(s: Session, c: Change)
    requires c.QueueFinished?
    ensures Step(s, c) == ApplyQueueFinished(s, c)
  {
    hide ApplyQueueFinished;
  }

  lemma DroppedEntry(s: Session, p: Id, q: Id, at: Time) returns (t: Session)
    requires Working(s, p) && q in ClaimedEntries(s.state)
    ensures var c := QueueFinished(q, at, Dropped);
      WellFormedChange(c) && !c.RunAccepted? && Step(s, c) == Some(t)
    ensures t.state.sequence == s.state.sequence && t.state.commits == s.state.commits
    ensures t.state.branch.open == Some(p) && NoQueuedPrompts(t.state) && OnlyQueue(s.state, t.state)
    ensures ClaimedEntries(t.state) == ClaimedEntries(s.state) - {q}
  {
    hide Working, Step, Keyed, ApplyQueueFinished, PendingExact, Without, Pending.With, Pending.Of;
    DropFits(s, p, q);
    DropApplies(s, q, at);
    DropSteps(s, QueueFinished(q, at, Dropped));
    t := ApplyQueueFinished(s, QueueFinished(q, at, Dropped)).value;
  }

  lemma {:induction false} UnclaimStage(s: Session, p: Id, at: Time) returns (t: Session)
    requires Working(s, p)
    ensures Leads(s, t) && Working(t, p) && OnlyQueue(s.state, t.state) && ClaimedEntries(t.state) == {}
    decreases |ClaimedEntries(s.state)|
  {
    hide Working, Leads;
    if ClaimedEntries(s.state) == {} {
      t := s;
      LeadsNowhere(s);
    } else {
      var q :| q in ClaimedEntries(s.state);
      var m := DropStage(s, p, q, at);
      t := UnclaimStage(m, p, at);
      LeadsOn(s, m, t);
    }
  }

  // ----- moving the head and finishing -----

  /** The head that a finishing operation needs. */
  function LastHead(operation: Operation): Option<Id> {
    if operation.prompt.Some? then operation.prompt else operation.source
  }

  lemma HeadFits(s: Session, p: Id)
    requires Working(s, p) && Known(s.state.nodes, s.state.operations[p].prompt)
    ensures Known(s.state.nodes, LastHead(s.state.operations[p]))
    ensures NoQueuedPrompts(s.state) && s.state.branch.open == Some(p)
  {
    assert RunOk(s.state.nodes, s.state.branch.open, s.state.operations[p]);
  }

  lemma HeadStage(s: Session, p: Id, at: Time) returns (t: Session)
    requires Working(s, p) && p in s.state.operations && Known(s.state.nodes, s.state.operations[p].prompt)
    ensures Leads(s, t) && Working(t, p)
    ensures ButLog(s.state.(branch := s.state.branch.(head := LastHead(s.state.operations[p]))), t.state)
  {
    hide Working, Leads;
    HeadFits(s, p);
    var head := LastHead(s.state.operations[p]);
    t := s.(state := s.state.(branch := s.state.branch.(head := head)));
    t := WorkGoesOn(s, p, MoveHead(head), t, at);
  }

  lemma LastHeadReachesSource(s: Session, p: Id)
    requires Working(s, p) && Known(s.state.nodes, s.state.operations[p].prompt)
    requires s.state.branch.head == LastHead(s.state.operations[p])
    ensures match Ancestry(s.state.nodes, s.state.branch.head, s.state.operations[p].source, Some(p))
      case Reached(path) => s.state.operations[p].prompt.Some? ==> s.state.operations[p].prompt.value in path
      case _ => false
  {
    var nodes, operation := s.state.nodes, s.state.operations[p];
    assert RunOk(nodes, s.state.branch.open, operation);
    if operation.prompt.Some? {
      AncestryIsLink(nodes, operation.prompt, operation.source, Some(p));
      WalkFindsPath(nodes, operation.prompt, operation.source, Some(p), {});
    }
  }

  lemma AllSettled(s: Session, p: Id)
    requires Working(s, p) && Unsettled(s.state, p) == {} && MissingResults(s.state, p) == {}
    ensures forall e :: e in SetAt(s.ix.effectsByOperation, p) && e in s.state.effects ==>
      EffectSettled(s.state, s.state.effects[e])
  {
    EffectsListed(s, p);
    forall e | e in s.state.effects && s.state.effects[e].operation == p
      ensures EffectSettled(s.state, s.state.effects[e])
    {
      EffectLives(s.state, e);
      assert e !in Unsettled(s.state, p);
      assert s.state.effects[e].result !in MissingResults(s.state, p);
    }
  }

  lemma FinishApplies(s: Session, p: Id, at: Time)
    requires OpenOperation(s.state, p).Some? && s.state.operations[p].id == p
    requires Known(s.state.nodes, s.state.operations[p].prompt) && ClaimedEntries(s.state) == {}
    requires match Ancestry(s.state.nodes, s.state.branch.head, s.state.operations[p].source, Some(p))
      case Reached(path) => s.state.operations[p].prompt.Some? ==> s.state.operations[p].prompt.value in path
      case _ => false
    requires forall e :: e in SetAt(s.ix.effectsByOperation, p) && e in s.state.effects ==>
      EffectSettled(s.state, s.state.effects[e])
    ensures ApplyFinished(s, RunFinished(p, at, RunFailed, None)).Some?
    ensures ApplyFinished(s, RunFinished(p, at, RunFailed, None)).value.state.branch.open.None?
    ensures ApplyFinished(s, RunFinished(p, at, RunFailed, None)).value.state.commits == s.state.commits
    ensures ApplyFinished(s, RunFinished(p, at, RunFailed, None)).value.state.sequence == s.state.sequence
  {
    forall q | q in SetAt(s.ix.entriesByOperation, p) && q in s.state.queue ensures !s.state.queue[q].status.Claimed? {
      assert q !in ClaimedEntries(s.state);
    }
  }

  lemma FinishFits(s: Session, p: Id, at: Time) returns (t: Session)
    requires Working(s, p) && Known(s.state.nodes, s.state.operations[p].prompt)
    requires s.state.branch.head == LastHead(s.state.operations[p])
    requires ClaimedEntries(s.state) == {} && Unsettled(s.state, p) == {} && MissingResults(s.state, p) == {}
    ensures Step(s, RunFinished(p, at, RunFailed, None)) == Some(t) && t.state.branch.open.None?
    ensures t.state.commits == s.state.commits && t.state.sequence == s.state.sequence
  {
    hide FinishAllowed, Ancestry, EffectSettled, Inv, Unsettled, MissingResults, Known;
    LastHeadReachesSource(s, p);
    AllSettled(s, p);
    FinishNeeds(s, p);
    FinishApplies(s, p, at);
    t := ApplyFinished(s, RunFinished(p, at, RunFailed, None)).value;
  }

  lemma FinishNeeds(s: Session, p: Id)
    requires Working(s, p)
    ensures OpenOperation(s.state, p).Some? && s.state.operations[p].id == p
  {
    WorkingParts(s, p);
  }

  lemma FinishStage(s: Session, p: Id, at: Time) returns (t: Session)
    requires Working(s, p) && p in s.state.operations && Known(s.state.nodes, s.state.operations[p].prompt)
    requires s.state.branch.head == LastHead(s.state.operations[p])
    requires ClaimedEntries(s.state) == {} && Unsettled(s.state, p) == {} && MissingResults(s.state, p) == {}
    ensures Leads(s, t) && t.state.branch.open.None?
  {
    hide Working, Leads, Step, ClaimedEntries, Unsettled, MissingResults;
    t := FinishFits(s, p, at);
    t := LeadsByOne(s, RunFinished(p, at, RunFailed, None), t, at);
  }

  // ----- closing -----

  lemma {:induction false} SubsetIsSmaller<T>(a: set<T>, b: set<T>)
    requires a <= b
    ensures |a| <= |b|
  {
    if a != {} {
      var x :| x in a;
      SubsetIsSmaller(a - {x}, b - {x});
    }
  }

  lemma FewUnsettled(s: State, p: Id)
    ensures |Unsettled(s, p)| <= |s.effects.Keys|
  {
    SubsetIsSmaller(Unsettled(s, p), s.effects.Keys);
  }

  lemma SettledBefore(s: Session, p: Id, ids: seq<Id>, at: Time) returns (t: Session)
    requires Working(s, p) && p in s.state.operations && !Stuck(s.state, p)
    requires Supply(ids, s.ix) && |ids| > |s.state.effects.Keys|
    ensures Leads(s, t) && Working(t, p) && Kept(s.state, t.state, p)
    ensures Unsettled(t.state, p) == {} && !Stuck(t.state, p)
  {
    hide Working, Leads, Supply;
    var m := CancelStage(s, p, ids, at);
    FewUnsettled(m.state, p);
    t := SettleStage(m, p, ids[1..], at);
    LeadsOn(s, m, t);
  }

  lemma Materialized(s: Session, p: Id, at: Time) returns (t: Session)
    requires Working(s, p) && p in s.state.operations && !Stuck(s.state, p)
    ensures Leads(s, t) && Working(t, p) && NodesAdded(s.state, t.state)
    ensures Known(t.state.nodes, t.state.operations[p].prompt) && MissingResults(t.state, p) == {}
  {
    hide Working, Leads;
    var m := PromptStage(s, p, at);
    t := ResultStage(m, p, at);
    LeadsOn(s, m, t);
  }

  lemma Closed(s: Session, p: Id, at: Time) returns (t: Session)
    requires Working(s, p) && p in s.state.operations && Known(s.state.nodes, s.state.operations[p].prompt)
    requires Unsettled(s.state, p) == {} && MissingResults(s.state, p) == {}
    ensures Leads(s, t) && t.state.branch.open.None?
  {
    hide Working, Leads;
    var m := UnclaimStage(s, p, at);
    assert Unsettled(m.state, p) == {} && MissingResults(m.state, p) == {};
    var n := HeadStage(m, p, at);
    assert Unsettled(n.state, p) == {} && MissingResults(n.state, p) == {} && ClaimedEntries(n.state) == {};
    t := FinishStage(n, p, at);
    LeadsOn(s, m, n);
    LeadsOn(s, n, t);
  }

  /** An open operation that is not stuck is closed by commits of one change each, given fresh ids
      for the cancellation and for the effects to be abandoned. */
  lemma OpenCanBeClosed(s: Session, p: Id, ids: seq<Id>, at: Time) returns (t: Session)
    requires Reachable(s) && s.state.branch.open == Some(p) && !Stuck(s.state, p)
    requires Supply(ids, s.ix) && |ids| > |s.state.effects.Keys|
    ensures Leads(s, t) && t.state.branch.open.None?
  {
    ReachableIsSettled(s);
    assert Working(s, p);
    hide Working, Leads, Supply;
    var m := SettledBefore(s, p, ids, at);
    var n := Materialized(m, p, at);
    assert Unsettled(n.state, p) == {};
    t := Closed(n, p, at);
    LeadsOn(s, m, n);
    LeadsOn(s, n, t);
  }

  lemma {:induction false} OneByOneIsLater(s: Session, commits: seq<Commit>, t: Session)
    requires OneByOne(s, commits, t)
    ensures t == Run(s, commits)
    decreases |commits|
  {
    hide Transition;
    if commits != [] {
      OneByOneIsLater(Transition(s, commits[0]).next, commits[1..], t);
    }
  }

  lemma LeadsIsLater(s: Session, t: Session)
    requires Leads(s, t)
    ensures Later(s, t)
  {
    hide OneByOne, Run;
    var commits :| OneByOne(s, commits, t);
    OneByOneIsLater(s, commits, t);
  }

  /** Fresh ids never run out. */
  lemma {:induction false} FreshIds(ix: Indexes, low: nat, n: nat) returns (ids: seq<Id>)
    requires forall id :: id in ix.owners ==> |id| < low
    ensures Supply(ids, ix) && |ids| == n && forall i :: 0 <= i < n ==> |ids[i]| >= low
    decreases n
  {
    if n == 0 {
      ids := [];
    } else {
      var rest := FreshIds(ix, low + 1, n - 1);
      var id: Id := seq(low, i => 'x');
      assert |id| == low && id !in ix.owners;
      ids := [id] + rest;
      forall i | 0 <= i < n ensures Fresh(ix, ids[i]) && |ids[i]| >= low && (i > 0 ==> ids[i] == rest[i - 1]) {
      }
    }
  }

  /** Some later commits close operation `p`. */
  ghost predicate CanBeClosed(s: Session, p: Id) {
    exists t :: Later(s, t) && t.state.branch.open != Some(p)
  }

  /** Progress, exactly: the open operation of a reachable state can be closed if and only if it is
      not stuck. Commits of one change each are enough to close it. */
  lemma ProgressUnlessStuck(s: Session, p: Id)
    requires Reachable(s) && s.state.branch.open == Some(p)
    ensures CanBeClosed(s, p) <==> !Stuck(s.state, p)
    ensures !Stuck(s.state, p) ==> exists t :: Leads(s, t) && t.state.branch.open.None?
  {
    hide Reachable, Stuck, Leads, Later, Supply;
    if Stuck(s.state, p) {
      forall t | Later(s, t) ensures t.state.branch.open == Some(p) {
        StuckForever(s, t, p);
      }
    } else {
      var low := LongerThanAll(s.ix.owners.Keys);
      var ids := FreshIds(s.ix, low, |s.state.effects.Keys| + 1);
      var t := OpenCanBeClosed(s, p, ids, "");
      LeadsIsLater(s, t);
    }
  }

  // ----- a stuck operation can be reached -----

  const SOME_SELECTION := Selection("p", "m", None, "", [], "")

  const QUEUE_PROMPT := Commit(1, "1", "", [QueueAdded("q", "t", Steering, "", Null)])
  const CLAIM_PROMPT :=
    Commit(2, "2", "", [RunAccepted("o", Some("t"), None, "", Null, SOME_SELECTION), QueueClaimed("q", "o", "")])
  const CANCEL_ENTRY := Commit(3, "3", "", [QueueFinished("q", "", Dropped)])

  lemma OneStep(s: Session, c: Change)
    ensures Steps(s, [c]) == Step(s, c)
  {
    assert [c][1..] == [];
  }

  lemma PromptIsQueued(header: Header) returns (s: Session)
    ensures Transition(Initial(header), QUEUE_PROMPT) == Applied(s) && s.state.sequence == 1
    ensures s.state.commits == map["1" := QUEUE_PROMPT] && s.state.operations == map[] && s.state.nodes == map[]
    ensures s.state.branch == Branch(None, None, Pending(["q"], [], []))
    ensures s.state.queue == map["q" := QueueEntry("q", "t", Steering, "", Null, Queued, None, None, None)]
    ensures s.ix == NO_INDEXES.(
      owners := map["q" := {EntryOwner}, "t" := {TargetOwner}], entryByTarget := map["t" := "q"])
  {
    var c := QUEUE_PROMPT.changes[0];
    OneStep(Initial(header), c);
    s := Record(Step(Initial(header), c).value, QUEUE_PROMPT);
    assert SetAt<Owner>(map[], "q") + {EntryOwner} == {EntryOwner};
    assert s.ix.owners["q"] == {EntryOwner} && s.ix.owners["t"] == {TargetOwner};
    assert s.ix.owners == map["q" := {EntryOwner}, "t" := {TargetOwner}];
  }

  lemma RunIsAccepted(s: Session) returns (t: Session)
    requires s.state.operations == map[] && s.state.nodes == map[]
    requires s.state.branch == Branch(None, None, Pending(["q"], [], []))
    requires s.state.queue == map["q" := QueueEntry("q", "t", Steering, "", Null, Queued, None, None, None)]
    requires s.ix == NO_INDEXES.(
      owners := map["q" := {EntryOwner}, "t" := {TargetOwner}], entryByTarget := map["t" := "q"])
    ensures Step(s, CLAIM_PROMPT.changes[0]) == Some(t) && t.ix.entryByTarget == s.ix.entryByTarget
    ensures t.state == s.state.(
      branch := s.state.branch.(open := Some("o")), operations := map["o" := NewOperation(CLAIM_PROMPT.changes[0])])
    ensures t.ix.operationByPrompt == map["t" := "o"]
  {
    t := Step(s, CLAIM_PROMPT.changes[0]).value;
  }

  lemma ClaimApplies(s: Session, c: Change, operation: Operation, entry: QueueEntry)
    requires c.QueueClaimed? && OpenOperation(s.state, c.operation) == Some(operation)
    requires Get(s.state.queue, c.entryId) == Some(entry) && ClaimAllowed(s, entry, c.operation)
    ensures Step(s, c) == Some(Session(
      s.state.(queue := s.state.queue[c.entryId := entry.(
        status := Claimed, operation := Some(c.operation), claimedAt := Some(c.claimedAt))]),
      s.ix.(entriesByOperation := AddTo(s.ix.entriesByOperation, c.operation, entry.id))))
  {
    hide OpenOperation, Get, ClaimAllowed;
  }

  lemma EntryIsClaimed(s: Session) returns (t: Session)
    requires s.state.branch == Branch(None, Some("o"), Pending(["q"], [], []))
    requires s.state.operations == map["o" := NewOperation(CLAIM_PROMPT.changes[0])]
    requires s.state.queue == map["q" := QueueEntry("q", "t", Steering, "", Null, Queued, None, None, None)]
    requires s.ix.entryByTarget == map["t" := "q"] && s.ix.operationByPrompt == map["t" := "o"]
    ensures Step(s, CLAIM_PROMPT.changes[1]) == Some(t) && t.ix.entryByTarget == s.ix.entryByTarget
    ensures t.state == s.state.(queue := t.state.queue)
    ensures t.state.queue == map["q" := QueueEntry("q", "t", Steering, "", Null, Claimed, Some("o"), Some(""), None)]
  {
    hide Step, AddTo;
    var entry := s.state.queue["q"];
    ClaimApplies(s, CLAIM_PROMPT.changes[1], s.state.operations["o"], entry);
    t := Step(s, CLAIM_PROMPT.changes[1]).value;
  }

  lemma ClaimIsRecorded(s: Session, t: Session)
    requires Steps(s, CLAIM_PROMPT.changes) == Some(t)
    requires s.state.commits == map["1" := QUEUE_PROMPT] && s.state.sequence == 1
    requires t.state.commits == s.state.commits && t.ix.entryByTarget == map["t" := "q"]
    requires t.state.queue == map["q" := QueueEntry("q", "t", Steering, "", Null, Claimed, Some("o"), Some(""), None)]
    ensures Transition(s, CLAIM_PROMPT) == Applied(Record(t, CLAIM_PROMPT))
    ensures Record(t, CLAIM_PROMPT).state.commits == map["1" := QUEUE_PROMPT, "2" := CLAIM_PROMPT]
  {
    hide Steps;
    assert CLAIM_PROMPT.changes[1] == QueueClaimed("q", "o", "");
    assert ClaimedIn(CLAIM_PROMPT.changes, "q", "o");
  }

  lemma TwoSteps(s: Session, c: Change, t: Session, d: Change, u: Session)
    requires Step(s, c) == Some(t) && Step(t, d) == Some(u)
    ensures Steps(s, [c, d]) == Some(u)
  {
    hide Step;
    assert [c, d][1..] == [d] && [d][1..] == [];
    assert Steps(t, [d]) == Some(u);
  }

  lemma PromptIsClaimed(s: Session) returns (t: Session)
    requires s.state.commits == map["1" := QUEUE_PROMPT] && s.state.operations == map[] && s.state.nodes == map[]
    requires s.state.branch == Branch(None, None, Pending(["q"], [], [])) && s.state.sequence == 1
    requires s.state.queue == map["q" := QueueEntry("q", "t", Steering, "", Null, Queued, None, None, None)]
    requires s.ix == NO_INDEXES.(
      owners := map["q" := {EntryOwner}, "t" := {TargetOwner}], entryByTarget := map["t" := "q"])
    ensures Transition(s, CLAIM_PROMPT) == Applied(t) && t.state.sequence == 2 && t.state.nodes == map[]
    ensures t.state.commits == map["1" := QUEUE_PROMPT, "2" := CLAIM_PROMPT]
    ensures t.state.branch == Branch(None, Some("o"), Pending(["q"], [], []))
    ensures "o" in t.state.operations && t.state.operations["o"].prompt == Some("t")
    ensures t.state.queue == map["q" := QueueEntry("q", "t", Steering, "", Null, Claimed, Some("o"), Some(""), None)]
  {
    hide Step, Steps, Transition;
    var m := RunIsAccepted(s);
    var n := EntryIsClaimed(m);
    TwoSteps(s, CLAIM_PROMPT.changes[0], m, CLAIM_PROMPT.changes[1], n);
    ClaimIsRecorded(s, n);
    t := Record(n, CLAIM_PROMPT);
  }

  lemma EntryIsCancelled(s: Session) returns (t: Session)
    requires s.state.sequence == 2 && s.state.commits == map["1" := QUEUE_PROMPT, "2" := CLAIM_PROMPT]
    requires s.state.branch == Branch(None, Some("o"), Pending(["q"], [], []))
    requires s.state.queue == map["q" := QueueEntry("q", "t", Steering, "", Null, Claimed, Some("o"), Some(""), None)]
    ensures Transition(s, CANCEL_ENTRY) == Applied(t) && t.state.branch.open == Some("o")
    ensures t.state.operations == s.state.operations && t.state.nodes == s.state.nodes
    ensures "q" in t.state.queue && t.state.queue["q"].target == "t" && t.state.queue["q"].status == Ended(Dropped)
  {
    var c := CANCEL_ENTRY.changes[0];
    OneStep(s, c);
    t := Record(Step(s, c).value, CANCEL_ENTRY);
  }

  lemma ThreeCommits(s: Session, a: Commit, b: Commit, c: Commit)
    ensures Run(s, [a, b, c]) == After(After(After(s, a), b), c)
  {
    hide After;
    assert [a, b, c][1..] == [b, c] && [b, c][1..] == [c] && [c][1..] == [];
    assert Run(After(After(s, a), b), [c]) == After(After(After(s, a), b), c);
    assert Run(After(s, a), [b, c]) == Run(After(After(s, a), b), [c]);
  }

  /** A prompt is queued, accepted and claimed, and its entry is cancelled before the prompt is
      added: the operation is open and stuck. */
  lemma StuckCanHappen(header: Header) returns (s: Session)
    ensures Reachable(s) && s.state.branch.open == Some("o") && Stuck(s.state, "o")
  {
    hide Transition;
    var a := PromptIsQueued(header);
    var b := PromptIsClaimed(a);
    s := EntryIsCancelled(b);
    ThreeCommits(Initial(header), QUEUE_PROMPT, CLAIM_PROMPT, CANCEL_ENTRY);
  }
}
