/** Whole runs: every reachable session satisfies the invariant, and nothing settled is undone. */
module Runs {
  import opened Options
  import opened SessionTypes
  import opened Reducer
  import opened Paths
  import opened Invariant
  import opened Evolution
  import opened Preservation
  import opened Indexing

  lemma InitialInv(header: Header)
    ensures Inv(Initial(header)) && NoQueuedPrompts(Initial(header).state)
  {
    var s := Initial(header);
    EmptyForest();
    assert OwnerPairs(s.state) == {};
    assert IdsOwned(s.ix) by {
      assert forall id :: SetAt(s.ix.owners, id) == {};
    }
  }

  // ----- what the changes of a commit do together -----

  /** Between commits no queued entry is reserved as an operation's prompt. */
  ghost predicate NoQueuedPrompts(s: State) {
    forall q, p :: (q in s.queue && p in s.operations && s.queue[q].status.Queued?) ==>
      s.operations[p].prompt != Some(s.queue[q].target)
  }

  ghost predicate PromptPair(s: State, q: Id, p: Id) {
    && q in s.queue && p in s.operations && s.queue[q].status.Queued?
    && s.operations[p].prompt == Some(s.queue[q].target)
  }

  /** An entry added after an operation never targets that operation's prompt. */
  ghost predicate PairsAreOld(s: State, t: State) {
    forall q, p :: PromptPair(t, q, p) && p in s.operations ==> q in s.queue
  }

  ghost predicate AcceptedAt(c: Change, p: Id, prompt: Option<Id>) {
    c.RunAccepted? && c.operation == p && c.prompt == prompt
  }

  /** Every new operation was accepted by one of the changes. */
  ghost predicate RunsWereAccepted(s: State, t: State, cs: seq<Change>) {
    forall p :: p in t.operations && p !in s.operations ==>
      exists i :: 0 <= i < |cs| && AcceptedAt(cs[i], p, t.operations[p].prompt)
  }

  lemma AddedPairsAreOld(s: Session, c: Change)
    requires c.QueueAdded? && Lists(s.ix.owners, OwnerPairs(s.state)) && ApplyQueueAdded(s, c).Some?
    ensures PairsAreOld(s.state, ApplyQueueAdded(s, c).value.state)
  {
    NoPromptAt(s, c.target);
  }

  lemma SameEntriesAreOld(s: State, c: Change, t: State)
    requires Framed(s, c, t) && !c.QueueAdded?
    ensures PairsAreOld(s, t)
  {
  }

  lemma StepPairsAreOld(s: Session, c: Change, t: Session)
    requires Inv(s) && WellFormedChange(c) && Step(s, c) == Some(t)
    ensures PairsAreOld(s.state, t.state)
  {
    hide *;
    InvParts(s);
    IndexParts(s);
    StepFrame(s, c, t);
    StepCases(s, c, t);
    if c.QueueAdded? {
      AddedPairsAreOld(s, c);
    } else {
      SameEntriesAreOld(s.state, c, t.state);
    }
  }

  lemma RunWasAccepted(s: Session, c: Change)
    requires c.RunAccepted? && ApplyAccepted(s, c).Some?
    ensures RunsWereAccepted(s.state, ApplyAccepted(s, c).value.state, [c])
  {
    assert [c][0] == c;
  }

  lemma NoRunWasAccepted(s: State, t: State, c: Change)
    requires Framed(s, c, t) && !c.RunAccepted?
    ensures RunsWereAccepted(s, t, [c])
  {
  }

  lemma StepRunsWereAccepted(s: Session, c: Change, t: Session)
    requires Inv(s) && WellFormedChange(c) && Step(s, c) == Some(t)
    ensures RunsWereAccepted(s.state, t.state, [c])
  {
    hide *;
    StepFrame(s, c, t);
    StepCases(s, c, t);
    if c.RunAccepted? {
      RunWasAccepted(s, c);
    } else {
      NoRunWasAccepted(s.state, t.state, c);
    }
  }

  lemma PairsAreOldOn(s: State, t: State, u: State)
    requires PairsAreOld(s, t) && PairsAreOld(t, u) && RunsEvolve(s.operations, t.operations)
    requires RunsEvolve(t.operations, u.operations) && EntriesEvolve(t.queue, u.queue)
    ensures PairsAreOld(s, u)
  {
    forall q, p | PromptPair(u, q, p) && p in s.operations ensures q in s.queue {
      assert RunEvolves(s.operations[p], t.operations[p]) && RunEvolves(t.operations[p], u.operations[p]);
      assert EntryEvolves(t.queue[q], u.queue[q]);
      assert PromptPair(t, q, p);
    }
  }

  lemma RunsWereAcceptedOn(s: State, t: State, u: State, c: Change, cs: seq<Change>)
    requires RunsWereAccepted(s, t, [c]) && RunsWereAccepted(t, u, cs) && RunsEvolve(t.operations, u.operations)
    ensures RunsWereAccepted(s, u, [c] + cs)
  {
    var all := [c] + cs;
    forall p | p in u.operations && p !in s.operations
      ensures exists i :: 0 <= i < |all| && AcceptedAt(all[i], p, u.operations[p].prompt)
    {
      if p in t.operations {
        assert RunEvolves(t.operations[p], u.operations[p]);
        assert all[0] == c;
      } else {
        var i :| 0 <= i < |cs| && AcceptedAt(cs[i], p, u.operations[p].prompt);
        assert all[i + 1] == cs[i];
      }
    }
  }

  ghost predicate WellFormedAll(cs: seq<Change>) {
    forall i :: 0 <= i < |cs| ==> WellFormedChange(cs[i])
  }

  /** What some accepted changes have done to a state. */
  ghost predicate Progressed(s: State, t: State, cs: seq<Change>) {
    Evolves(s, t) && PairsAreOld(s, t) && RunsWereAccepted(s, t, cs)
  }

  lemma ProgressIs(s: State, t: State, cs: seq<Change>)
    ensures Progressed(s, t, cs) <==> Evolves(s, t) && PairsAreOld(s, t) && RunsWereAccepted(s, t, cs)
  {
  }

  lemma StepProgresses(s: Session, c: Change, t: Session)
    requires Inv(s) && WellFormedChange(c) && Step(s, c) == Some(t)
    ensures Progressed(s.state, t.state, [c])
  {
    hide *;
    StepEvolves(s, c, t);
    StepPairsAreOld(s, c, t);
    StepRunsWereAccepted(s, c, t);
    ProgressIs(s.state, t.state, [c]);
  }

  lemma ProgressesOn(s: State, t: State, u: State, c: Change, cs: seq<Change>)
    requires Progressed(s, t, [c]) && Progressed(t, u, cs)
    ensures Progressed(s, u, [c] + cs)
  {
    EvolvesOn(s, t, u);
    PairsAreOldOn(s, t, u);
    RunsWereAcceptedOn(s, t, u, c, cs);
  }

  lemma NoProgress(s: State)
    ensures Progressed(s, s, [])
  {
    EvolvesToItself(s);
  }

  lemma HeadAndTail<T>(s: seq<T>)
    requires s != []
    ensures [s[0]] + s[1..] == s
  {
  }

  lemma StepsUnfold(s: Session, cs: seq<Change>, u: Session) returns (t: Session)
    requires Steps(s, cs) == Some(u) && cs != []
    ensures Step(s, cs[0]) == Some(t) && Steps(t, cs[1..]) == Some(u)
  {
    hide Step;
    t := Step(s, cs[0]).value;
  }

  lemma NoSteps(s: Session)
    ensures Steps(s, []) == Some(s)
  {
  }

  lemma TailWellFormed(cs: seq<Change>)
    requires WellFormedAll(cs) && cs != []
    ensures WellFormedChange(cs[0]) && WellFormedAll(cs[1..])
  {
  }

  lemma {:induction false} StepsKeep(s: Session, cs: seq<Change>, u: Session)
    requires Inv(s) && WellFormedAll(cs) && Steps(s, cs) == Some(u)
    ensures Inv(u) && Progressed(s.state, u.state, cs)
    decreases |cs|
  {
    hide *;
    if cs == [] {
      NoSteps(s);
      NoProgress(s.state);
    } else {
      var t := StepsUnfold(s, cs, u);
      TailWellFormed(cs);
      StepKeepsInv(s, cs[0], t);
      StepProgresses(s, cs[0], t);
      StepsKeep(t, cs[1..], u);
      HeadAndTail(cs);
      ProgressesOn(s.state, t.state, u.state, cs[0], cs[1..]);
    }
  }

  // ----- one commit -----

  lemma RecordKeeps(s: Session, commit: Commit)
    requires Inv(s)
    ensures Inv(Record(s, commit)) && Evolves(s.state, Record(s, commit).state)
  {
    var t := Record(s, commit);
    EvolvesToItself(s.state);
    assert OwnerPairs(t.state) == OwnerPairs(s.state);
  }

  lemma CommitClaimsPrompts(s: Session, t: Session, cs: seq<Change>)
    requires NoQueuedPrompts(s.state) && Inv(t) && Progressed(s.state, t.state, cs) && PromptsClaimed(t, cs)
    ensures NoQueuedPrompts(t.state)
  {
    forall q, p | q in t.state.queue && p in t.state.operations && t.state.queue[q].status.Queued?
      ensures t.state.operations[p].prompt != Some(t.state.queue[q].target)
    {
      if PromptPair(t.state, q, p) {
        if p in s.state.operations {
          OldPairWasQueued(s.state, t.state, q, p);
        } else {
          NewPromptWasClaimed(t, cs, q, p);
        }
      }
    }
  }

  lemma OldPairWasQueued(s: State, t: State, q: Id, p: Id)
    requires NoQueuedPrompts(s) && Evolves(s, t) && PairsAreOld(s, t) && p in s.operations
    ensures !PromptPair(t, q, p)
  {
    if q in s.queue {
      assert EntryEvolves(s.queue[q], t.queue[q]);
      assert RunEvolves(s.operations[p], t.operations[p]);
    }
  }

  lemma NewPromptWasClaimed(t: Session, cs: seq<Change>, q: Id, p: Id)
    requires Inv(t) && PromptsClaimed(t, cs) && p in t.state.operations
    requires exists i :: 0 <= i < |cs| && AcceptedAt(cs[i], p, t.state.operations[p].prompt)
    ensures !PromptPair(t.state, q, p)
  {
    var i :| 0 <= i < |cs| && AcceptedAt(cs[i], p, t.state.operations[p].prompt);
    assert PromptClaimed(t, cs, cs[i]);
    if q in t.state.queue {
      TargetIndexed(t, q, t.state.queue[q].target);
      assert EntryOk(t.state.nodes, t.state.operations.Keys, t.state.branch, t.state.queue[q]);
    }
  }

  ghost predicate Settled(s: Session) {
    Inv(s) && NoQueuedPrompts(s.state)
  }

  lemma SettledIs(s: Session)
    ensures Settled(s) <==> Inv(s) && NoQueuedPrompts(s.state)
  {
  }

  /** What accepting a commit comes to. */
  lemma AppliedCommit(s: Session, commit: Commit, u: Session) returns (t: Session)
    requires Transition(s, commit) == Applied(u)
    ensures Steps(s, commit.changes) == Some(t) && PromptsClaimed(t, commit.changes) && u == Record(t, commit)
    ensures WellFormedAll(commit.changes) && commit.changes != []
    ensures commit.commitId !in s.state.commits && commit.sequence == s.state.sequence + 1
  {
    hide Steps, PromptsClaimed, Record;
    t := Steps(s, commit.changes).value;
  }

  lemma RecordKeepsQueue(t: Session, commit: Commit)
    requires NoQueuedPrompts(t.state)
    ensures NoQueuedPrompts(Record(t, commit).state)
  {
  }

  lemma TransitionKeeps(s: Session, commit: Commit, u: Session)
    requires Settled(s) && Transition(s, commit) == Applied(u)
    ensures Settled(u) && Evolves(s.state, u.state)
  {
    hide *;
    var t := AppliedCommit(s, commit, u);
    SettledIs(s);
    SettledIs(u);
    StepsKeep(s, commit.changes, t);
    ProgressIs(s.state, t.state, commit.changes);
    CommitClaimsPrompts(s, t, commit.changes);
    RecordKeeps(t, commit);
    RecordKeepsQueue(t, commit);
    EvolvesOn(s.state, t.state, u.state);
  }

  // ----- any number of commits -----

  lemma AfterKeeps(s: Session, commit: Commit)
    requires Settled(s)
    ensures Settled(After(s, commit)) && Evolves(s.state, After(s, commit).state)
  {
    hide Settled, Evolves, Transition;
    EvolvesToItself(s.state);
    if Transition(s, commit).Applied? {
      TransitionKeeps(s, commit, After(s, commit));
    }
  }

  lemma {:induction false} RunKeeps(s: Session, commits: seq<Commit>)
    requires Settled(s)
    ensures Settled(Run(s, commits)) && Evolves(s.state, Run(s, commits).state)
    decreases |commits|
  {
    hide Settled, Evolves, After;
    EvolvesToItself(s.state);
    if commits != [] {
      var next := After(s, commits[0]);
      AfterKeeps(s, commits[0]);
      RunKeeps(next, commits[1..]);
      EvolvesOn(s.state, next.state, Run(next, commits[1..]).state);
    }
  }

  lemma ReachableIsSettled(s: Session)
    requires Reachable(s)
    ensures Settled(s)
  {
    var header, commits :| s == Run(Initial(header), commits);
    InitialInv(header);
    RunKeeps(Initial(header), commits);
  }

  lemma LaterEvolves(s: Session, t: Session)
    requires Settled(s) && Later(s, t)
    ensures Settled(t) && Evolves(s.state, t.state)
  {
    var commits :| t == Run(s, commits);
    RunKeeps(s, commits);
  }
}
