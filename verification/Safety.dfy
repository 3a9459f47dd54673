/** Safety of the session log over whole runs. */
module Safety {
  import opened Options
  import opened SessionTypes
  import opened Reducer
  import opened Paths
  import opened Invariant
  import opened Evolution
  import opened Runs

  // ----- ids -----

  /** The kinds of record that use `id` somewhere in the state. */
  ghost function OwnersOf(s: State, id: Id): set<Owner> {
    set c | c in OwnerPairs(s) && c.0 == id :: c.1
  }

  lemma OwnersAreIndexed(s: Session, id: Id)
    requires Lists(s.ix.owners, OwnerPairs(s.state))
    ensures OwnersOf(s.state, id) == SetAt(s.ix.owners, id)
  {
    forall o ensures o in OwnersOf(s.state, id) <==> o in SetAt(s.ix.owners, id) {
      assert o in SetAt(s.ix.owners, id) <==> (id, o) in OwnerPairs(s.state);
      if (id, o) in OwnerPairs(s.state) {
        assert (id, o).0 == id && (id, o).1 == o;
      }
    }
  }

  /** In every reachable state an id has one kind of owner, up to reservations of conversation
      nodes and a recovery that settled its effect; prompts and queue targets are not shared. */
  lemma IdsHaveOneOwner(s: Session)
    requires Reachable(s)
    ensures forall id :: Compatible(OwnersOf(s.state, id))
    ensures forall p, q :: (p in s.state.operations && q in s.state.operations && p != q
                            && s.state.operations[p].prompt.Some?) ==>
      s.state.operations[p].prompt != s.state.operations[q].prompt
    ensures forall p, q :: p in s.state.queue && q in s.state.queue && p != q ==>
      s.state.queue[p].target != s.state.queue[q].target
  {
    ReachableIsSettled(s);
    forall id ensures Compatible(OwnersOf(s.state, id)) {
      OwnersAreIndexed(s, id);
      assert Compatible(SetAt(s.ix.owners, id));
    }
    PromptsDiffer(s.state.operations, s.ix.operationByPrompt);
    TargetsDiffer(s.state.queue, s.ix.entryByTarget);
  }

  lemma PromptsDiffer(operations: map<Id, Operation>, m: map<Id, Id>)
    requires Maps(m, PromptPairs(operations))
    ensures forall p, q :: p in operations && q in operations && p != q && operations[p].prompt.Some? ==>
      operations[p].prompt != operations[q].prompt
  {
    forall p | p in operations && operations[p].prompt.Some?
      ensures operations[p].prompt.value in m && m[operations[p].prompt.value] == p
    {
      assert (operations[p].prompt.value, p) in PromptPairs(operations);
    }
  }

  lemma TargetsDiffer(queue: map<Id, QueueEntry>, m: map<Id, Id>)
    requires Maps(m, TargetPairs(queue))
    ensures forall p, q :: p in queue && q in queue && p != q ==> queue[p].target != queue[q].target
  {
    forall p | p in queue ensures queue[p].target in m && m[queue[p].target] == p {
      assert (queue[p].target, p) in TargetPairs(queue);
    }
  }

  // ----- indexes -----

  /** The indexes kept through any run are the only ones that a rebuild of the state can give. */
  lemma IndexesAreTheRebuild(s: Session, rebuilt: Indexes)
    requires Reachable(s) && Indexed(Session(s.state, rebuilt))
    ensures s.ix == rebuilt
  {
    ReachableIsSettled(s);
    IndexesAreDetermined(s.state, s.ix, rebuilt);
  }

  // ----- finished operations -----

  /** What a finished operation has left behind, in the state `t`. */
  ghost predicate LeftSettled(t: State, p: Operation) {
    && p.status.Finished? && Known(t.nodes, p.prompt)
    && (forall e :: e in t.effects && t.effects[e].operation == p.id ==>
          && Terminal(t.effects[e].status)
          && t.effects[e].result in t.nodes
          && ResultPlaced(t.nodes, t.effects[e]))
    && (forall q :: q in t.queue && t.queue[q].operation == Some(p.id) ==> !t.queue[q].status.Claimed?)
  }

  lemma FinishedIsLeftSettled(t: State, p: Id)
    requires StateOk(t) && p in t.operations && t.operations[p].status.Finished?
    ensures LeftSettled(t, t.operations[p]) && t.branch.open != Some(p)
    ensures forall e :: e in t.effects && t.effects[e].operation == p ==> Terminal(t.effects[e].status)
  {
    assert RunOk(t.nodes, t.branch.open, t.operations[p]);
    forall e | e in t.effects && t.effects[e].operation == p
      ensures Terminal(t.effects[e].status) && t.effects[e].result in t.nodes && ResultPlaced(t.nodes, t.effects[e])
    {
      assert EffectOk(t.nodes, t.operations, t.effects[e]);
    }
    forall q | q in t.queue && t.queue[q].operation == Some(p) ensures !t.queue[q].status.Claimed? {
      assert EntryOk(t.nodes, t.operations.Keys, t.branch, t.queue[q]);
    }
  }

  /** A finished operation is settled forever: in every later state it is unchanged, it has
      exactly the effects it had, unchanged, and they and its queue entries are settled. */
  lemma FinishedForever(s: Session, t: Session, p: Id)
    requires Reachable(s) && Later(s, t)
    requires p in s.state.operations && s.state.operations[p].status.Finished?
    ensures p in t.state.operations && t.state.operations[p] == s.state.operations[p]
    ensures forall e :: e in t.state.effects && t.state.effects[e].operation == p ==>
      e in s.state.effects && t.state.effects[e] == s.state.effects[e]
    ensures forall e :: e in s.state.effects && s.state.effects[e].operation == p ==> e in t.state.effects
    ensures LeftSettled(t.state, t.state.operations[p])
    ensures t.state.branch.open != Some(p)
  {
    hide *;
    ReachableIsSettled(s);
    LaterEvolves(s, t);
    SettledIs(s);
    SettledIs(t);
    InvParts(s);
    InvParts(t);
    FinishedStays(s.state, t.state, p);
    FinishedIsLeftSettled(t.state, p);
    FinishedIsLeftSettled(s.state, p);
    EffectsOfFinished(s.state, t.state, p);
  }

  lemma FinishedStays(s: State, t: State, p: Id)
    requires Evolves(s, t) && p in s.operations && s.operations[p].status.Finished?
    ensures p in t.operations && t.operations[p] == s.operations[p]
    ensures forall e :: e in s.effects && s.effects[e].operation == p ==> e in t.effects
  {
    assert RunEvolves(s.operations[p], t.operations[p]);
  }

  lemma EffectsOfFinished(s: State, t: State, p: Id)
    requires Evolves(s, t) && p in s.operations && s.operations[p].status.Finished?
    requires forall e :: e in s.effects && s.effects[e].operation == p ==> Terminal(s.effects[e].status)
    ensures forall e :: e in t.effects && t.effects[e].operation == p ==> e in s.effects && t.effects[e] == s.effects[e]
  {
    forall e | e in t.effects && t.effects[e].operation == p ensures e in s.effects && t.effects[e] == s.effects[e] {
      assert EffectEvolves(s.effects[e], t.effects[e]);
    }
  }

  // ----- tool effects -----

  /** Dispatch counts, results, finish times and in-doubt times, in every reachable state. */
  lemma EffectsLive(s: Session, e: Id)
    requires Reachable(s) && e in s.state.effects
    ensures LifeOk(s.state.effects[e])
    ensures s.state.effects[e].operation in s.state.operations
    ensures s.state.operations[s.state.effects[e].operation].cancel.Some? ==> !s.state.effects[e].status.Prepared?
  {
    ReachableIsSettled(s);
    assert EffectOk(s.state.nodes, s.state.operations, s.state.effects[e]);
  }

  /** After a cancellation request the operation takes no step, attempt, effect or dispatch. */
  lemma CancelledForever(s: Session, t: Session, p: Id)
    requires Reachable(s) && Later(s, t)
    requires p in s.state.operations && s.state.operations[p].cancel.Some?
    ensures p in t.state.operations
    ensures t.state.operations[p].cancel == s.state.operations[p].cancel
    ensures t.state.operations[p].steps == s.state.operations[p].steps
    ensures t.state.operations[p].attempts == s.state.operations[p].attempts
    ensures t.state.operations[p].status != Finished(Completed)
    ensures forall e :: e in t.state.effects && t.state.effects[e].operation == p ==>
      && e in s.state.effects && t.state.effects[e].dispatches == s.state.effects[e].dispatches
      && !t.state.effects[e].status.Prepared?
  {
    hide Reachable, Later, Run, NoQueuedPrompts, Indexed, Forest, QueueOk;
    ReachableIsSettled(s);
    LaterEvolves(s, t);
    assert RunEvolves(s.state.operations[p], t.state.operations[p]);
    assert RunOk(t.state.nodes, t.state.branch.open, t.state.operations[p]);
    forall e | e in t.state.effects && t.state.effects[e].operation == p
      ensures !t.state.effects[e].status.Prepared?
    {
      assert EffectOk(t.state.nodes, t.state.operations, t.state.effects[e]);
    }
  }

  // ----- the conversation graph -----

  /** The graph is always a forest: looking for an ancestor never cycles, never leaves the graph,
      and succeeds exactly when there is a path; nodes are never changed or removed. */
  lemma ConversationIsForest(s: Session, start: Option<Id>, ancestor: Option<Id>, owner: Option<Id>)
    requires Reachable(s) && Known(s.state.nodes, start)
    ensures Forest(s.state.nodes)
    ensures var walk := Ancestry(s.state.nodes, start, ancestor, owner);
      && !walk.Cycle? && !walk.UnknownNode?
      && (walk.Reached? <==> Linked(s.state.nodes, start, ancestor, owner))
      && (walk.Reached? ==> IsPath(s.state.nodes, walk.path, start, ancestor, owner))
  {
    ReachableIsSettled(s);
    AncestryIsLink(s.state.nodes, start, ancestor, owner);
    WalkFindsPath(s.state.nodes, start, ancestor, owner, {});
  }

  /** Compactions retain nodes in root-to-leaf order on their parent's path, and a prompt that
      exists reaches its source head through its own operation's nodes only. */
  lemma ConversationIsOrdered(s: Session)
    requires Reachable(s)
    ensures forall n :: n in s.state.nodes ==> RetainedInOrder(s.state.nodes, s.state.nodes[n])
    ensures forall p :: p in s.state.operations ==> PromptPlaced(s.state.nodes, s.state.operations[p])
    ensures forall e :: e in s.state.effects ==> ResultPlaced(s.state.nodes, s.state.effects[e])
  {
    ReachableIsSettled(s);
    var nodes := s.state.nodes;
    forall n | n in nodes ensures RetainedInOrder(nodes, nodes[n]) {
      assert NodeOk(nodes, s.state.operations.Keys, nodes[n]);
    }
    forall p | p in s.state.operations ensures PromptPlaced(nodes, s.state.operations[p]) {
      assert RunOk(nodes, s.state.branch.open, s.state.operations[p]);
    }
    forall e | e in s.state.effects ensures ResultPlaced(nodes, s.state.effects[e]) {
      assert EffectOk(nodes, s.state.operations, s.state.effects[e]);
    }
  }

  lemma NodesAreKept(s: Session, t: Session)
    requires Reachable(s) && Later(s, t)
    ensures Extends(s.state.nodes, t.state.nodes)
  {
    ReachableIsSettled(s);
    LaterEvolves(s, t);
  }
}
