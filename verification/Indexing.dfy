/** Keeping the indexes up to date by small steps gives what a rebuild would give. */
module Indexing {
  import opened Options
  import opened CanonicalJson
  import opened SessionTypes
  import opened Reducer
  import opened Invariant
  import opened Evolution
  import opened Preservation

  // ----- one entry at a time -----

  lemma ListsAdd<T(!new)>(m: Sets<T>, pairs: set<(string, T)>, k: string, v: T)
    requires Lists(m, pairs)
    ensures Lists(AddTo(m, k, v), pairs + {(k, v)})
  {
    var n := AddTo(m, k, v);
    forall x, y ensures y in SetAt(n, x) <==> (x, y) in pairs + {(k, v)} {
      assert y in SetAt(m, x) <==> (x, y) in pairs;
    }
  }

  lemma MapsAdd(m: map<Id, Id>, pairs: set<(Id, Id)>, k: Id, v: Id)
    requires Maps(m, pairs) && k !in m
    ensures Maps(m[k := v], pairs + {(k, v)})
  {
    forall x, y ensures (x in m[k := v] && m[k := v][x] == y) <==> (x, y) in pairs + {(k, v)} {
      assert (x in m && m[x] == y) <==> (x, y) in pairs;
    }
  }

  lemma MapsDomain(m: map<Id, Id>, pairs: set<(Id, Id)>)
    requires Maps(m, pairs)
    ensures forall k :: k in m ==> (k, m[k]) in pairs
  {
  }

  lemma RunClaimsUpdate(operations: map<Id, Operation>, q: Operation)
    requires q.id in operations ==> OperationClaims(operations[q.id]) <= OperationClaims(q)
    ensures RunClaims(operations[q.id := q]) == RunClaims(operations) + OperationClaims(q)
  {
    var more := operations[q.id := q];
    forall c ensures c in RunClaims(more) <==> c in RunClaims(operations) + OperationClaims(q) {
      if c in RunClaims(operations) {
        var p :| p in operations && c in OperationClaims(operations[p]);
        assert p in more && c in OperationClaims(more[p]);
      }
      if c in OperationClaims(q) {
        assert q.id in more && c in OperationClaims(more[q.id]);
      }
    }
  }

  lemma QueueClaimsUpdate(queue: map<Id, QueueEntry>, q: QueueEntry)
    requires q.id in queue ==> EntryClaims(queue[q.id]) <= EntryClaims(q)
    ensures QueueClaims(queue[q.id := q]) == QueueClaims(queue) + EntryClaims(q)
  {
    var more := queue[q.id := q];
    forall c ensures c in QueueClaims(more) <==> c in QueueClaims(queue) + EntryClaims(q) {
      if c in QueueClaims(queue) {
        var p :| p in queue && c in EntryClaims(queue[p]);
        assert p in more && c in EntryClaims(more[p]);
      }
      if c in EntryClaims(q) {
        assert q.id in more && c in EntryClaims(more[q.id]);
      }
    }
  }

  lemma ToolClaimsUpdate(effects: map<Id, Effect>, f: Effect)
    requires f.id in effects ==> EffectClaims(effects[f.id]) <= EffectClaims(f)
    ensures ToolClaims(effects[f.id := f]) == ToolClaims(effects) + EffectClaims(f)
  {
    var more := effects[f.id := f];
    forall c ensures c in ToolClaims(more) <==> c in ToolClaims(effects) + EffectClaims(f) {
      if c in ToolClaims(effects) {
        var p :| p in effects && c in EffectClaims(effects[p]);
        assert p in more && c in EffectClaims(more[p]);
      }
      if c in EffectClaims(f) {
        assert f.id in more && c in EffectClaims(more[f.id]);
      }
    }
  }

  // ----- who may own an id -----

  lemma OwnKeepsIds(ix: Indexes, id: Id, owner: Owner)
    requires IdsOwned(ix) && Compatible(SetAt(ix.owners, id) + {owner})
    ensures IdsOwned(Own(ix, id, owner))
    ensures forall x :: x != id ==> SetAt(Own(ix, id, owner).owners, x) == SetAt(ix.owners, x)
  {
    var more := Own(ix, id, owner);
    forall x ensures Compatible(SetAt(more.owners, x)) {
      assert Compatible(SetAt(ix.owners, x));
    }
  }

  lemma FreshMayBeOwned(ix: Indexes, id: Id, owner: Owner)
    requires Fresh(ix, id)
    ensures Compatible(SetAt(ix.owners, id) + {owner})
  {
  }

  lemma ReservedMayBecomeNode(owners: set<Owner>)
    requires Compatible(owners) && (TargetOwner in owners || PromptOwner in owners || ResultOwner in owners)
    ensures Compatible(owners + {NodeOwner})
  {
    if forall a, b :: a in owners && b in owners ==> a == b {
      assert owners <= {TargetOwner} || owners <= {PromptOwner} || owners <= {ResultOwner};
    }
  }

  lemma TargetMayBecomePrompt(owners: set<Owner>)
    requires Compatible(owners) && TargetOwner in owners
    ensures Compatible(owners + {PromptOwner})
  {
  }

  lemma RecoveryMaySettle(owners: set<Owner>)
    requires Compatible(owners) && RecoveryOwner in owners
    ensures Compatible(owners + {SettlementOwner})
  {
  }

  /** Owning a fresh id. */
  lemma OwnFresh(ix: Indexes, id: Id, owner: Owner)
    requires IdsOwned(ix) && Fresh(ix, id)
    ensures IdsOwned(Own(ix, id, owner))
    ensures forall x :: x != id && Fresh(ix, x) ==> Fresh(Own(ix, id, owner), x)
  {
    FreshMayBeOwned(ix, id, owner);
    OwnKeepsIds(ix, id, owner);
  }

  // ----- tool effects -----

  lemma EffectPairsKept(effects: map<Id, Effect>, f: Effect)
    requires f.id in effects
    requires f.operation == effects[f.id].operation && f.result == effects[f.id].result && f.call == effects[f.id].call
    ensures ResultPairs(effects[f.id := f]) == ResultPairs(effects)
    ensures EffectPairs(effects[f.id := f]) == EffectPairs(effects)
    ensures CallPairs(effects[f.id := f]) == CallPairs(effects)
  {
    var more := effects[f.id := f];
    assert more.Keys == effects.Keys;
    assert forall e :: e in effects ==>
      more[e].operation == effects[e].operation && more[e].result == effects[e].result
        && more[e].call == effects[e].call;
  }

  lemma EffectPairsAdded(effects: map<Id, Effect>, f: Effect)
    requires f.id !in effects
    ensures ResultPairs(effects[f.id := f]) == ResultPairs(effects) + {(f.result, f.id)}
    ensures EffectPairs(effects[f.id := f]) == EffectPairs(effects) + {(f.operation, f.id)}
    ensures CallPairs(effects[f.id := f]) == CallPairs(effects) + {(f.operation, f.call)}
  {
    var more := effects[f.id := f];
    assert forall e :: e in more <==> e in effects || e == f.id;
    forall c ensures c in CallPairs(more) <==> c in CallPairs(effects) + {(f.operation, f.call)} {
      if c in CallPairs(effects) {
        var e :| e in effects && c == (effects[e].operation, effects[e].call);
        assert e in more && c == (more[e].operation, more[e].call);
      }
      if c == (f.operation, f.call) {
        assert f.id in more && c == (more[f.id].operation, more[f.id].call);
      }
    }
    forall c ensures c in ResultPairs(more) <==> c in ResultPairs(effects) + {(f.result, f.id)} {
      assert c in ResultPairs(more) <==> c.1 in more && c == (more[c.1].result, c.1);
      assert c in ResultPairs(effects) <==> c.1 in effects && c == (effects[c.1].result, c.1);
    }
    forall c ensures c in EffectPairs(more) <==> c in EffectPairs(effects) + {(f.operation, f.id)} {
      assert c in EffectPairs(more) <==> c.1 in more && c == (more[c.1].operation, c.1);
      assert c in EffectPairs(effects) <==> c.1 in effects && c == (effects[c.1].operation, c.1);
    }
  }

  lemma DispatchClaim(e: Effect, dispatchId: Id, at: Time)
    ensures var f := Dispatch(e, dispatchId, at);
      && f.id == e.id && f.operation == e.operation && f.result == e.result && f.call == e.call
      && EffectClaims(f) == EffectClaims(e) + {(dispatchId, DispatchOwner)}
  {
    var f := Dispatch(e, dispatchId, at);
    var before := set i | 0 <= i < |e.dispatches| :: (e.dispatches[i], DispatchOwner);
    var after := set i | 0 <= i < |f.dispatches| :: (f.dispatches[i], DispatchOwner);
    assert after == before + {(dispatchId, DispatchOwner)} by {
      assert forall i :: 0 <= i < |e.dispatches| ==> f.dispatches[i] == e.dispatches[i];
      assert f.dispatches[|e.dispatches|] == dispatchId;
      forall c | c in before ensures c in after {
        var i :| 0 <= i < |e.dispatches| && c == (e.dispatches[i], DispatchOwner);
        assert c == (f.dispatches[i], DispatchOwner);
      }
    }
  }

  lemma MoreToolClaims(s: State, effects: map<Id, Effect>, extra: set<Claim>)
    requires ToolClaims(effects) == ToolClaims(s.effects) + extra
    ensures OwnerPairs(s.(effects := effects)) == OwnerPairs(s) + extra
  {
  }

  lemma EffectReindexed(s: Session, f: Effect, ix: Indexes)
    requires Indexed(s) && f.id in s.state.effects
    requires var e := s.state.effects[f.id]; f.operation == e.operation && f.result == e.result && f.call == e.call
    requires EffectClaims(s.state.effects[f.id]) <= EffectClaims(f)
    requires ix == s.ix.(owners := ix.owners)
    requires Lists(ix.owners, OwnerPairs(s.state) + EffectClaims(f))
    ensures Indexed(Session(s.state.(effects := s.state.effects[f.id := f]), ix))
  {
    ToolClaimsUpdate(s.state.effects, f);
    MoreToolClaims(s.state, s.state.effects[f.id := f], EffectClaims(f));
    EffectPairsKept(s.state.effects, f);
  }

  lemma EffectClaimsHeld(s: State, e: Id)
    requires e in s.effects
    ensures EffectClaims(s.effects[e]) <= OwnerPairs(s)
  {
    assert EffectClaims(s.effects[e]) <= ToolClaims(s.effects);
  }

  lemma EffectClaimed(s: Session, f: Effect, id: Id, owner: Owner)
    requires Indexed(s) && f.id in s.state.effects
    requires var e := s.state.effects[f.id]; f.operation == e.operation && f.result == e.result && f.call == e.call
    requires EffectClaims(f) == EffectClaims(s.state.effects[f.id]) + {(id, owner)}
    ensures Indexed(Session(s.state.(effects := s.state.effects[f.id := f]), Own(s.ix, id, owner)))
  {
    hide Lists, Maps, OwnerPairs, EffectClaims;
    EffectClaimsHeld(s.state, f.id);
    ListsAdd(s.ix.owners, OwnerPairs(s.state), id, owner);
    assert OwnerPairs(s.state) + EffectClaims(f) == OwnerPairs(s.state) + {(id, owner)};
    EffectReindexed(s, f, Own(s.ix, id, owner));
  }

  lemma EffectUnclaimed(s: Session, f: Effect)
    requires Indexed(s) && f.id in s.state.effects
    requires var e := s.state.effects[f.id]; f.operation == e.operation && f.result == e.result && f.call == e.call
    requires EffectClaims(f) == EffectClaims(s.state.effects[f.id])
    ensures Indexed(Session(s.state.(effects := s.state.effects[f.id := f]), s.ix))
  {
    hide OwnerPairs, EffectClaims, Indexed, Lists;
    EffectClaimsHeld(s.state, f.id);
    IndexParts(s);
    assert OwnerPairs(s.state) + EffectClaims(f) == OwnerPairs(s.state);
    EffectReindexed(s, f, s.ix);
  }

  lemma DispatchedIndexed(s: Session, c: Change)
    requires c.ToolDispatched? && Keyed(s.state) && Indexed(s) && IdsOwned(s.ix) && ApplyDispatched(s, c).Some?
    ensures Indexed(ApplyDispatched(s, c).value) && IdsOwned(ApplyDispatched(s, c).value.ix)
  {
    hide Indexed, IdsOwned, Own, Fresh, EffectClaims, DispatchAllowed, Dispatch;
    var e := s.state.effects[c.effectId];
    DispatchClaim(e, c.dispatchId, c.dispatchedAt);
    EffectClaimed(s, Dispatch(e, c.dispatchId, c.dispatchedAt), c.dispatchId, DispatchOwner);
    OwnFresh(s.ix, c.dispatchId, DispatchOwner);
  }

  lemma SameClaims(e: Effect, at: Time, detail: Option<Json>, settled: EffectStatus)
    ensures var f := Doubt(e, at, detail);
      && f.id == e.id && f.operation == e.operation && f.result == e.result && f.call == e.call
      && EffectClaims(f) == EffectClaims(e)
    ensures var f := Complete(e, settled, at, detail);
      && f.id == e.id && f.operation == e.operation && f.result == e.result && f.call == e.call
      && EffectClaims(f) == EffectClaims(e)
  {
  }

  lemma InDoubtIndexed(s: Session, c: Change)
    requires c.ToolInDoubt? && Keyed(s.state) && Indexed(s) && IdsOwned(s.ix) && ApplyInDoubt(s, c).Some?
    ensures Indexed(ApplyInDoubt(s, c).value) && IdsOwned(ApplyInDoubt(s, c).value.ix)
  {
    hide Indexed, IdsOwned, EffectClaims, Doubt;
    SameClaims(s.state.effects[c.effectId], c.noticedAt, c.detail, Abandoned);
    EffectUnclaimed(s, Doubt(s.state.effects[c.effectId], c.noticedAt, c.detail));
  }

  lemma RecoveryClaim(e: Effect, id: Id, at: Time)
    requires e.recovery.None?
    ensures var f := StartRecovery(e, id, at);
      && f.id == e.id && f.operation == e.operation && f.result == e.result && f.call == e.call
      && EffectClaims(f) == EffectClaims(e) + {(id, RecoveryOwner)}
  {
  }

  lemma SettlementClaim(
    e: Effect, settlement: Id, canceller: Option<Id>, settled: EffectStatus, at: Time, output: Option<Json>)
    requires e.settlement.None?
    ensures var f := Settle(e, settlement, canceller, settled, at, output);
      && f.id == e.id && f.operation == e.operation && f.result == e.result && f.call == e.call
      && EffectClaims(f) == EffectClaims(e) + {(settlement, SettlementOwner)}
  {
  }

  lemma RecoveryIndexed(s: Session, c: Change)
    requires c.ToolRecoveryStarted? && Keyed(s.state) && Indexed(s) && IdsOwned(s.ix) && ApplyRecovery(s, c).Some?
    ensures Indexed(ApplyRecovery(s, c).value) && IdsOwned(ApplyRecovery(s, c).value.ix)
  {
    hide Indexed, IdsOwned, Own, Fresh, EffectClaims, StartRecovery;
    var e := s.state.effects[c.effectId];
    RecoveryClaim(e, c.recoveryId, c.startedAt);
    EffectClaimed(s, StartRecovery(e, c.recoveryId, c.startedAt), c.recoveryId, RecoveryOwner);
    OwnFresh(s.ix, c.recoveryId, RecoveryOwner);
  }

  lemma ToolFinishedIndexed(s: Session, c: Change)
    requires c.ToolFinished? && Keyed(s.state) && Indexed(s) && IdsOwned(s.ix) && ApplyToolFinished(s, c).Some?
    ensures Indexed(ApplyToolFinished(s, c).value) && IdsOwned(ApplyToolFinished(s, c).value.ix)
  {
    hide Indexed, IdsOwned, EffectClaims, Complete;
    SameClaims(s.state.effects[c.effectId], c.finishedAt, c.output, c.settled);
    EffectUnclaimed(s, Complete(s.state.effects[c.effectId], c.settled, c.finishedAt, c.output));
  }

  lemma RecoveryIsOwned(s: Session, e: Id)
    requires Indexed(s) && e in s.state.effects && s.state.effects[e].recovery.Some?
    ensures RecoveryOwner in SetAt(s.ix.owners, s.state.effects[e].recovery.value)
  {
    EffectClaimsHeld(s.state, e);
    assert (s.state.effects[e].recovery.value, RecoveryOwner) in EffectClaims(s.state.effects[e]);
  }

  lemma ReconciledIndexed(s: Session, c: Change)
    requires c.ToolReconciled? && Keyed(s.state) && Indexed(s) && IdsOwned(s.ix) && ApplyReconciled(s, c).Some?
    requires LifeOk(s.state.effects[c.effectId])
    ensures Indexed(ApplyReconciled(s, c).value) && IdsOwned(ApplyReconciled(s, c).value.ix)
  {
    hide Indexed, Own, EffectClaims, Settle, Compatible;
    var e := s.state.effects[c.effectId];
    SettlementClaim(e, c.reconciliationId, e.cancelledBy, c.settled, c.resolvedAt, c.output);
    EffectClaimed(s, Settle(e, c.reconciliationId, e.cancelledBy, c.settled, c.resolvedAt, c.output),
      c.reconciliationId, SettlementOwner);
    RecoveryIsOwned(s, c.effectId);
    assert Compatible(SetAt(s.ix.owners, c.reconciliationId));
    RecoveryMaySettle(SetAt(s.ix.owners, c.reconciliationId));
    OwnKeepsIds(s.ix, c.reconciliationId, SettlementOwner);
  }

  lemma ResolvedShape(s: Session, c: Change)
    requires c.ToolResolved? && Keyed(s.state) && ApplyResolved(s, c).Some?
    ensures Fresh(s.ix, c.resolutionId)
    ensures c.effectId in s.state.effects && s.state.effects[c.effectId].id == c.effectId
    ensures s.state.effects[c.effectId].operation in s.state.operations
    ensures s.state.effects[c.effectId].status.InDoubt? || s.state.effects[c.effectId].status.RecoveryStarted?
    ensures var e := s.state.effects[c.effectId];
      ApplyResolved(s, c).value == Session(
        s.state.(effects := s.state.effects[c.effectId := Settle(
          e, c.resolutionId, Canceller(s.state.operations[e.operation], e), c.settled, c.resolvedAt, c.output)]),
        Own(s.ix, c.resolutionId, SettlementOwner))
  {
  }

  lemma SettlementIndexed(
    s: Session, e: Effect, settlement: Id, canceller: Option<Id>, settled: EffectStatus, at: Time, output: Option<Json>)
    requires Indexed(s) && IdsOwned(s.ix) && Fresh(s.ix, settlement)
    requires e.id in s.state.effects && s.state.effects[e.id] == e && e.settlement.None?
    ensures var f := Settle(e, settlement, canceller, settled, at, output);
      var t := Session(s.state.(effects := s.state.effects[e.id := f]), Own(s.ix, settlement, SettlementOwner));
      Indexed(t) && IdsOwned(t.ix)
  {
    hide Indexed, IdsOwned, Own, Fresh, EffectClaims, Settle;
    SettlementClaim(e, settlement, canceller, settled, at, output);
    EffectClaimed(s, Settle(e, settlement, canceller, settled, at, output), settlement, SettlementOwner);
    OwnFresh(s.ix, settlement, SettlementOwner);
  }

  lemma ResolvedIndexed(s: Session, c: Change)
    requires c.ToolResolved? && Keyed(s.state) && Indexed(s) && IdsOwned(s.ix) && ApplyResolved(s, c).Some?
    requires LifeOk(s.state.effects[c.effectId])
    ensures Indexed(ApplyResolved(s, c).value) && IdsOwned(ApplyResolved(s, c).value.ix)
  {
    hide Indexed, IdsOwned, Own, Fresh, Settle, ApplyResolved, Canceller;
    ResolvedShape(s, c);
    var e := s.state.effects[c.effectId];
    SettlementIndexed(s, e, c.resolutionId, Canceller(s.state.operations[e.operation], e), c.settled, c.resolvedAt,
      c.output);
  }

  lemma EffectStepIndexed(s: Session, c: Change, t: Session)
    requires IsEffectUpdate(c) && Keyed(s.state) && Indexed(s) && IdsOwned(s.ix) && Step(s, c) == Some(t)
    requires EffectsOk(s.state.nodes, s.state.operations, s.state.effects)
    ensures Indexed(t) && IdsOwned(t.ix)
  {
    hide *;
    StepCases(s, c, t);
    EffectUpdateIs(c);
    UpdatedEffect(s, c, t);
    match c
    case ToolDispatched(_, _, _) => DispatchedIndexed(s, c);
    case ToolInDoubt(_, _, _) => InDoubtIndexed(s, c);
    case ToolRecoveryStarted(_, _, _) => RecoveryIndexed(s, c);
    case ToolFinished(_, _, _, _) => ToolFinishedIndexed(s, c);
    case ToolReconciled(_, _, _, _, _) => ReconciledIndexed(s, c);
    case ToolResolved(_, _, _, _, _) => ResolvedIndexed(s, c);
  }

  // ----- a new tool effect -----

  lemma NewEffectClaims(c: Change)
    requires c.ToolPrepared?
    ensures EffectClaims(NewEffect(c))
      == {(c.effectId, EffectOwner), (c.invocation, InvocationOwner), (c.result, ResultOwner)}
  {
  }

  lemma ListsAddThree(
    m: Sets<Owner>, pairs: set<Claim>, a: Id, p: Owner, b: Id, q: Owner, c: Id, r: Owner)
    requires Lists(m, pairs)
    ensures Lists(AddTo(AddTo(AddTo(m, a, p), b, q), c, r), pairs + {(a, p), (b, q), (c, r)})
  {
    ListsAdd(m, pairs, a, p);
    ListsAdd(AddTo(m, a, p), pairs + {(a, p)}, b, q);
    ListsAdd(AddTo(AddTo(m, a, p), b, q), pairs + {(a, p)} + {(b, q)}, c, r);
    assert pairs + {(a, p)} + {(b, q)} + {(c, r)} == pairs + {(a, p), (b, q), (c, r)};
  }

  lemma OnlyResultOwner(owners: set<Owner>)
    requires owners - {ResultOwner} == {}
    ensures Compatible(owners + {ResultOwner})
  {
    assert owners <= (owners - {ResultOwner}) + {ResultOwner};
  }

  lemma PreparedIdsOwned(s: Session, c: Change)
    requires c.ToolPrepared? && IdsOwned(s.ix) && Fresh(s.ix, c.effectId) && Fresh(s.ix, c.invocation)
    requires ResultAvailable(s, c)
    requires c.effectId != c.invocation && c.effectId != c.result && c.invocation != c.result
    ensures IdsOwned(Own(Own(Own(s.ix, c.effectId, EffectOwner), c.invocation, InvocationOwner), c.result, ResultOwner))
  {
    OwnFresh(s.ix, c.effectId, EffectOwner);
    var first := Own(s.ix, c.effectId, EffectOwner);
    OwnFresh(first, c.invocation, InvocationOwner);
    var second := Own(first, c.invocation, InvocationOwner);
    assert SetAt(second.owners, c.result) == SetAt(s.ix.owners, c.result);
    if Fresh(s.ix, c.result) {
      FreshMayBeOwned(second, c.result, ResultOwner);
    } else {
      OnlyResultOwner(SetAt(second.owners, c.result));
    }
    OwnKeepsIds(second, c.result, ResultOwner);
  }

  lemma PreparedListed(s: Session, c: Change)
    requires c.ToolPrepared? && Indexed(s) && c.effectId !in s.state.effects
    ensures var t := s.state.(effects := s.state.effects[c.effectId := NewEffect(c)]);
      var ix := Own(Own(Own(s.ix, c.effectId, EffectOwner), c.invocation, InvocationOwner), c.result, ResultOwner);
      Indexed(Session(t, ix.(
        effectsByResult := AddTo(ix.effectsByResult, c.result, c.effectId),
        effectsByOperation := AddTo(ix.effectsByOperation, c.operation, c.effectId),
        callsByOperation := AddTo(ix.callsByOperation, c.operation, c.call))))
  {
    var f := NewEffect(c);
    ToolClaimsUpdate(s.state.effects, f);
    NewEffectClaims(c);
    MoreToolClaims(s.state, s.state.effects[c.effectId := f], EffectClaims(f));
    ListsAddThree(s.ix.owners, OwnerPairs(s.state),
      c.effectId, EffectOwner, c.invocation, InvocationOwner, c.result, ResultOwner);
    EffectPairsAdded(s.state.effects, f);
    ListsAdd(s.ix.effectsByResult, ResultPairs(s.state.effects), c.result, c.effectId);
    ListsAdd(s.ix.effectsByOperation, EffectPairs(s.state.effects), c.operation, c.effectId);
    ListsAdd(s.ix.callsByOperation, CallPairs(s.state.effects), c.operation, c.call);
  }

  lemma PreparedGuards(s: Session, c: Change)
    requires c.ToolPrepared? && ApplyPrepared(s, c).Some?
    ensures Fresh(s.ix, c.effectId) && Fresh(s.ix, c.invocation) && ResultAvailable(s, c)
    ensures c.effectId != c.invocation && c.effectId != c.result && c.invocation != c.result
    ensures var owned := Own(Own(s.ix, c.effectId, EffectOwner), c.invocation, InvocationOwner);
      var ix := Own(owned, c.result, ResultOwner);
      ApplyPrepared(s, c).value == Session(
        s.state.(effects := s.state.effects[c.effectId := NewEffect(c)]),
        ix.(
          effectsByResult := AddTo(ix.effectsByResult, c.result, c.effectId),
          effectsByOperation := AddTo(ix.effectsByOperation, c.operation, c.effectId),
          callsByOperation := AddTo(ix.callsByOperation, c.operation, c.call)))
  {
  }

  lemma PreparedIndexed(s: Session, c: Change)
    requires c.ToolPrepared? && Keyed(s.state) && Indexed(s) && IdsOwned(s.ix) && ApplyPrepared(s, c).Some?
    ensures Indexed(ApplyPrepared(s, c).value) && IdsOwned(ApplyPrepared(s, c).value.ix)
  {
    PreparedGuards(s, c);
    FreshIsUnowned(s, c.effectId);
    PreparedListed(s, c);
    PreparedIdsOwned(s, c);
  }

  // ----- runs -----

  lemma MoreRunClaims(s: State, operations: map<Id, Operation>, extra: set<Claim>)
    requires RunClaims(operations) == RunClaims(s.operations) + extra
    ensures OwnerPairs(s.(operations := operations)) == OwnerPairs(s) + extra
  {
  }

  lemma RunClaimsHeld(s: State, p: Id)
    requires p in s.operations
    ensures OperationClaims(s.operations[p]) <= OwnerPairs(s)
  {
    assert OperationClaims(s.operations[p]) <= RunClaims(s.operations);
  }

  lemma PromptPairsKept(operations: map<Id, Operation>, q: Operation)
    requires q.id in operations && q.prompt == operations[q.id].prompt
    ensures PromptPairs(operations[q.id := q]) == PromptPairs(operations)
  {
    var more := operations[q.id := q];
    assert more.Keys == operations.Keys;
    assert forall p :: p in operations ==> more[p].prompt == operations[p].prompt;
  }

  lemma RunReindexed(s: Session, q: Operation, owners: Sets<Owner>)
    requires Indexed(s) && q.id in s.state.operations && q.prompt == s.state.operations[q.id].prompt
    requires OperationClaims(s.state.operations[q.id]) <= OperationClaims(q)
    requires Lists(owners, OwnerPairs(s.state) + OperationClaims(q))
    ensures Indexed(Session(s.state.(operations := s.state.operations[q.id := q]), s.ix.(owners := owners)))
  {
    hide Lists, Maps, OperationClaims, OwnerPairs, PromptPairs;
    RunClaimsUpdate(s.state.operations, q);
    MoreRunClaims(s.state, s.state.operations[q.id := q], OperationClaims(q));
    PromptPairsKept(s.state.operations, q);
  }

  lemma RunClaimed(s: Session, q: Operation, id: Id, owner: Owner)
    requires Indexed(s) && q.id in s.state.operations && q.prompt == s.state.operations[q.id].prompt
    requires OperationClaims(q) == OperationClaims(s.state.operations[q.id]) + {(id, owner)}
    ensures Indexed(Session(s.state.(operations := s.state.operations[q.id := q]), Own(s.ix, id, owner)))
  {
    hide Lists, Maps, OwnerPairs, OperationClaims;
    RunClaimsHeld(s.state, q.id);
    ListsAdd(s.ix.owners, OwnerPairs(s.state), id, owner);
    assert OwnerPairs(s.state) + OperationClaims(q) == OwnerPairs(s.state) + {(id, owner)};
    RunReindexed(s, q, Own(s.ix, id, owner).owners);
  }

  lemma RunUnclaimed(s: Session, q: Operation)
    requires Indexed(s) && q.id in s.state.operations && q.prompt == s.state.operations[q.id].prompt
    requires OperationClaims(q) == OperationClaims(s.state.operations[q.id])
    ensures Indexed(Session(s.state.(operations := s.state.operations[q.id := q]), s.ix))
  {
    hide Lists, Maps, OwnerPairs, OperationClaims;
    RunClaimsHeld(s.state, q.id);
    assert OwnerPairs(s.state) + OperationClaims(q) == OwnerPairs(s.state);
    RunReindexed(s, q, s.ix.owners);
  }

  lemma AttemptClaim(p: Operation, attempt: Attempt)
    ensures OperationClaims(AddAttempt(p, attempt)) == OperationClaims(p) + {(attempt.id, AttemptOwner)}
  {
    var q := AddAttempt(p, attempt);
    var before := set i | 0 <= i < |p.attempts| :: (p.attempts[i].id, AttemptOwner);
    var after := set i | 0 <= i < |q.attempts| :: (q.attempts[i].id, AttemptOwner);
    assert after == before + {(attempt.id, AttemptOwner)} by {
      assert q.attempts[|p.attempts|] == attempt;
      forall c | c in before ensures c in after {
        var i :| 0 <= i < |p.attempts| && c == (p.attempts[i].id, AttemptOwner);
        assert c == (q.attempts[i].id, AttemptOwner);
      }
    }
  }

  lemma StepIndexed(s: Session, c: Change)
    requires c.RunStepSelected? && Keyed(s.state) && Indexed(s) && IdsOwned(s.ix) && ApplyStep(s, c).Some?
    ensures Indexed(ApplyStep(s, c).value) && IdsOwned(ApplyStep(s, c).value.ix)
  {
    RunUnclaimed(s, SelectStep(s.state.operations[c.operation], StepSelection(c.step, c.selectedAt, c.selection)));
  }

  lemma AttemptIndexed(s: Session, c: Change)
    requires c.RunAttempt? && Keyed(s.state) && Indexed(s) && IdsOwned(s.ix) && ApplyAttempt(s, c).Some?
    ensures Indexed(ApplyAttempt(s, c).value) && IdsOwned(ApplyAttempt(s, c).value.ix)
  {
    var attempt := Attempt(c.attemptId, c.step, c.attempt, c.task, c.startedAt);
    var p := s.state.operations[c.operation];
    AttemptClaim(p, attempt);
    RunClaimed(s, AddAttempt(p, attempt), c.attemptId, AttemptOwner);
    OwnFresh(s.ix, c.attemptId, AttemptOwner);
  }

  lemma CheckpointClaimsAdded(checkpoints: map<Id, Checkpoint>, id: Id, checkpoint: Checkpoint)
    ensures CheckpointClaims(checkpoints[id := checkpoint]) == CheckpointClaims(checkpoints) + {(id, CheckpointOwner)}
  {
  }

  lemma CheckpointListed(s: Session, id: Id, checkpoint: Checkpoint)
    requires Indexed(s)
    ensures Indexed(Session(
      s.state.(checkpoints := s.state.checkpoints[id := checkpoint]), Own(s.ix, id, CheckpointOwner)))
  {
    CheckpointClaimsAdded(s.state.checkpoints, id, checkpoint);
    ListsAdd(s.ix.owners, OwnerPairs(s.state), id, CheckpointOwner);
    assert OwnerPairs(s.state.(checkpoints := s.state.checkpoints[id := checkpoint]))
      == OwnerPairs(s.state) + {(id, CheckpointOwner)};
  }

  lemma CheckpointIndexed(s: Session, c: Change)
    requires c.RunCheckpoint? && Keyed(s.state) && Indexed(s) && IdsOwned(s.ix) && ApplyCheckpoint(s, c).Some?
    ensures Indexed(ApplyCheckpoint(s, c).value) && IdsOwned(ApplyCheckpoint(s, c).value.ix)
  {
    var q := AddCheckpoint(s.state.operations[c.operation], c.checkpointId);
    RunUnclaimed(s, q);
    CheckpointListed(
      Session(s.state.(operations := s.state.operations[c.operation := q]), s.ix),
      c.checkpointId, Checkpoint(c.checkpointId, c.operation, c.createdAt, c.data));
    OwnFresh(s.ix, c.checkpointId, CheckpointOwner);
  }

  lemma FinishedIndexed(s: Session, c: Change)
    requires c.RunFinished? && Keyed(s.state) && Indexed(s) && IdsOwned(s.ix) && ApplyFinished(s, c).Some?
    ensures Indexed(ApplyFinished(s, c).value) && IdsOwned(ApplyFinished(s, c).value.ix)
  {
    RunUnclaimed(s, Finish(s.state.operations[c.operation], c.runOutcome, c.finishedAt, c.detail));
  }

  lemma CancelledClaims(effects: map<Id, Effect>, p: Id, c: Change)
    requires c.RunCancel?
    ensures var after := map e | e in effects :: AfterCancel(effects[e], p, c);
      && ToolClaims(after) == ToolClaims(effects)
      && ResultPairs(after) == ResultPairs(effects)
      && EffectPairs(after) == EffectPairs(effects)
      && CallPairs(after) == CallPairs(effects)
  {
    var after := map e | e in effects :: AfterCancel(effects[e], p, c);
    forall e | e in effects
      ensures EffectClaims(after[e]) == EffectClaims(effects[e])
      ensures after[e].result == effects[e].result && after[e].operation == effects[e].operation
      ensures after[e].call == effects[e].call
    {
    }
    assert after.Keys == effects.Keys;
  }

  lemma CancelledListed(s: Session, effects: map<Id, Effect>)
    requires Indexed(s) && ToolClaims(effects) == ToolClaims(s.state.effects)
    requires ResultPairs(effects) == ResultPairs(s.state.effects)
    requires EffectPairs(effects) == EffectPairs(s.state.effects)
    requires CallPairs(effects) == CallPairs(s.state.effects)
    ensures Indexed(Session(s.state.(effects := effects), s.ix))
  {
    assert OwnerPairs(s.state.(effects := effects)) == OwnerPairs(s.state);
  }

  lemma CancelIndexed(s: Session, c: Change)
    requires c.RunCancel? && Keyed(s.state) && Indexed(s) && IdsOwned(s.ix) && ApplyCancel(s, c).Some?
    ensures Indexed(ApplyCancel(s, c).value) && IdsOwned(ApplyCancel(s, c).value.ix)
  {
    hide Lists, Maps, OwnerPairs, Own, IdsOwned, Fresh, AfterCancel, RunClaims;
    CancelledShape(s, c);
    var p := s.state.operations[c.operation];
    var q := RequestCancel(p, Cancellation(c.cancelId, c.requestedAt, c.reason));
    var effects := map e | e in s.state.effects :: AfterCancel(s.state.effects[e], c.operation, c);
    RunClaimed(s, q, c.cancelId, CancelOwner);
    CancelledClaims(s.state.effects, c.operation, c);
    CancelledListed(
      Session(s.state.(operations := s.state.operations[c.operation := q]), Own(s.ix, c.cancelId, CancelOwner)),
      effects);
    OwnFresh(s.ix, c.cancelId, CancelOwner);
  }

  // ----- a new run -----

  lemma PromptPairsAdded(operations: map<Id, Operation>, p: Operation)
    requires p.id !in operations
    ensures PromptPairs(operations[p.id := p])
      == PromptPairs(operations) + if p.prompt.Some? then {(p.prompt.value, p.id)} else {}
  {
    var more := operations[p.id := p];
    forall c ensures c in PromptPairs(more)
      <==> c in PromptPairs(operations) + if p.prompt.Some? then {(p.prompt.value, p.id)} else {}
    {
      assert c in PromptPairs(more) <==> c.1 in more && more[c.1].prompt == Some(c.0);
      assert c in PromptPairs(operations) <==> c.1 in operations && operations[c.1].prompt == Some(c.0);
    }
  }

  lemma RunListed(s: Session, p: Operation, ix: Indexes)
    requires Indexed(s) && p.id !in s.state.operations
    requires ix == s.ix.(owners := ix.owners, operationByPrompt := ix.operationByPrompt)
    requires Lists(ix.owners, OwnerPairs(s.state) + OperationClaims(p))
    requires Maps(ix.operationByPrompt,
      PromptPairs(s.state.operations) + if p.prompt.Some? then {(p.prompt.value, p.id)} else {})
    ensures Indexed(Session(s.state.(operations := s.state.operations[p.id := p]), ix))
  {
    RunClaimsUpdate(s.state.operations, p);
    MoreRunClaims(s.state, s.state.operations[p.id := p], OperationClaims(p));
    PromptPairsAdded(s.state.operations, p);
  }

  lemma NewRunClaims(c: Change)
    requires c.RunAccepted?
    ensures OperationClaims(NewOperation(c)) == {(c.operation, OperationOwner)} + Maybe(c.prompt, PromptOwner)
  {
  }

  /** A prompt that may be reserved is not reserved by any operation yet. */
  lemma PromptNotTaken(s: Session, prompt: Id)
    requires PromptAvailable(s, Some(prompt))
    requires Lists(s.ix.owners, OwnerPairs(s.state))
    requires Maps(s.ix.entryByTarget, TargetPairs(s.state.queue))
    requires Maps(s.ix.operationByPrompt, PromptPairs(s.state.operations))
    requires QueuedPromptsOpen(None, s.state.operations, s.state.queue)
    ensures prompt !in s.ix.operationByPrompt
  {
    hide Lists, Maps, OwnerPairs, Fresh;
    if EntryFor(s, prompt).None? {
      NoPromptAt(s, prompt);
    } else {
      EntryIsTarget(s, prompt);
    }
    MapsDomain(s.ix.operationByPrompt, PromptPairs(s.state.operations));
  }

  lemma EntryIsTarget(s: Session, node: Id)
    requires Maps(s.ix.entryByTarget, TargetPairs(s.state.queue)) && node in s.ix.entryByTarget
    ensures s.ix.entryByTarget[node] in s.state.queue && s.state.queue[s.ix.entryByTarget[node]].target == node
  {
    assert (node, s.ix.entryByTarget[node]) in TargetPairs(s.state.queue);
  }

  lemma TargetIsOwned(s: Session, node: Id)
    requires Indexed(s) && EntryFor(s, node).Some?
    ensures TargetOwner in SetAt(s.ix.owners, node)
  {
    EntryIsTarget(s, node);
    var q := s.ix.entryByTarget[node];
    assert (node, TargetOwner) in EntryClaims(s.state.queue[q]);
    assert (node, TargetOwner) in QueueClaims(s.state.queue);
    assert (node, TargetOwner) in OwnerPairs(s.state);
  }

  lemma PromptMayBeOwned(s: Session, prompt: Id)
    requires Indexed(s) && IdsOwned(s.ix) && PromptAvailable(s, Some(prompt))
    ensures Compatible(SetAt(s.ix.owners, prompt) + {PromptOwner})
  {
    if EntryFor(s, prompt).None? {
      FreshMayBeOwned(s.ix, prompt, PromptOwner);
    } else {
      TargetIsOwned(s, prompt);
      assert Compatible(SetAt(s.ix.owners, prompt));
      TargetMayBecomePrompt(SetAt(s.ix.owners, prompt));
    }
  }

  function AcceptedIndexes(ix: Indexes, c: Change): Indexes
    requires c.RunAccepted?
  {
    var owned := Own(ix, c.operation, OperationOwner);
    if c.prompt.None? then owned
    else Own(owned, c.prompt.value, PromptOwner).(
      operationByPrompt := owned.operationByPrompt[c.prompt.value := c.operation])
  }

  lemma AcceptedGuards(s: Session, c: Change)
    requires c.RunAccepted? && ApplyAccepted(s, c).Some?
    ensures Fresh(s.ix, c.operation) && c.prompt != Some(c.operation) && PromptAvailable(s, c.prompt)
    ensures s.state.branch.open.None?
    ensures ApplyAccepted(s, c).value.state == s.state.(
      operations := s.state.operations[c.operation := NewOperation(c)],
      branch := s.state.branch.(open := Some(c.operation)))
    ensures ApplyAccepted(s, c).value.ix == AcceptedIndexes(s.ix, c)
  {
  }

  lemma AcceptedIdsOwned(s: Session, c: Change)
    requires c.RunAccepted? && Indexed(s) && IdsOwned(s.ix) && Fresh(s.ix, c.operation)
    requires c.prompt != Some(c.operation) && PromptAvailable(s, c.prompt)
    ensures IdsOwned(AcceptedIndexes(s.ix, c))
  {
    hide Indexed, PromptAvailable, Fresh;
    FreshMayBeOwned(s.ix, c.operation, OperationOwner);
    OwnKeepsIds(s.ix, c.operation, OperationOwner);
    if c.prompt.Some? {
      PromptMayBeOwned(s, c.prompt.value);
      OwnKeepsIds(Own(s.ix, c.operation, OperationOwner), c.prompt.value, PromptOwner);
    }
  }

  lemma AcceptedListed(s: Session, c: Change)
    requires c.RunAccepted? && Indexed(s) && c.operation !in s.state.operations
    requires c.prompt.Some? ==> c.prompt.value !in s.ix.operationByPrompt
    ensures Indexed(Session(
      s.state.(operations := s.state.operations[c.operation := NewOperation(c)]), AcceptedIndexes(s.ix, c)))
  {
    var p, ix := NewOperation(c), AcceptedIndexes(s.ix, c);
    NewRunClaims(c);
    ListsAdd(s.ix.owners, OwnerPairs(s.state), c.operation, OperationOwner);
    if c.prompt.Some? {
      var owned := OwnerPairs(s.state) + {(c.operation, OperationOwner)};
      ListsAdd(AddTo(s.ix.owners, c.operation, OperationOwner), owned, c.prompt.value, PromptOwner);
      assert owned + {(c.prompt.value, PromptOwner)} == OwnerPairs(s.state) + OperationClaims(p);
      MapsAdd(s.ix.operationByPrompt, PromptPairs(s.state.operations), c.prompt.value, c.operation);
    } else {
      assert OperationClaims(p) == {(c.operation, OperationOwner)};
      assert PromptPairs(s.state.operations) + {} == PromptPairs(s.state.operations);
    }
    RunListed(s, p, ix);
  }

  lemma AcceptedIndexed(s: Session, c: Change)
    requires c.RunAccepted? && Keyed(s.state) && Indexed(s) && IdsOwned(s.ix) && ApplyAccepted(s, c).Some?
    requires QueuedPromptsOpen(s.state.branch.open, s.state.operations, s.state.queue)
    ensures Indexed(ApplyAccepted(s, c).value) && IdsOwned(ApplyAccepted(s, c).value.ix)
  {
    AcceptedGuards(s, c);
    FreshIsUnowned(s, c.operation);
    if c.prompt.Some? {
      PromptNotTaken(s, c.prompt.value);
    }
    AcceptedListed(s, c);
    AcceptedIdsOwned(s, c);
  }

  // ----- nodes -----

  lemma NodeClaimed(s: State, node: Node)
    ensures OwnerPairs(s.(nodes := s.nodes[node.id := node])) == OwnerPairs(s) + {(node.id, NodeOwner)}
  {
    assert NodeClaims(s.nodes[node.id := node]) == NodeClaims(s.nodes) + {(node.id, NodeOwner)};
  }

  lemma NodeListed(s: Session, node: Node)
    requires Indexed(s)
    ensures Indexed(Session(s.state.(nodes := s.state.nodes[node.id := node]), Own(s.ix, node.id, NodeOwner)))
  {
    ListsAdd(s.ix.owners, OwnerPairs(s.state), node.id, NodeOwner);
    NodeClaimed(s.state, node);
  }

  lemma ResultIsOwned(s: Session, node: Id)
    requires Indexed(s) && EffectsFor(s, node) != {}
    ensures ResultOwner in SetAt(s.ix.owners, node)
  {
    var e :| e in EffectsFor(s, node);
    assert (node, e) in ResultPairs(s.state.effects);
    EffectClaimsHeld(s.state, e);
    assert (node, ResultOwner) in EffectClaims(s.state.effects[e]);
  }

  lemma PromptIsOwned(s: Session, node: Id)
    requires Indexed(s) && PromptOf(s, node).Some?
    ensures PromptOwner in SetAt(s.ix.owners, node)
  {
    var p := s.ix.operationByPrompt[node];
    assert (node, p) in PromptPairs(s.state.operations);
    RunClaimsHeld(s.state, p);
    assert (node, PromptOwner) in OperationClaims(s.state.operations[p]);
  }

  lemma NodeMayBeOwned(s: Session, node: Node)
    requires Indexed(s) && IdsOwned(s.ix) && NodeAllowed(s, node)
    ensures Compatible(SetAt(s.ix.owners, node.id) + {NodeOwner})
  {
    assert Compatible(SetAt(s.ix.owners, node.id));
    if EntryFor(s, node.id).Some? {
      TargetIsOwned(s, node.id);
      ReservedMayBecomeNode(SetAt(s.ix.owners, node.id));
    } else if EffectsFor(s, node.id) != {} {
      ResultIsOwned(s, node.id);
      ReservedMayBecomeNode(SetAt(s.ix.owners, node.id));
    } else if PromptOf(s, node.id).Some? {
      PromptIsOwned(s, node.id);
      ReservedMayBecomeNode(SetAt(s.ix.owners, node.id));
    } else {
      FreshMayBeOwned(s.ix, node.id, NodeOwner);
    }
  }

  lemma NodeIndexed(s: Session, node: Node)
    requires Indexed(s) && IdsOwned(s.ix) && ApplyNode(s, node).Some?
    ensures Indexed(ApplyNode(s, node).value) && IdsOwned(ApplyNode(s, node).value.ix)
  {
    NodeListed(s, node);
    NodeMayBeOwned(s, node);
    OwnKeepsIds(s.ix, node.id, NodeOwner);
  }

  // ----- the queue -----

  lemma MoreQueueClaims(s: State, queue: map<Id, QueueEntry>, extra: set<Claim>)
    requires QueueClaims(queue) == QueueClaims(s.queue) + extra
    ensures OwnerPairs(s.(queue := queue)) == OwnerPairs(s) + extra
  {
  }

  lemma QueuePairsAdded(queue: map<Id, QueueEntry>, q: QueueEntry)
    requires q.id !in queue && q.operation.None?
    ensures TargetPairs(queue[q.id := q]) == TargetPairs(queue) + {(q.target, q.id)}
    ensures EntryPairs(queue[q.id := q]) == EntryPairs(queue)
  {
    var more := queue[q.id := q];
    forall c ensures c in TargetPairs(more) <==> c in TargetPairs(queue) + {(q.target, q.id)} {
      assert c in TargetPairs(more) <==> c.1 in more && more[c.1].target == c.0;
      assert c in TargetPairs(queue) <==> c.1 in queue && queue[c.1].target == c.0;
    }
    forall c ensures c in EntryPairs(more) <==> c in EntryPairs(queue) {
      assert c in EntryPairs(more) <==> c.1 in more && more[c.1].operation == Some(c.0);
      assert c in EntryPairs(queue) <==> c.1 in queue && queue[c.1].operation == Some(c.0);
    }
  }

  lemma QueuePairsUpdated(queue: map<Id, QueueEntry>, q: QueueEntry)
    requires q.id in queue && q.target == queue[q.id].target
    requires queue[q.id].operation.Some? ==> q.operation == queue[q.id].operation
    ensures TargetPairs(queue[q.id := q]) == TargetPairs(queue)
    ensures EntryPairs(queue[q.id := q])
      == EntryPairs(queue) + if q.operation.Some? then {(q.operation.value, q.id)} else {}
  {
    var more := queue[q.id := q];
    forall c ensures c in TargetPairs(more) <==> c in TargetPairs(queue) {
      assert c in TargetPairs(more) <==> c.1 in more && more[c.1].target == c.0;
      assert c in TargetPairs(queue) <==> c.1 in queue && queue[c.1].target == c.0;
    }
    forall c ensures c in EntryPairs(more)
      <==> c in EntryPairs(queue) + if q.operation.Some? then {(q.operation.value, q.id)} else {}
    {
      assert c in EntryPairs(more) <==> c.1 in more && more[c.1].operation == Some(c.0);
      assert c in EntryPairs(queue) <==> c.1 in queue && queue[c.1].operation == Some(c.0);
    }
  }

  lemma NoTargetAt(s: Session, target: Id)
    requires Indexed(s) && Fresh(s.ix, target)
    ensures target !in s.ix.entryByTarget
  {
    if target in s.ix.entryByTarget {
      EntryIsTarget(s, target);
      TargetIsOwned(s, target);
    }
  }

  lemma EntryClaimsAre(q: QueueEntry)
    ensures EntryClaims(q) == {(q.id, EntryOwner), (q.target, TargetOwner)}
  {
  }

  lemma EntryOwnersListed(s: State, owners: Sets<Owner>, q: QueueEntry)
    requires Lists(owners, OwnerPairs(s)) && q.id !in s.queue
    ensures Lists(AddTo(AddTo(owners, q.id, EntryOwner), q.target, TargetOwner),
      OwnerPairs(s.(queue := s.queue[q.id := q])))
  {
    hide Lists, OwnerPairs, EntryClaims, QueueClaims, AddTo;
    QueueClaimsUpdate(s.queue, q);
    MoreQueueClaims(s, s.queue[q.id := q], EntryClaims(q));
    ListsAdd(owners, OwnerPairs(s), q.id, EntryOwner);
    EntryClaimsAre(q);
    var owned := OwnerPairs(s) + {(q.id, EntryOwner)};
    ListsAdd(AddTo(owners, q.id, EntryOwner), owned, q.target, TargetOwner);
    assert owned + {(q.target, TargetOwner)} == OwnerPairs(s) + EntryClaims(q);
  }

  lemma EntryListed(s: Session, q: QueueEntry)
    requires Indexed(s) && q.id !in s.state.queue && q.operation.None? && q.target !in s.ix.entryByTarget
    ensures Indexed(Session(
      s.state.(queue := s.state.queue[q.id := q]),
      Own(Own(s.ix, q.id, EntryOwner), q.target, TargetOwner).(
        entryByTarget := s.ix.entryByTarget[q.target := q.id])))
  {
    EntryOwnersListed(s.state, s.ix.owners, q);
    QueuePairsAdded(s.state.queue, q);
    MapsAdd(s.ix.entryByTarget, TargetPairs(s.state.queue), q.target, q.id);
  }

  lemma QueueAddedIndexed(s: Session, c: Change)
    requires c.QueueAdded? && Keyed(s.state) && Indexed(s) && IdsOwned(s.ix) && ApplyQueueAdded(s, c).Some?
    ensures Indexed(ApplyQueueAdded(s, c).value) && IdsOwned(ApplyQueueAdded(s, c).value.ix)
  {
    FreshIsUnowned(s, c.entryId);
    NoTargetAt(s, c.target);
    EntryListed(s, QueueEntry(c.entryId, c.target, c.kind, c.addedAt, c.message, Queued, None, None, None));
    OwnFresh(s.ix, c.entryId, EntryOwner);
    OwnFresh(Own(s.ix, c.entryId, EntryOwner), c.target, TargetOwner);
  }

  lemma EntryClaimsKept(s: State, q: QueueEntry)
    requires q.id in s.queue && q.target == s.queue[q.id].target && s.queue[q.id].id == q.id
    ensures OwnerPairs(s.(queue := s.queue[q.id := q])) == OwnerPairs(s)
  {
    assert EntryClaims(q) == EntryClaims(s.queue[q.id]);
    assert EntryClaims(q) <= QueueClaims(s.queue);
    QueueClaimsUpdate(s.queue, q);
    MoreQueueClaims(s, s.queue[q.id := q], EntryClaims(q));
    assert EntryClaims(q) <= OwnerPairs(s);
  }

  lemma EntryReindexed(s: Session, q: QueueEntry, entries: Sets<Id>)
    requires Indexed(s) && q.id in s.state.queue && q.target == s.state.queue[q.id].target
    requires s.state.queue[q.id].operation.Some? ==> q.operation == s.state.queue[q.id].operation
    requires s.state.queue[q.id].id == q.id
    requires Lists(entries, EntryPairs(s.state.queue) + if q.operation.Some? then {(q.operation.value, q.id)} else {})
    ensures Indexed(Session(s.state.(queue := s.state.queue[q.id := q]), s.ix.(entriesByOperation := entries)))
  {
    EntryClaimsKept(s.state, q);
    QueuePairsUpdated(s.state.queue, q);
  }

  lemma QueueClaimedIndexed(s: Session, c: Change)
    requires c.QueueClaimed? && Keyed(s.state) && Indexed(s) && IdsOwned(s.ix) && ApplyQueueClaimed(s, c).Some?
    requires s.state.queue[c.entryId].operation.None?
    ensures Indexed(ApplyQueueClaimed(s, c).value) && IdsOwned(ApplyQueueClaimed(s, c).value.ix)
  {
    hide Lists, Maps, OwnerPairs, AddTo, EntryPairs, ClaimAllowed;
    ListsAdd(s.ix.entriesByOperation, EntryPairs(s.state.queue), c.operation, c.entryId);
    EntryReindexed(s,
      s.state.queue[c.entryId].(status := Claimed, operation := Some(c.operation), claimedAt := Some(c.claimedAt)),
      AddTo(s.ix.entriesByOperation, c.operation, c.entryId));
  }

  lemma EntryPairHeld(queue: map<Id, QueueEntry>, q: Id)
    requires q in queue
    ensures EntryPairs(queue) + (if queue[q].operation.Some? then {(queue[q].operation.value, q)} else {})
      == EntryPairs(queue)
  {
  }

  lemma QueueFinishedIndexed(s: Session, c: Change)
    requires c.QueueFinished? && Keyed(s.state) && Indexed(s) && IdsOwned(s.ix) && ApplyQueueFinished(s, c).Some?
    ensures Indexed(ApplyQueueFinished(s, c).value) && IdsOwned(ApplyQueueFinished(s, c).value.ix)
  {
    EntryPairHeld(s.state.queue, c.entryId);
    EntryReindexed(s,
      s.state.queue[c.entryId].(status := Ended(c.queueOutcome), finishedAt := Some(c.finishedAt)),
      s.ix.entriesByOperation);
  }

  // ----- all changes -----

  lemma MetadataIndexed(s: Session, t: State)
    requires Indexed(s) && t == s.state.(branch := t.branch, name := t.name, labels := t.labels)
    ensures Indexed(Session(t, s.ix))
  {
    assert OwnerPairs(t) == OwnerPairs(s.state);
  }

  lemma HeadIndexed(s: Session, c: Change)
    requires c.MoveHead? && Indexed(s) && ApplyHead(s, c.head).Some?
    ensures Indexed(ApplyHead(s, c.head).value) && ApplyHead(s, c.head).value.ix == s.ix
  {
    MetadataIndexed(s, ApplyHead(s, c.head).value.state);
  }

  lemma LabelIndexed(s: Session, c: Change)
    requires c.LabelNode? && Indexed(s) && ApplyLabel(s, c.labelled, c.title).Some?
    ensures Indexed(ApplyLabel(s, c.labelled, c.title).value) && ApplyLabel(s, c.labelled, c.title).value.ix == s.ix
  {
    hide Indexed;
    MetadataIndexed(s, ApplyLabel(s, c.labelled, c.title).value.state);
  }

  /** One accepted change keeps the indexes equal to a rebuild, and every id singly owned. */
  lemma RunChangeKeepsIndexes(s: Session, c: Change, t: Session)
    requires Inv(s) && WellFormedChange(c) && Step(s, c) == Some(t)
    requires c.RunAccepted? || c.RunStepSelected? || c.RunAttempt? || c.RunCancel? || c.RunCheckpoint? || c.RunFinished?
    ensures Indexed(t) && IdsOwned(t.ix)
  {
    hide *;
    InvParts(s);
    StepCases(s, c, t);
    match c
    case RunAccepted(_, _, _, _, _, _) => AcceptedIndexed(s, c);
    case RunStepSelected(_, _, _, _) => StepIndexed(s, c);
    case RunAttempt(_, _, _, _, _, _) => AttemptIndexed(s, c);
    case RunCancel(_, _, _, _) => CancelIndexed(s, c);
    case RunCheckpoint(_, _, _, _) => CheckpointIndexed(s, c);
    case RunFinished(_, _, _, _) => FinishedIndexed(s, c);
  }

  lemma StepKeepsIndexes(s: Session, c: Change, t: Session)
    requires Inv(s) && WellFormedChange(c) && Step(s, c) == Some(t)
    ensures Indexed(t) && IdsOwned(t.ix)
  {
    hide *;
    InvParts(s);
    StepCases(s, c, t);
    EffectUpdateIs(c);
    match c
    case AddNode(_) => NodeIndexed(s, c.node);
    case MoveHead(_) => HeadIndexed(s, c);
    case RenameSession(_) => MetadataIndexed(s, t.state);
    case LabelNode(_, _) => LabelIndexed(s, c);
    case RunAccepted(_, _, _, _, _, _) => RunChangeKeepsIndexes(s, c, t);
    case RunStepSelected(_, _, _, _) => RunChangeKeepsIndexes(s, c, t);
    case RunAttempt(_, _, _, _, _, _) => RunChangeKeepsIndexes(s, c, t);
    case RunCancel(_, _, _, _) => RunChangeKeepsIndexes(s, c, t);
    case RunCheckpoint(_, _, _, _) => RunChangeKeepsIndexes(s, c, t);
    case RunFinished(_, _, _, _) => RunChangeKeepsIndexes(s, c, t);
    case QueueAdded(_, _, _, _, _) => QueueAddedIndexed(s, c);
    case QueueClaimed(_, _, _) =>
      UpdatedEntry(s, c, t);
      QueueClaimedIndexed(s, c);
    case QueueFinished(_, _, _) => QueueFinishedIndexed(s, c);
    case ToolPrepared(_, _, _, _, _, _, _, _, _, _, _, _, _, _) => PreparedIndexed(s, c);
    case _ => EffectStepIndexed(s, c, t);
  }

  lemma InvWhole(s: Session)
    requires StateOk(s.state) && Indexed(s) && IdsOwned(s.ix)
    ensures Inv(s)
  {
  }

  /** Every accepted change keeps the invariant. */
  lemma StepKeepsInv(s: Session, c: Change, t: Session)
    requires Inv(s) && WellFormedChange(c) && Step(s, c) == Some(t)
    ensures Inv(t)
  {
    hide *;
    StepKeepsIndexes(s, c, t);
    StepKeepsState(s, c, t);
    InvWhole(t);
  }
}
