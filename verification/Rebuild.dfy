/** Building the indexes of a state from nothing. */
module Rebuild {
  import opened Options
  import opened SessionTypes
  import opened Reducer
  import opened Invariant

  // ----- a part of the indexes -----

  ghost predicate SetsWithin<T(!new)>(a: Sets<T>, b: Sets<T>) {
    forall k :: k in a ==> a[k] != {} && a[k] <= SetAt(b, k)
  }

  ghost predicate MapWithin(a: map<Id, Id>, b: map<Id, Id>) {
    forall k :: k in a ==> k in b && a[k] == b[k]
  }

  ghost predicate Within(a: Indexes, b: Indexes) {
    && SetsWithin(a.owners, b.owners)
    && MapWithin(a.entryByTarget, b.entryByTarget) && MapWithin(a.operationByPrompt, b.operationByPrompt)
    && SetsWithin(a.effectsByResult, b.effectsByResult) && SetsWithin(a.entriesByOperation, b.entriesByOperation)
    && SetsWithin(a.effectsByOperation, b.effectsByOperation) && SetsWithin(a.callsByOperation, b.callsByOperation)
  }

  ghost predicate Covers(owners: Sets<Owner>, claims: set<Claim>) {
    forall c :: c in claims ==> c.1 in SetAt(owners, c.0)
  }

  ghost predicate RunCovered(ix: Indexes, p: Operation) {
    && Covers(ix.owners, OperationClaims(p))
    && (p.prompt.Some? ==> p.prompt.value in ix.operationByPrompt && ix.operationByPrompt[p.prompt.value] == p.id)
  }

  ghost predicate EntryCovered(ix: Indexes, q: QueueEntry) {
    && Covers(ix.owners, EntryClaims(q))
    && q.target in ix.entryByTarget && ix.entryByTarget[q.target] == q.id
    && (q.operation.Some? ==> q.id in SetAt(ix.entriesByOperation, q.operation.value))
  }

  ghost predicate EffectCovered(ix: Indexes, e: Effect) {
    && Covers(ix.owners, EffectClaims(e))
    && e.id in SetAt(ix.effectsByResult, e.result)
    && e.id in SetAt(ix.effectsByOperation, e.operation)
    && e.call in SetAt(ix.callsByOperation, e.operation)
  }

  lemma SetsWithinOn<T(!new)>(a: Sets<T>, b: Sets<T>, c: Sets<T>)
    requires SetsWithin(a, b) && SetsWithin(b, c)
    ensures SetsWithin(a, c)
  {
  }

  lemma WithinOn(a: Indexes, b: Indexes, c: Indexes)
    requires Within(a, b) && Within(b, c)
    ensures Within(a, c)
  {
    SetsWithinOn(a.owners, b.owners, c.owners);
    SetsWithinOn(a.effectsByResult, b.effectsByResult, c.effectsByResult);
    SetsWithinOn(a.entriesByOperation, b.entriesByOperation, c.entriesByOperation);
    SetsWithinOn(a.effectsByOperation, b.effectsByOperation, c.effectsByOperation);
    SetsWithinOn(a.callsByOperation, b.callsByOperation, c.callsByOperation);
  }

  lemma CoversOn(a: Sets<Owner>, b: Sets<Owner>, claims: set<Claim>)
    requires SetsWithin(a, b) && Covers(a, claims)
    ensures Covers(b, claims)
  {
    forall c | c in claims ensures c.1 in SetAt(b, c.0) {
      assert c.1 in SetAt(a, c.0);
    }
  }

  lemma MemberOn<T(!new)>(a: Sets<T>, b: Sets<T>, k: string, v: T)
    requires SetsWithin(a, b) && v in SetAt(a, k)
    ensures v in SetAt(b, k)
  {
  }

  lemma RunCoveredOn(a: Indexes, b: Indexes, p: Operation)
    requires Within(a, b) && RunCovered(a, p)
    ensures RunCovered(b, p)
  {
    CoversOn(a.owners, b.owners, OperationClaims(p));
  }

  lemma EntryCoveredOn(a: Indexes, b: Indexes, q: QueueEntry)
    requires Within(a, b) && EntryCovered(a, q)
    ensures EntryCovered(b, q)
  {
    CoversOn(a.owners, b.owners, EntryClaims(q));
    if q.operation.Some? {
      MemberOn(a.entriesByOperation, b.entriesByOperation, q.operation.value, q.id);
    }
  }

  lemma EffectCoveredOn(a: Indexes, b: Indexes, e: Effect)
    requires Within(a, b) && EffectCovered(a, e)
    ensures EffectCovered(b, e)
  {
    CoversOn(a.owners, b.owners, EffectClaims(e));
    MemberOn(a.effectsByResult, b.effectsByResult, e.result, e.id);
    MemberOn(a.effectsByOperation, b.effectsByOperation, e.operation, e.id);
    MemberOn(a.callsByOperation, b.callsByOperation, e.operation, e.call);
  }

  lemma AddedWithin<T(!new)>(a: Sets<T>, b: Sets<T>, k: string, v: T)
    requires SetsWithin(a, b) && v in SetAt(b, k)
    ensures SetsWithin(AddTo(a, k, v), b) && SetsWithin(a, AddTo(a, k, v)) && v in SetAt(AddTo(a, k, v), k)
  {
  }

  lemma WithinItself(a: Indexes, b: Indexes)
    requires Within(a, b)
    ensures Within(a, a)
  {
  }

  // ----- adding one claim, one record -----

  method AddClaim(ix: Indexes, claim: Claim, ghost all: Indexes) returns (next: Indexes)
    requires Within(ix, all) && claim.1 in SetAt(all.owners, claim.0)
    ensures next == ix.(owners := next.owners)
    ensures Within(ix, next) && Within(next, all) && claim.1 in SetAt(next.owners, claim.0)
  {
    AddedWithin(ix.owners, all.owners, claim.0, claim.1);
    WithinItself(ix, all);
    next := Own(ix, claim.0, claim.1);
  }

  ghost predicate CoversEach(owners: Sets<Owner>, claims: seq<Claim>) {
    forall i :: 0 <= i < |claims| ==> claims[i].1 in SetAt(owners, claims[i].0)
  }

  lemma CoversEachOn(a: Indexes, b: Indexes, claims: seq<Claim>)
    requires Within(a, b) && CoversEach(a.owners, claims)
    ensures CoversEach(b.owners, claims)
  {
    forall i | 0 <= i < |claims| ensures claims[i].1 in SetAt(b.owners, claims[i].0) {
      MemberOn(a.owners, b.owners, claims[i].0, claims[i].1);
    }
  }

  lemma CoversEachMore(owners: Sets<Owner>, claims: seq<Claim>, k: nat)
    requires k < |claims| && CoversEach(owners, claims[..k]) && claims[k].1 in SetAt(owners, claims[k].0)
    ensures CoversEach(owners, claims[..k + 1])
  {
    assert forall i :: 0 <= i < k ==> claims[..k + 1][i] == claims[..k][i];
  }

  lemma CoveredInAll(owners: Sets<Owner>, claims: seq<Claim>)
    requires CoversEach(owners, claims)
    ensures forall i :: 0 <= i < |claims| ==> claims[i].1 in SetAt(owners, claims[i].0)
  {
  }

  method AddClaims(ix: Indexes, claims: seq<Claim>, ghost all: Indexes) returns (next: Indexes)
    requires Within(ix, all) && CoversEach(all.owners, claims)
    ensures next == ix.(owners := next.owners)
    ensures Within(ix, next) && Within(next, all) && CoversEach(next.owners, claims)
  {
    WithinItself(ix, all);
    CoveredInAll(all.owners, claims);
    next := ix;
    assert CoversEach(next.owners, claims[..0]);
    hide Within, SetAt, CoversEach;
    for k := 0 to |claims|
      invariant next == ix.(owners := next.owners)
      invariant Within(ix, next) && Within(next, all) && CoversEach(next.owners, claims[..k])
    {
      ghost var before := next;
      next := AddClaim(next, claims[k], all);
      WithinOn(ix, before, next);
      CoversEachOn(before, next, claims[..k]);
      CoversEachMore(next.owners, claims, k);
    }
    assert claims[..|claims|] == claims;
  }

  function ClaimIfSome(id: Option<Id>, owner: Owner): seq<Claim> {
    if id.Some? then [(id.value, owner)] else []
  }

  function ClaimsFor(ids: seq<Id>, owner: Owner): (claims: seq<Claim>)
    ensures |claims| == |ids| && forall i :: 0 <= i < |ids| ==> claims[i] == (ids[i], owner)
  {
    seq(|ids|, i requires 0 <= i < |ids| => (ids[i], owner))
  }

  function AttemptIds(attempts: seq<Attempt>): (ids: seq<Id>)
    ensures |ids| == |attempts| && forall i :: 0 <= i < |ids| ==> ids[i] == attempts[i].id
  {
    seq(|attempts|, i requires 0 <= i < |attempts| => attempts[i].id)
  }

  function RunClaimList(p: Operation): seq<Claim> {
    [(p.id, OperationOwner)] + ClaimIfSome(p.prompt, PromptOwner) + ClaimsFor(AttemptIds(p.attempts), AttemptOwner)
    + ClaimIfSome(if p.cancel.Some? then Some(p.cancel.value.id) else None, CancelOwner)
  }

  function EffectClaimList(e: Effect): seq<Claim> {
    [(e.id, EffectOwner), (e.invocation, InvocationOwner), (e.result, ResultOwner)]
    + ClaimsFor(e.dispatches, DispatchOwner) + ClaimIfSome(e.recovery, RecoveryOwner)
    + ClaimIfSome(e.settlement, SettlementOwner)
  }

  lemma RunClaimsListed(p: Operation)
    ensures forall c :: c in RunClaimList(p) <==> c in OperationClaims(p)
  {
    var attempts := set i | 0 <= i < |p.attempts| :: (p.attempts[i].id, AttemptOwner);
    var listed := ClaimsFor(AttemptIds(p.attempts), AttemptOwner);
    assert forall i :: 0 <= i < |p.attempts| ==> listed[i] in attempts;
    assert forall c :: c in listed <==> c in attempts;
  }

  lemma EffectClaimsListed(e: Effect)
    ensures forall c :: c in EffectClaimList(e) <==> c in EffectClaims(e)
  {
    var dispatches := set i | 0 <= i < |e.dispatches| :: (e.dispatches[i], DispatchOwner);
    var listed := ClaimsFor(e.dispatches, DispatchOwner);
    assert forall i :: 0 <= i < |e.dispatches| ==> listed[i] in dispatches;
    assert forall c :: c in listed <==> c in dispatches;
  }

  lemma CoversListed(owners: Sets<Owner>, claims: set<Claim>, list: seq<Claim>)
    requires forall c :: c in list <==> c in claims
    ensures Covers(owners, claims) <==> CoversEach(owners, list)
  {
    if Covers(owners, claims) {
      forall i | 0 <= i < |list| ensures list[i].1 in SetAt(owners, list[i].0) {
        assert list[i] in list;
      }
    }
  }

  method IndexRun(ix: Indexes, p: Operation, ghost all: Indexes) returns (next: Indexes)
    requires Within(ix, all) && RunCovered(all, p)
    ensures Within(ix, next) && Within(next, all) && RunCovered(next, p)
  {
    WithinItself(ix, all);
    RunClaimsListed(p);
    CoversListed(all.owners, OperationClaims(p), RunClaimList(p));
    hide Covers, CoversEach, OperationClaims, RunClaimList, SetsWithin;
    var prompted := ix;
    if p.prompt.Some? {
      prompted := ix.(operationByPrompt := ix.operationByPrompt[p.prompt.value := p.id]);
    }
    next := AddClaims(prompted, RunClaimList(p), all);
    CoversListed(next.owners, OperationClaims(p), RunClaimList(p));
    WithinOn(ix, prompted, next);
  }

  lemma EntryClaimsListed(owners: Sets<Owner>, q: QueueEntry)
    ensures Covers(owners, EntryClaims(q)) <==> CoversEach(owners, [(q.id, EntryOwner), (q.target, TargetOwner)])
  {
    CoversListed(owners, EntryClaims(q), [(q.id, EntryOwner), (q.target, TargetOwner)]);
  }

  function FileEntry(ix: Indexes, q: QueueEntry): Indexes {
    var filed := ix.(entryByTarget := ix.entryByTarget[q.target := q.id]);
    if q.operation.None? then filed
    else filed.(entriesByOperation := AddTo(filed.entriesByOperation, q.operation.value, q.id))
  }

  lemma MapWithinPut(a: map<Id, Id>, b: map<Id, Id>, k: Id, v: Id)
    requires MapWithin(a, b) && k in b && b[k] == v
    ensures MapWithin(a[k := v], b) && MapWithin(a, a[k := v])
  {
  }

  lemma TargetFiled(ix: Indexes, target: Id, entry: Id, all: Indexes)
    requires Within(ix, all) && target in all.entryByTarget && all.entryByTarget[target] == entry
    ensures var next := ix.(entryByTarget := ix.entryByTarget[target := entry]);
      Within(ix, next) && Within(next, all)
  {
    WithinItself(ix, all);
    hide SetsWithin, MapWithin;
    MapWithinPut(ix.entryByTarget, all.entryByTarget, target, entry);
  }

  lemma OwnedEntryFiled(ix: Indexes, operation: Id, entry: Id, all: Indexes)
    requires Within(ix, all) && entry in SetAt(all.entriesByOperation, operation)
    ensures var next := ix.(entriesByOperation := AddTo(ix.entriesByOperation, operation, entry));
      Within(ix, next) && Within(next, all)
  {
    WithinItself(ix, all);
    hide SetsWithin, MapWithin, AddTo, SetAt;
    AddedWithin(ix.entriesByOperation, all.entriesByOperation, operation, entry);
  }

  lemma EntryFiled(ix: Indexes, q: QueueEntry, all: Indexes)
    requires Within(ix, all) && EntryCovered(all, q)
    ensures Within(ix, FileEntry(ix, q)) && Within(FileEntry(ix, q), all)
  {
    hide Covers, Within, AddTo, SetAt;
    TargetFiled(ix, q.target, q.id, all);
    if q.operation.Some? {
      var filed := ix.(entryByTarget := ix.entryByTarget[q.target := q.id]);
      OwnedEntryFiled(filed, q.operation.value, q.id, all);
      WithinOn(ix, filed, FileEntry(ix, q));
    }
  }

  lemma FiledIsCovered(ix: Indexes, q: QueueEntry, next: Indexes)
    requires next == FileEntry(ix, q).(owners := next.owners) && Covers(next.owners, EntryClaims(q))
    ensures EntryCovered(next, q)
  {
    hide Covers, EntryClaims;
    if q.operation.Some? {
      AddedIsThere(ix.entriesByOperation, q.operation.value, q.id);
      hide AddTo, SetAt;
    }
  }

  lemma AddedIsThere<T>(m: Sets<T>, k: string, v: T)
    ensures v in SetAt(AddTo(m, k, v), k)
  {
  }

  lemma EntryClaimsOf(ix: Indexes, q: QueueEntry)
    requires EntryCovered(ix, q)
    ensures Covers(ix.owners, EntryClaims(q))
  {
  }

  method IndexEntry(ix: Indexes, q: QueueEntry, ghost all: Indexes) returns (next: Indexes)
    requires Within(ix, all) && EntryCovered(all, q)
    ensures Within(ix, next) && Within(next, all) && EntryCovered(next, q)
  {
    hide Covers, CoversEach, EntryClaims, EntryCovered, Within, FileEntry;
    EntryClaimsOf(all, q);
    EntryClaimsListed(all.owners, q);
    EntryFiled(ix, q, all);
    var filed := FileEntry(ix, q);
    next := AddClaims(filed, [(q.id, EntryOwner), (q.target, TargetOwner)], all);
    EntryClaimsListed(next.owners, q);
    FiledIsCovered(ix, q, next);
    WithinOn(ix, filed, next);
  }

  method IndexEffect(ix: Indexes, e: Effect, ghost all: Indexes) returns (next: Indexes)
    requires Within(ix, all) && EffectCovered(all, e)
    ensures Within(ix, next) && Within(next, all) && EffectCovered(next, e)
  {
    WithinItself(ix, all);
    EffectClaimsListed(e);
    CoversListed(all.owners, EffectClaims(e), EffectClaimList(e));
    hide Covers, CoversEach, EffectClaims, EffectClaimList, AddTo, SetAt, SetsWithin;
    AddedWithin(ix.effectsByResult, all.effectsByResult, e.result, e.id);
    AddedWithin(ix.effectsByOperation, all.effectsByOperation, e.operation, e.id);
    AddedWithin(ix.callsByOperation, all.callsByOperation, e.operation, e.call);
    var filed := ix.(
      effectsByResult := AddTo(ix.effectsByResult, e.result, e.id),
      effectsByOperation := AddTo(ix.effectsByOperation, e.operation, e.id),
      callsByOperation := AddTo(ix.callsByOperation, e.operation, e.call));
    next := AddClaims(filed, EffectClaimList(e), all);
    CoversListed(next.owners, EffectClaims(e), EffectClaimList(e));
    WithinOn(ix, filed, next);
  }

  // ----- all records -----

  ghost predicate NodesCovered(ix: Indexes, ids: set<Id>) {
    forall n :: n in ids ==> NodeOwner in SetAt(ix.owners, n)
  }

  ghost predicate CheckpointsCovered(ix: Indexes, ids: set<Id>) {
    forall c :: c in ids ==> CheckpointOwner in SetAt(ix.owners, c)
  }

  ghost predicate RunsCovered(ix: Indexes, s: State, ids: set<Id>)
    requires ids <= s.operations.Keys
  {
    forall p :: p in ids ==> RunCovered(ix, s.operations[p])
  }

  ghost predicate EntriesCovered(ix: Indexes, s: State, ids: set<Id>)
    requires ids <= s.queue.Keys
  {
    forall q :: q in ids ==> EntryCovered(ix, s.queue[q])
  }

  ghost predicate EffectsCovered(ix: Indexes, s: State, ids: set<Id>)
    requires ids <= s.effects.Keys
  {
    forall e :: e in ids ==> EffectCovered(ix, s.effects[e])
  }

  lemma NodesCoveredOn(a: Indexes, b: Indexes, ids: set<Id>)
    requires Within(a, b) && NodesCovered(a, ids)
    ensures NodesCovered(b, ids)
  {
    forall n | n in ids ensures NodeOwner in SetAt(b.owners, n) {
      MemberOn(a.owners, b.owners, n, NodeOwner);
    }
  }

  lemma CheckpointsCoveredOn(a: Indexes, b: Indexes, ids: set<Id>)
    requires Within(a, b) && CheckpointsCovered(a, ids)
    ensures CheckpointsCovered(b, ids)
  {
    forall n | n in ids ensures CheckpointOwner in SetAt(b.owners, n) {
      MemberOn(a.owners, b.owners, n, CheckpointOwner);
    }
  }

  lemma RunsCoveredOn(a: Indexes, b: Indexes, s: State, ids: set<Id>)
    requires ids <= s.operations.Keys && Within(a, b) && RunsCovered(a, s, ids)
    ensures RunsCovered(b, s, ids)
  {
    forall p | p in ids ensures RunCovered(b, s.operations[p]) {
      RunCoveredOn(a, b, s.operations[p]);
    }
  }

  lemma EntriesCoveredOn(a: Indexes, b: Indexes, s: State, ids: set<Id>)
    requires ids <= s.queue.Keys && Within(a, b) && EntriesCovered(a, s, ids)
    ensures EntriesCovered(b, s, ids)
  {
    forall q | q in ids ensures EntryCovered(b, s.queue[q]) {
      EntryCoveredOn(a, b, s.queue[q]);
    }
  }

  lemma EffectsCoveredOn(a: Indexes, b: Indexes, s: State, ids: set<Id>)
    requires ids <= s.effects.Keys && Within(a, b) && EffectsCovered(a, s, ids)
    ensures EffectsCovered(b, s, ids)
  {
    forall e | e in ids ensures EffectCovered(b, s.effects[e]) {
      EffectCoveredOn(a, b, s.effects[e]);
    }
  }

  lemma AllOwnersCovered(s: State, all: Indexes)
    requires Lists(all.owners, OwnerPairs(s))
    ensures Covers(all.owners, OwnerPairs(s))
    ensures NodesCovered(all, s.nodes.Keys) && CheckpointsCovered(all, s.checkpoints.Keys)
  {
    forall n | n in s.nodes ensures NodeOwner in SetAt(all.owners, n) {
      assert (n, NodeOwner) in NodeClaims(s.nodes);
    }
    forall n | n in s.checkpoints ensures CheckpointOwner in SetAt(all.owners, n) {
      assert (n, CheckpointOwner) in CheckpointClaims(s.checkpoints);
    }
  }

  /** The correct indexes cover every record. */
  lemma OwnersListed(s: State, all: Indexes)
    requires Indexed(Session(s, all))
    ensures Lists(all.owners, OwnerPairs(s))
  {
    hide Lists, Maps, OwnerPairs;
  }

  lemma ListedWithinItself(s: State, all: Indexes)
    requires Indexed(Session(s, all))
    ensures Within(all, all)
  {
    hide OwnerPairs, ResultPairs, EntryPairs, EffectPairs, CallPairs, TargetPairs, PromptPairs, Maps;
  }

  lemma AllRunsCovered(s: State, all: Indexes)
    requires Keyed(s) && Indexed(Session(s, all)) && Covers(all.owners, OwnerPairs(s))
    ensures RunsCovered(all, s, s.operations.Keys)
  {
    hide Keyed, Indexed, Covers, OwnerPairs, RunCovered;
    forall p | p in s.operations ensures RunCovered(all, s.operations[p]) {
      RunIsCovered(s, all, p);
    }
  }

  lemma AllEntriesCovered(s: State, all: Indexes)
    requires Keyed(s) && Indexed(Session(s, all)) && Covers(all.owners, OwnerPairs(s))
    ensures EntriesCovered(all, s, s.queue.Keys)
  {
    hide Keyed, Indexed, Covers, OwnerPairs, EntryCovered;
    forall q | q in s.queue ensures EntryCovered(all, s.queue[q]) {
      EntryIsCovered(s, all, q);
    }
  }

  lemma AllEffectsCovered(s: State, all: Indexes)
    requires Keyed(s) && Indexed(Session(s, all)) && Covers(all.owners, OwnerPairs(s))
    ensures EffectsCovered(all, s, s.effects.Keys)
  {
    hide Keyed, Indexed, Covers, OwnerPairs, EffectCovered;
    forall e | e in s.effects ensures EffectCovered(all, s.effects[e]) {
      EffectIsCovered(s, all, e);
    }
  }

  lemma AllCovered(s: State, all: Indexes)
    requires Keyed(s) && Indexed(Session(s, all))
    ensures Within(all, all)
    ensures NodesCovered(all, s.nodes.Keys) && CheckpointsCovered(all, s.checkpoints.Keys)
    ensures RunsCovered(all, s, s.operations.Keys) && EntriesCovered(all, s, s.queue.Keys)
    ensures EffectsCovered(all, s, s.effects.Keys)
  {
    hide *;
    ListedWithinItself(s, all);
    OwnersListed(s, all);
    AllOwnersCovered(s, all);
    AllRunsCovered(s, all);
    AllEntriesCovered(s, all);
    AllEffectsCovered(s, all);
  }

  lemma RunIsCovered(s: State, all: Indexes, p: Id)
    requires Keyed(s) && Indexed(Session(s, all)) && p in s.operations && Covers(all.owners, OwnerPairs(s))
    ensures RunCovered(all, s.operations[p])
  {
    assert OperationClaims(s.operations[p]) <= RunClaims(s.operations);
    CoversPart(all.owners, OwnerPairs(s), OperationClaims(s.operations[p]));
    assert s.operations[p].prompt.Some? ==> (s.operations[p].prompt.value, p) in PromptPairs(s.operations);
  }

  lemma CoversPart(owners: Sets<Owner>, claims: set<Claim>, part: set<Claim>)
    requires Covers(owners, claims) && part <= claims
    ensures Covers(owners, part)
  {
  }

  lemma EntryIsCovered(s: State, all: Indexes, q: Id)
    requires Keyed(s) && Indexed(Session(s, all)) && q in s.queue && Covers(all.owners, OwnerPairs(s))
    ensures EntryCovered(all, s.queue[q])
  {
    assert EntryClaims(s.queue[q]) <= QueueClaims(s.queue);
    CoversPart(all.owners, OwnerPairs(s), EntryClaims(s.queue[q]));
    assert (s.queue[q].target, q) in TargetPairs(s.queue);
    assert s.queue[q].operation.Some? ==> (s.queue[q].operation.value, q) in EntryPairs(s.queue);
  }

  lemma EffectIsCovered(s: State, all: Indexes, e: Id)
    requires Keyed(s) && Indexed(Session(s, all)) && e in s.effects && Covers(all.owners, OwnerPairs(s))
    ensures EffectCovered(all, s.effects[e])
  {
    assert EffectClaims(s.effects[e]) <= ToolClaims(s.effects);
    CoversPart(all.owners, OwnerPairs(s), EffectClaims(s.effects[e]));
    assert (s.effects[e].result, e) in ResultPairs(s.effects);
    assert (s.effects[e].operation, e) in EffectPairs(s.effects);
    assert (s.effects[e].operation, s.effects[e].call) in CallPairs(s.effects);
  }

  // ----- what covers everything is everything -----

  lemma SetsAreWhole<T(!new)>(a: Sets<T>, all: Sets<T>, pairs: set<(string, T)>)
    requires SetsWithin(a, all) && Lists(all, pairs)
    requires forall c :: c in pairs ==> c.1 in SetAt(a, c.0)
    ensures a == all
  {
    forall k ensures SetAt(a, k) == SetAt(all, k) {
      forall v | v in SetAt(all, k) ensures v in SetAt(a, k) {
        assert (k, v) in pairs;
      }
    }
    forall k | k in all ensures k in a && a[k] == all[k] {
      assert SetAt(a, k) == SetAt(all, k) && all[k] != {};
    }
    forall k | k in a ensures k in all {
      assert SetAt(a, k) == SetAt(all, k);
    }
  }

  lemma MapIsWhole(a: map<Id, Id>, all: map<Id, Id>, pairs: set<(Id, Id)>)
    requires MapWithin(a, all) && Maps(all, pairs)
    requires forall c :: c in pairs ==> c.0 in a
    ensures a == all
  {
    forall k | k in all ensures k in a {
      assert (k, all[k]) in pairs;
    }
  }

  lemma OwnersAreCovered(s: State, ix: Indexes)
    requires NodesCovered(ix, s.nodes.Keys) && CheckpointsCovered(ix, s.checkpoints.Keys)
    requires RunsCovered(ix, s, s.operations.Keys) && EntriesCovered(ix, s, s.queue.Keys)
    requires EffectsCovered(ix, s, s.effects.Keys)
    ensures forall c :: c in OwnerPairs(s) ==> c.1 in SetAt(ix.owners, c.0)
  {
    hide OperationClaims, EntryClaims, EffectClaims;
    forall c | c in OwnerPairs(s) ensures c.1 in SetAt(ix.owners, c.0) {
      if c in RunClaims(s.operations) {
        var p :| p in s.operations && c in OperationClaims(s.operations[p]);
        assert RunCovered(ix, s.operations[p]);
      } else if c in QueueClaims(s.queue) {
        var q :| q in s.queue && c in EntryClaims(s.queue[q]);
        assert EntryCovered(ix, s.queue[q]);
      } else if c in ToolClaims(s.effects) {
        var e :| e in s.effects && c in EffectClaims(s.effects[e]);
        assert EffectCovered(ix, s.effects[e]);
      }
    }
  }

  lemma QueueLinksAreWhole(s: State, ix: Indexes, all: Indexes)
    requires Keyed(s) && Indexed(Session(s, all)) && Within(ix, all) && EntriesCovered(ix, s, s.queue.Keys)
    ensures ix.entryByTarget == all.entryByTarget && ix.entriesByOperation == all.entriesByOperation
  {
    hide OwnerPairs, Covers;
    forall c | c in EntryPairs(s.queue) ensures c.1 in SetAt(ix.entriesByOperation, c.0) {
      assert EntryCovered(ix, s.queue[c.1]);
    }
    forall c | c in TargetPairs(s.queue) ensures c.0 in ix.entryByTarget {
      assert EntryCovered(ix, s.queue[c.1]);
    }
    MapIsWhole(ix.entryByTarget, all.entryByTarget, TargetPairs(s.queue));
    SetsAreWhole(ix.entriesByOperation, all.entriesByOperation, EntryPairs(s.queue));
  }

  lemma ResultsAreWhole(s: State, ix: Indexes, all: Indexes)
    requires Lists(all.effectsByResult, ResultPairs(s.effects)) && SetsWithin(ix.effectsByResult, all.effectsByResult)
    requires Keyed(s) && EffectsCovered(ix, s, s.effects.Keys)
    ensures ix.effectsByResult == all.effectsByResult
  {
    hide Covers, SetsWithin, Lists;
    forall c | c in ResultPairs(s.effects) ensures c.1 in SetAt(ix.effectsByResult, c.0) {
      assert EffectCovered(ix, s.effects[c.1]);
    }
    SetsAreWhole(ix.effectsByResult, all.effectsByResult, ResultPairs(s.effects));
  }

  lemma OwnedEffectsAreWhole(s: State, ix: Indexes, all: Indexes)
    requires Lists(all.effectsByOperation, EffectPairs(s.effects))
    requires SetsWithin(ix.effectsByOperation, all.effectsByOperation)
    requires Keyed(s) && EffectsCovered(ix, s, s.effects.Keys)
    ensures ix.effectsByOperation == all.effectsByOperation
  {
    hide Covers, SetsWithin, Lists;
    forall c | c in EffectPairs(s.effects) ensures c.1 in SetAt(ix.effectsByOperation, c.0) {
      assert EffectCovered(ix, s.effects[c.1]);
    }
    SetsAreWhole(ix.effectsByOperation, all.effectsByOperation, EffectPairs(s.effects));
  }

  lemma CallsAreWhole(s: State, ix: Indexes, all: Indexes)
    requires Lists(all.callsByOperation, CallPairs(s.effects)) && SetsWithin(ix.callsByOperation, all.callsByOperation)
    requires EffectsCovered(ix, s, s.effects.Keys)
    ensures ix.callsByOperation == all.callsByOperation
  {
    hide Covers, SetsWithin, Lists;
    forall c | c in CallPairs(s.effects) ensures c.1 in SetAt(ix.callsByOperation, c.0) {
      var e :| e in s.effects && c == (s.effects[e].operation, s.effects[e].call);
      assert EffectCovered(ix, s.effects[e]);
    }
    SetsAreWhole(ix.callsByOperation, all.callsByOperation, CallPairs(s.effects));
  }

  lemma ToolLinksAreWhole(s: State, ix: Indexes, all: Indexes)
    requires Keyed(s) && Indexed(Session(s, all)) && Within(ix, all) && EffectsCovered(ix, s, s.effects.Keys)
    ensures ix.effectsByResult == all.effectsByResult && ix.effectsByOperation == all.effectsByOperation
    ensures ix.callsByOperation == all.callsByOperation
  {
    hide OwnerPairs, ResultPairs, EffectPairs, CallPairs, Lists, SetsWithin, MapWithin, Maps, EffectsCovered, Keyed;
    ResultsAreWhole(s, ix, all);
    OwnedEffectsAreWhole(s, ix, all);
    CallsAreWhole(s, ix, all);
  }

  lemma PromptsAreWhole(s: State, ix: Indexes, all: Indexes)
    requires Indexed(Session(s, all)) && Within(ix, all) && RunsCovered(ix, s, s.operations.Keys)
    ensures ix.operationByPrompt == all.operationByPrompt
  {
    hide OwnerPairs, Covers;
    forall c | c in PromptPairs(s.operations) ensures c.0 in ix.operationByPrompt {
      assert RunCovered(ix, s.operations[c.1]);
    }
    MapIsWhole(ix.operationByPrompt, all.operationByPrompt, PromptPairs(s.operations));
  }

  lemma OwnersAreWhole(s: State, ix: Indexes, all: Indexes)
    requires Indexed(Session(s, all)) && Within(ix, all)
    requires forall c :: c in OwnerPairs(s) ==> c.1 in SetAt(ix.owners, c.0)
    ensures ix.owners == all.owners
  {
    SetsAreWhole(ix.owners, all.owners, OwnerPairs(s));
  }

  /** Builds the indexes of a state. Given that the state has correct indexes at all, the result
      is those: a rebuild and the maintained indexes are the same. */
  method BuildIndexes(s: State, ghost all: Indexes) returns (ix: Indexes)
    requires Keyed(s) && Indexed(Session(s, all))
    ensures ix == all
  {
    hide *;
    AllCovered(s, all);
    ix := IndexNodes(NO_INDEXES, s, all);
    ghost var a := ix;
    ix := IndexRuns(ix, s, all);
    ghost var b := ix;
    NodesCoveredOn(a, b, s.nodes.Keys);
    ix := IndexCheckpoints(ix, s, all);
    ghost var c := ix;
    NodesCoveredOn(b, c, s.nodes.Keys);
    RunsCoveredOn(b, c, s, s.operations.Keys);
    ix := IndexQueue(ix, s, all);
    ghost var d := ix;
    NodesCoveredOn(c, d, s.nodes.Keys);
    RunsCoveredOn(c, d, s, s.operations.Keys);
    CheckpointsCoveredOn(c, d, s.checkpoints.Keys);
    ix := IndexEffects(ix, s, all);
    NodesCoveredOn(d, ix, s.nodes.Keys);
    RunsCoveredOn(d, ix, s, s.operations.Keys);
    CheckpointsCoveredOn(d, ix, s.checkpoints.Keys);
    EntriesCoveredOn(d, ix, s, s.queue.Keys);
    OwnersAreCovered(s, ix);
    OwnersAreWhole(s, ix, all);
    PromptsAreWhole(s, ix, all);
    QueueLinksAreWhole(s, ix, all);
    ToolLinksAreWhole(s, ix, all);
  }

  method IndexNodes(start: Indexes, s: State, ghost all: Indexes) returns (ix: Indexes)
    requires start == NO_INDEXES && Within(all, all) && NodesCovered(all, s.nodes.Keys)
    ensures Within(ix, all) && NodesCovered(ix, s.nodes.Keys)
  {
    assert Within(start, all);
    ix := start;
    var todo := s.nodes.Keys;
    hide Within, SetAt;
    while todo != {}
      invariant todo <= s.nodes.Keys && Within(ix, all)
      invariant NodesCovered(ix, s.nodes.Keys - todo)
      decreases todo
    {
      var k :| k in todo;
      ghost var before := ix;
      ix := AddClaim(ix, (k, NodeOwner), all);
      NodesCoveredOn(before, ix, s.nodes.Keys - todo);
      todo := todo - {k};
    }
    assert s.nodes.Keys - todo == s.nodes.Keys;
  }

  method IndexCheckpoints(start: Indexes, s: State, ghost all: Indexes) returns (ix: Indexes)
    requires Within(start, all) && CheckpointsCovered(all, s.checkpoints.Keys)
    ensures Within(start, ix) && Within(ix, all) && CheckpointsCovered(ix, s.checkpoints.Keys)
  {
    WithinItself(start, all);
    ix := start;
    var todo := s.checkpoints.Keys;
    hide Within, SetAt;
    while todo != {}
      invariant todo <= s.checkpoints.Keys && Within(start, ix) && Within(ix, all)
      invariant CheckpointsCovered(ix, s.checkpoints.Keys - todo)
      decreases todo
    {
      var k :| k in todo;
      ghost var before := ix;
      ix := AddClaim(ix, (k, CheckpointOwner), all);
      WithinOn(start, before, ix);
      CheckpointsCoveredOn(before, ix, s.checkpoints.Keys - todo);
      todo := todo - {k};
    }
    assert s.checkpoints.Keys - todo == s.checkpoints.Keys;
  }

  lemma RunsCoveredToo(ix: Indexes, s: State, ids: set<Id>, k: Id)
    requires ids <= s.operations.Keys && k in s.operations && RunsCovered(ix, s, ids) && RunCovered(ix, s.operations[k])
    ensures RunsCovered(ix, s, ids + {k})
  {
    hide RunCovered;
  }

  lemma NoRunsCovered(ix: Indexes, s: State)
    ensures RunsCovered(ix, s, {})
  {
  }

  lemma RunsCoveredAt(ix: Indexes, s: State, k: Id)
    requires k in s.operations && RunsCovered(ix, s, s.operations.Keys)
    ensures RunCovered(ix, s.operations[k])
  {
    hide RunCovered;
  }

  method IndexRuns(start: Indexes, s: State, ghost all: Indexes) returns (ix: Indexes)
    requires Within(start, all) && RunsCovered(all, s, s.operations.Keys)
    ensures Within(start, ix) && Within(ix, all) && RunsCovered(ix, s, s.operations.Keys)
  {
    hide Within, RunCovered, RunsCovered;
    WithinItself(start, all);
    ix := start;
    NoRunsCovered(ix, s);
    assert s.operations.Keys - s.operations.Keys == {};
    var todo := s.operations.Keys;
    while todo != {}
      invariant todo <= s.operations.Keys && Within(start, ix) && Within(ix, all)
      invariant RunsCovered(ix, s, s.operations.Keys - todo)
      decreases todo
    {
      var k :| k in todo;
      RunsCoveredAt(all, s, k);
      ghost var before := ix;
      ix := IndexRun(ix, s.operations[k], all);
      WithinOn(start, before, ix);
      RunsCoveredOn(before, ix, s, s.operations.Keys - todo);
      RunsCoveredToo(ix, s, s.operations.Keys - todo, k);
      assert s.operations.Keys - (todo - {k}) == s.operations.Keys - todo + {k};
      todo := todo - {k};
    }
    assert s.operations.Keys - todo == s.operations.Keys;
  }

  lemma EntriesCoveredToo(ix: Indexes, s: State, ids: set<Id>, k: Id)
    requires ids <= s.queue.Keys && k in s.queue && EntriesCovered(ix, s, ids) && EntryCovered(ix, s.queue[k])
    ensures EntriesCovered(ix, s, ids + {k})
  {
    hide EntryCovered;
  }

  lemma NoEntriesCovered(ix: Indexes, s: State)
    ensures EntriesCovered(ix, s, {})
  {
  }

  lemma EntriesCoveredAt(ix: Indexes, s: State, k: Id)
    requires k in s.queue && EntriesCovered(ix, s, s.queue.Keys)
    ensures EntryCovered(ix, s.queue[k])
  {
    hide EntryCovered;
  }

  method IndexQueue(start: Indexes, s: State, ghost all: Indexes) returns (ix: Indexes)
    requires Within(start, all) && EntriesCovered(all, s, s.queue.Keys)
    ensures Within(start, ix) && Within(ix, all) && EntriesCovered(ix, s, s.queue.Keys)
  {
    hide Within, EntryCovered, EntriesCovered;
    WithinItself(start, all);
    ix := start;
    NoEntriesCovered(ix, s);
    assert s.queue.Keys - s.queue.Keys == {};
    var todo := s.queue.Keys;
    while todo != {}
      invariant todo <= s.queue.Keys && Within(start, ix) && Within(ix, all)
      invariant EntriesCovered(ix, s, s.queue.Keys - todo)
      decreases todo
    {
      var k :| k in todo;
      EntriesCoveredAt(all, s, k);
      ghost var before := ix;
      ix := IndexEntry(ix, s.queue[k], all);
      WithinOn(start, before, ix);
      EntriesCoveredOn(before, ix, s, s.queue.Keys - todo);
      EntriesCoveredToo(ix, s, s.queue.Keys - todo, k);
      assert s.queue.Keys - (todo - {k}) == s.queue.Keys - todo + {k};
      todo := todo - {k};
    }
    assert s.queue.Keys - todo == s.queue.Keys;
  }

  lemma EffectsCoveredToo(ix: Indexes, s: State, ids: set<Id>, k: Id)
    requires ids <= s.effects.Keys && k in s.effects && EffectsCovered(ix, s, ids) && EffectCovered(ix, s.effects[k])
    ensures EffectsCovered(ix, s, ids + {k})
  {
    hide EffectCovered;
  }

  lemma NoEffectsCovered(ix: Indexes, s: State)
    ensures EffectsCovered(ix, s, {})
  {
  }

  lemma EffectsCoveredAt(ix: Indexes, s: State, k: Id)
    requires k in s.effects && EffectsCovered(ix, s, s.effects.Keys)
    ensures EffectCovered(ix, s.effects[k])
  {
    hide EffectCovered;
  }

  method IndexEffects(start: Indexes, s: State, ghost all: Indexes) returns (ix: Indexes)
    requires Within(start, all) && EffectsCovered(all, s, s.effects.Keys)
    ensures Within(start, ix) && Within(ix, all) && EffectsCovered(ix, s, s.effects.Keys)
  {
    hide Within, EffectCovered, EffectsCovered;
    WithinItself(start, all);
    ix := start;
    NoEffectsCovered(ix, s);
    assert s.effects.Keys - s.effects.Keys == {};
    var todo := s.effects.Keys;
    while todo != {}
      invariant todo <= s.effects.Keys && Within(start, ix) && Within(ix, all)
      invariant EffectsCovered(ix, s, s.effects.Keys - todo)
      decreases todo
    {
      var k :| k in todo;
      EffectsCoveredAt(all, s, k);
      ghost var before := ix;
      ix := IndexEffect(ix, s.effects[k], all);
      WithinOn(start, before, ix);
      EffectsCoveredOn(before, ix, s, s.effects.Keys - todo);
      EffectsCoveredToo(ix, s, s.effects.Keys - todo, k);
      assert s.effects.Keys - (todo - {k}) == s.effects.Keys - todo + {k};
      todo := todo - {k};
    }
    assert s.effects.Keys - todo == s.effects.Keys;
  }
}
