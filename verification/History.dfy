/** What the log of accepted changes says about the queue and about dispatches.

    The state holds pending lists and dispatch ids; the log says in which order things happened. */
module History {
  import opened Options
  import opened SessionTypes
  import opened Reducer
  import opened Invariant
  import opened Evolution
  import opened Preservation
  import opened Indexing
  import opened Runs

  // ----- readings of a log -----

  /** The entries of a kind, in the order in which they were added. */
  function Additions(log: seq<Change>, kind: QueueKind): seq<Id> {
    if log == [] then []
    else
      var c := log[|log| - 1];
      Additions(log[..|log| - 1], kind) + if c.QueueAdded? && c.kind == kind then [c.entryId] else []
  }

  /** The entries of a kind, in the order in which they were claimed. */
  function Claims(log: seq<Change>, queue: map<Id, QueueEntry>, kind: QueueKind): seq<Id> {
    if log == [] then []
    else
      var c := log[|log| - 1];
      Claims(log[..|log| - 1], queue, kind)
      + if c.QueueClaimed? && c.entryId in queue && queue[c.entryId].kind == kind then [c.entryId] else []
  }

  /** The dispatches of one effect, in order. */
  function DispatchesOf(log: seq<Change>, effect: Id): seq<Id> {
    if log == [] then []
    else
      var c := log[|log| - 1];
      DispatchesOf(log[..|log| - 1], effect) + if c.ToolDispatched? && c.effectId == effect then [c.dispatchId] else []
  }

  function Live(ids: seq<Id>, queue: map<Id, QueueEntry>): seq<Id> {
    if ids == [] then []
    else
      var id := ids[|ids| - 1];
      Live(ids[..|ids| - 1], queue)
      + if id in queue && (queue[id].status.Queued? || queue[id].status.Claimed?) then [id] else []
  }

  ghost predicate IsSubsequence<T>(s: seq<T>, t: seq<T>)
    decreases |t|
  {
    if s == [] then true
    else if t == [] then false
    else
      || IsSubsequence(s, t[..|t| - 1])
      || (s[|s| - 1] == t[|t| - 1] && IsSubsequence(s[..|s| - 1], t[..|t| - 1]))
  }

  lemma {:induction false} SubsequenceOfLonger<T>(s: seq<T>, t: seq<T>, more: seq<T>)
    requires IsSubsequence(s, t)
    ensures IsSubsequence(s, t + more)
    decreases |more|
  {
    if more == [] {
      assert t + more == t;
    } else {
      SubsequenceOfLonger(s, t, more[..|more| - 1]);
      assert (t + more)[..|t + more| - 1] == t + more[..|more| - 1];
    }
  }

  lemma SubsequenceAndNext<T>(s: seq<T>, t: seq<T>, x: T)
    requires IsSubsequence(s, t)
    ensures IsSubsequence(s + [x], t + [x])
  {
    assert (s + [x])[..|s|] == s && (t + [x])[..|t|] == t;
  }

  // ----- the queue against the log -----

  /** No entry among these is still queued. */
  ghost predicate PastQueueing(ids: seq<Id>, queue: map<Id, QueueEntry>) {
    forall i :: 0 <= i < |ids| ==> ids[i] in queue && !queue[ids[i]].status.Queued?
  }

  /** Claims so far come, in order, from a part of the additions that is past queueing. */
  ghost predicate ClaimedFrom(claims: seq<Id>, additions: seq<Id>, queue: map<Id, QueueEntry>) {
    exists m: nat :: m <= |additions| && IsSubsequence(claims, additions[..m]) && PastQueueing(additions[..m], queue)
  }

  /** The additions of a kind are its entries, each once. */
  ghost predicate AllAdded(additions: seq<Id>, queue: map<Id, QueueEntry>, kind: QueueKind) {
    && Distinct(additions)
    && (forall q :: q in additions <==> q in queue && queue[q].kind == kind)
  }

  /** The pending list of a kind holds its live entries in order of addition, and they are
      claimed in that order. */
  ghost predicate QueueFollows(log: seq<Change>, queue: map<Id, QueueEntry>, pending: seq<Id>, kind: QueueKind) {
    var additions := Additions(log, kind);
    && AllAdded(additions, queue, kind)
    && pending == Live(additions, queue)
    && ClaimedFrom(Claims(log, queue, kind), additions, queue)
  }

  // ----- live entries -----

  lemma {:induction false} LiveUnchanged(ids: seq<Id>, queue: map<Id, QueueEntry>, more: map<Id, QueueEntry>)
    requires forall i :: 0 <= i < |ids| ==>
      ids[i] in queue && ids[i] in more && (IsPending(queue[ids[i]]) <==> IsPending(more[ids[i]]))
    ensures Live(ids, more) == Live(ids, queue)
  {
    if ids != [] {
      LiveUnchanged(ids[..|ids| - 1], queue, more);
    }
  }

  lemma {:induction false} LiveAreIds(ids: seq<Id>, queue: map<Id, QueueEntry>)
    ensures forall q :: q in Live(ids, queue) <==> q in ids && q in queue && IsPending(queue[q])
  {
    if ids != [] {
      LiveAreIds(ids[..|ids| - 1], queue);
      assert ids == ids[..|ids| - 1] + [ids[|ids| - 1]];
    }
  }

  lemma {:induction false} WithoutAppended(ids: seq<Id>, last: Id, id: Id)
    ensures Without(ids + [last], id)
      == if id in ids then Without(ids, id) + [last] else if last == id then ids else ids + [last]
  {
    if ids == [] {
      assert [] + [last] == [last] && [last][1..] == [];
      assert Without([last], id) == (if last == id then [] else [last] + Without([], id));
    } else {
      var s := ids + [last];
      assert s[1..] == ids[1..] + [last] && s[0] == ids[0];
      assert ids == [ids[0]] + ids[1..];
      if ids[0] != id {
        WithoutAppended(ids[1..], last, id);
      }
    }
  }

  lemma LiveUnfolds(front: seq<Id>, last: Id, queue: map<Id, QueueEntry>)
    ensures Live(front + [last], queue)
      == if last in queue && IsPending(queue[last]) then Live(front, queue) + [last] else Live(front, queue)
  {
    assert (front + [last])[..|front|] == front;
    assert Live(front, queue) + [] == Live(front, queue);
  }

  /** Ending a pending entry takes it, and nothing else, out of the live entries. */
  lemma {:induction false} LiveWithout(ids: seq<Id>, queue: map<Id, QueueEntry>, r: QueueEntry)
    requires Distinct(ids) && r.id in queue && IsPending(queue[r.id]) && !IsPending(r)
    ensures Live(ids, queue[r.id := r]) == if r.id in ids then Without(Live(ids, queue), r.id) else Live(ids, queue)
  {
    if ids != [] {
      var front, last := ids[..|ids| - 1], ids[|ids| - 1];
      assert ids == front + [last];
      assert last !in front;
      LiveWithout(front, queue, r);
      LiveAreIds(front, queue);
      LiveUnfolds(front, last, queue);
      LiveUnfolds(front, last, queue[r.id := r]);
      if last in queue && IsPending(queue[last]) {
        WithoutAppended(Live(front, queue), last, r.id);
      }
    }
  }

  /** Everything added before the first live entry is past queueing. */
  lemma {:induction false} FirstLive(ids: seq<Id>, queue: map<Id, QueueEntry>) returns (j: nat)
    requires Live(ids, queue) != []
    requires forall i :: 0 <= i < |ids| ==> ids[i] in queue
    ensures j < |ids| && ids[j] == Live(ids, queue)[0]
    ensures forall i :: 0 <= i < j ==> !IsPending(queue[ids[i]])
  {
    var front := ids[..|ids| - 1];
    if Live(front, queue) != [] {
      j := FirstLive(front, queue);
    } else {
      j := |ids| - 1;
      LiveAreIds(front, queue);
      forall i | 0 <= i < j ensures !IsPending(queue[ids[i]]) {
        assert front[i] == ids[i];
      }
    }
  }

  // ----- one change, the dispatches -----

  /** How one change alters the dispatches of the effects. */
  ghost predicate DispatchesMove(s: map<Id, Effect>, t: map<Id, Effect>, c: Change) {
    && s.Keys <= t.Keys
    && (c.ToolDispatched? ==> c.effectId in s)
    && (forall e :: e in t ==>
          t[e].dispatches == (if e in s then s[e].dispatches else [])
            + (if c.ToolDispatched? && c.effectId == e then [c.dispatchId] else []))
  }

  lemma UnchangedDispatches(s: map<Id, Effect>, t: map<Id, Effect>, c: Change)
    requires s.Keys <= t.Keys && !c.ToolDispatched?
    requires forall e :: e in t ==> t[e].dispatches == if e in s then s[e].dispatches else []
    ensures DispatchesMove(s, t, c)
  {
  }

  lemma OneEffectMoves(s: State, t: State, c: Change)
    requires IsEffectUpdate(c) && EffectUpdated(s, t, c.effectId)
    requires t.effects[c.effectId].dispatches
      == s.effects[c.effectId].dispatches + if c.ToolDispatched? then [c.dispatchId] else []
    ensures DispatchesMove(s.effects, t.effects, c)
  {
    forall e | e in t.effects
      ensures t.effects[e].dispatches == (if e in s.effects then s.effects[e].dispatches else [])
        + (if c.ToolDispatched? && c.effectId == e then [c.dispatchId] else [])
    {
      assert s.effects[e].dispatches + [] == s.effects[e].dispatches;
    }
  }

  lemma NoDispatches(s: map<Id, Effect>, c: Change)
    requires !c.ToolDispatched?
    ensures DispatchesMove(s, s, c)
  {
    UnchangedDispatches(s, s, c);
  }

  lemma PreparedDispatches(s: Session, c: Change)
    requires c.ToolPrepared? && c.effectId !in s.state.effects && ApplyPrepared(s, c).Some?
    ensures DispatchesMove(s.state.effects, ApplyPrepared(s, c).value.state.effects, c)
  {
    PreparedShape(s, c);
    UnchangedDispatches(s.state.effects, s.state.effects[c.effectId := NewEffect(c)], c);
  }

  lemma CancelDispatches(s: Session, c: Change)
    requires c.RunCancel? && ApplyCancel(s, c).Some? && s.state.operations[c.operation].id == c.operation
    requires Lists(s.ix.effectsByOperation, EffectPairs(s.state.effects))
    ensures DispatchesMove(s.state.effects, ApplyCancel(s, c).value.state.effects, c)
  {
    CancelledEffects(s, c);
    UnchangedDispatches(s.state.effects, ApplyCancel(s, c).value.state.effects, c);
  }

  lemma EffectStepDispatches(s: Session, c: Change, t: Session)
    requires IsEffectUpdate(c) && Keyed(s.state) && WellFormedChange(c) && Step(s, c) == Some(t)
    requires EffectsOk(s.state.nodes, s.state.operations, s.state.effects)
    ensures DispatchesMove(s.state.effects, t.state.effects, c)
  {
    hide *;
    EffectStep(s, c, t);
    OneEffectMoves(s.state, t.state, c);
  }

  lemma DispatchesStep(s: Session, c: Change, t: Session)
    requires Inv(s) && WellFormedChange(c) && Step(s, c) == Some(t)
    ensures DispatchesMove(s.state.effects, t.state.effects, c)
  {
    hide *;
    InvParts(s);
    IndexParts(s);
    StepCases(s, c, t);
    EffectUpdateIs(c);
    StepFrame(s, c, t);
    if IsEffectUpdate(c) {
      EffectStepDispatches(s, c, t);
    } else if c.RunCancel? {
      UpdatedRun(s, c, t);
      CancelDispatches(s, c);
    } else if c.ToolPrepared? {
      PreparedIsNew(s, c);
      PreparedDispatches(s, c);
    } else {
      FrameParts(s.state, c, t.state);
      NoDispatches(s.state.effects, c);
    }
  }

  lemma LogStep(log: seq<Change>, c: Change)
    ensures (log + [c])[..|log|] == log && (log + [c])[|log|] == c
  {
  }

  ghost predicate DispatchesFollow(log: seq<Change>, effects: map<Id, Effect>) {
    && (forall e :: e in effects ==> effects[e].dispatches == DispatchesOf(log, e))
    && (forall e :: e !in effects ==> DispatchesOf(log, e) == [])
  }

  lemma DispatchesUnfold(log: seq<Change>, c: Change, e: Id)
    ensures DispatchesOf(log + [c], e)
      == DispatchesOf(log, e) + if c.ToolDispatched? && c.effectId == e then [c.dispatchId] else []
  {
    LogStep(log, c);
  }

  lemma DispatchesFollowOn(log: seq<Change>, c: Change, s: map<Id, Effect>, t: map<Id, Effect>)
    requires DispatchesFollow(log, s) && DispatchesMove(s, t, c)
    ensures DispatchesFollow(log + [c], t)
  {
    hide DispatchesOf;
    forall e ensures DispatchesOf(log + [c], e) == if e in t then t[e].dispatches else [] {
      DispatchesUnfold(log, c, e);
    }
  }

  // ----- one change, the queue -----

  lemma AdditionsUnfold(log: seq<Change>, c: Change, kind: QueueKind)
    ensures Additions(log + [c], kind)
      == if c.QueueAdded? && c.kind == kind then Additions(log, kind) + [c.entryId] else Additions(log, kind)
  {
    LogStep(log, c);
    NothingAppended(Additions(log, kind));
  }

  lemma ClaimsUnfold(log: seq<Change>, c: Change, queue: map<Id, QueueEntry>, kind: QueueKind)
    ensures Claims(log + [c], queue, kind)
      == if c.QueueClaimed? && c.entryId in queue && queue[c.entryId].kind == kind
         then Claims(log, queue, kind) + [c.entryId] else Claims(log, queue, kind)
  {
    LogStep(log, c);
    NothingAppended(Claims(log, queue, kind));
  }

  ghost predicate ClaimsKnown(log: seq<Change>, queue: map<Id, QueueEntry>) {
    forall i :: 0 <= i < |log| && log[i].QueueClaimed? ==> log[i].entryId in queue
  }

  lemma {:induction false} ClaimsUnderMore(
    log: seq<Change>, queue: map<Id, QueueEntry>, more: map<Id, QueueEntry>, kind: QueueKind)
    requires forall q :: q in queue ==> q in more && more[q].kind == queue[q].kind
    requires ClaimsKnown(log, queue)
    ensures Claims(log, more, kind) == Claims(log, queue, kind)
  {
    if log != [] {
      ClaimsUnderMore(log[..|log| - 1], queue, more, kind);
    }
  }

  lemma PastStaysPast(ids: seq<Id>, queue: map<Id, QueueEntry>, more: map<Id, QueueEntry>)
    requires PastQueueing(ids, queue) && EntriesEvolve(queue, more)
    ensures PastQueueing(ids, more)
  {
    forall i | 0 <= i < |ids| ensures ids[i] in more && !more[ids[i]].status.Queued? {
      assert EntryEvolves(queue[ids[i]], more[ids[i]]);
    }
  }

  lemma ClaimedFromOn(
    claims: seq<Id>, additions: seq<Id>, more: seq<Id>, queue: map<Id, QueueEntry>, later: map<Id, QueueEntry>)
    requires ClaimedFrom(claims, additions, queue) && EntriesEvolve(queue, later)
    ensures ClaimedFrom(claims, additions + more, later)
  {
    var m: nat :| m <= |additions| && IsSubsequence(claims, additions[..m]) && PastQueueing(additions[..m], queue);
    assert (additions + more)[..m] == additions[..m];
    PastStaysPast(additions[..m], queue, later);
  }

  /** The log does not mention the queue in this change, and the queue did not move. */
  lemma QueueFollowsQuietly(log: seq<Change>, c: Change, queue: map<Id, QueueEntry>, pending: seq<Id>, kind: QueueKind)
    requires QueueFollows(log, queue, pending, kind) && !c.QueueAdded? && !c.QueueClaimed?
    ensures QueueFollows(log + [c], queue, pending, kind)
  {
    AdditionsUnfold(log, c, kind);
    ClaimsUnfold(log, c, queue, kind);
  }

  lemma LiveOfMore(ids: seq<Id>, queue: map<Id, QueueEntry>, q: QueueEntry)
    requires q.id !in queue && (forall i :: 0 <= i < |ids| ==> ids[i] in queue)
    ensures Live(ids, queue[q.id := q]) == Live(ids, queue)
  {
    LiveUnchanged(ids, queue, queue[q.id := q]);
  }

  lemma AddedToAll(additions: seq<Id>, queue: map<Id, QueueEntry>, q: QueueEntry)
    requires AllAdded(additions, queue, q.kind) && q.id !in queue
    ensures AllAdded(additions + [q.id], queue[q.id := q], q.kind)
  {
    forall x ensures x in additions + [q.id] <==> x in queue[q.id := q] && queue[q.id := q][x].kind == q.kind {
      assert x in additions <==> x in queue && queue[x].kind == q.kind;
    }
  }

  lemma UpdatedInAll(additions: seq<Id>, queue: map<Id, QueueEntry>, q: QueueEntry, kind: QueueKind)
    requires AllAdded(additions, queue, kind)
    requires if q.id in queue then q.kind == queue[q.id].kind else q.kind != kind
    ensures AllAdded(additions, queue[q.id := q], kind)
  {
    forall x ensures x in additions <==> x in queue[q.id := q] && queue[q.id := q][x].kind == kind {
      assert x in additions <==> x in queue && queue[x].kind == kind;
    }
  }

  lemma AddedFollows(
    log: seq<Change>, c: Change, queue: map<Id, QueueEntry>, pending: seq<Id>, q: QueueEntry, kind: QueueKind)
    requires QueueFollows(log, queue, pending, kind) && ClaimsKnown(log, queue)
    requires c.QueueAdded? && q.id == c.entryId && q.kind == c.kind && q.id !in queue && q.status.Queued?
    ensures QueueFollows(log + [c], queue[q.id := q], if q.kind == kind then pending + [q.id] else pending, kind)
  {
    var additions, claims, more := Additions(log, kind), Claims(log, queue, kind), queue[q.id := q];
    AdditionsUnfold(log, c, kind);
    ClaimsUnfold(log, c, more, kind);
    ClaimsUnderMore(log, queue, more, kind);
    EntryJoinsAdditions(additions, claims, queue, q, kind);
  }

  lemma EntryJoinsAdditions(
    additions: seq<Id>, claims: seq<Id>, queue: map<Id, QueueEntry>, q: QueueEntry, kind: QueueKind)
    requires AllAdded(additions, queue, kind) && ClaimedFrom(claims, additions, queue)
    requires q.id !in queue && q.status.Queued?
    ensures var more := queue[q.id := q];
      var all := if q.kind == kind then additions + [q.id] else additions;
      && AllAdded(all, more, kind) && ClaimedFrom(claims, all, more)
      && Live(all, more) == if q.kind == kind then Live(additions, queue) + [q.id] else Live(additions, queue)
  {
    var more := queue[q.id := q];
    LiveOfMore(additions, queue, q);
    NothingAppended(additions);
    if q.kind == kind {
      AddedToAll(additions, queue, q);
      LiveUnfolds(additions, q.id, more);
      ClaimedFromOn(claims, additions, [q.id], queue, more);
    } else {
      UpdatedInAll(additions, queue, q, kind);
      ClaimedFromOn(claims, additions, [], queue, more);
    }
  }

  lemma NothingAppended<T>(s: seq<T>)
    ensures s + [] == s
  {
  }

  lemma PrefixesNest<T>(s: seq<T>, m: nat, j: nat)
    requires m <= j <= |s|
    ensures s[..j] == s[..m] + s[m..j]
    ensures j < |s| ==> s[..j + 1] == s[..j] + [s[j]]
  {
  }

  lemma ClaimsComeFirst(additions: seq<Id>, queue: map<Id, QueueEntry>, m: nat, j: nat)
    requires m <= |additions| && j < |additions| && PastQueueing(additions[..m], queue)
    requires additions[j] in queue && queue[additions[j]].status.Queued?
    ensures m <= j
  {
    assert forall i :: 0 <= i < m ==> additions[..m][i] == additions[i];
  }

  lemma FirstIsPast(additions: seq<Id>, queue: map<Id, QueueEntry>, j: nat, r: QueueEntry)
    requires j < |additions| && additions[j] == r.id && !r.status.Queued?
    requires forall i :: 0 <= i < |additions| ==> additions[i] in queue
    requires forall i :: 0 <= i < j ==> !IsPending(queue[additions[i]])
    ensures PastQueueing(additions[..j + 1], queue[r.id := r])
  {
  }

  lemma NewClaimFollows(claims: seq<Id>, additions: seq<Id>, queue: map<Id, QueueEntry>, r: QueueEntry)
    requires ClaimedFrom(claims, additions, queue)
    requires forall i :: 0 <= i < |additions| ==> additions[i] in queue
    requires r.id in queue && queue[r.id].status.Queued? && r.status.Claimed?
    requires Live(additions, queue) != [] && Live(additions, queue)[0] == r.id
    ensures ClaimedFrom(claims + [r.id], additions, queue[r.id := r])
  {
    var m: nat :| m <= |additions| && IsSubsequence(claims, additions[..m]) && PastQueueing(additions[..m], queue);
    hide IsSubsequence, PastQueueing, Live;
    var j := FirstLive(additions, queue);
    ClaimsComeFirst(additions, queue, m, j);
    PrefixesNest(additions, m, j);
    SubsequenceOfLonger(claims, additions[..m], additions[m..j]);
    SubsequenceAndNext(claims, additions[..j], r.id);
    FirstIsPast(additions, queue, j, r);
  }

  lemma AdditionsAreKept(additions: seq<Id>, queue: map<Id, QueueEntry>, kind: QueueKind)
    requires AllAdded(additions, queue, kind)
    ensures forall i :: 0 <= i < |additions| ==> additions[i] in queue
  {
    forall i | 0 <= i < |additions| ensures additions[i] in queue {
      assert additions[i] in additions;
    }
  }

  lemma EntryIsClaimed(
    claims: seq<Id>, additions: seq<Id>, queue: map<Id, QueueEntry>, r: QueueEntry, kind: QueueKind)
    requires AllAdded(additions, queue, kind) && ClaimedFrom(claims, additions, queue)
    requires r.id in queue && EntryEvolves(queue[r.id], r) && queue[r.id].status.Queued? && r.status.Claimed?
    requires r.kind == kind ==> Live(additions, queue) != [] && Live(additions, queue)[0] == r.id
    ensures var more := queue[r.id := r];
      && AllAdded(additions, more, kind) && Live(additions, more) == Live(additions, queue)
      && ClaimedFrom(if r.kind == kind then claims + [r.id] else claims, additions, more)
  {
    var more := queue[r.id := r];
    hide AllAdded, ClaimedFrom, Live;
    AdditionsAreKept(additions, queue, kind);
    LiveUnchanged(additions, queue, more);
    UpdatedInAll(additions, queue, r, kind);
    if r.kind == kind {
      NewClaimFollows(claims, additions, queue, r);
    } else {
      NothingAppended(additions);
      ClaimedFromOn(claims, additions, [], queue, more);
    }
  }

  lemma ClaimedFollows(
    log: seq<Change>, c: Change, queue: map<Id, QueueEntry>, pending: seq<Id>, r: QueueEntry, kind: QueueKind)
    requires QueueFollows(log, queue, pending, kind) && ClaimsKnown(log, queue)
    requires c.QueueClaimed? && r.id == c.entryId && r.id in queue && EntryEvolves(queue[r.id], r)
    requires queue[r.id].status.Queued? && r.status.Claimed?
    requires r.kind == kind ==> |pending| > 0 && pending[0] == r.id
    ensures QueueFollows(log + [c], queue[r.id := r], pending, kind)
  {
    var more := queue[r.id := r];
    hide AllAdded, ClaimedFrom, Live, Additions, Claims;
    AdditionsUnfold(log, c, kind);
    ClaimsUnfold(log, c, more, kind);
    ClaimsUnderMore(log, queue, more, kind);
    EntryIsClaimed(Claims(log, queue, kind), Additions(log, kind), queue, r, kind);
  }

  lemma EndedFollows(
    log: seq<Change>, c: Change, queue: map<Id, QueueEntry>, pending: seq<Id>, r: QueueEntry, kind: QueueKind)
    requires QueueFollows(log, queue, pending, kind) && ClaimsKnown(log, queue)
    requires c.QueueFinished? && r.id == c.entryId && r.id in queue && EntryEvolves(queue[r.id], r)
    requires IsPending(queue[r.id]) && r.status.Ended?
    ensures QueueFollows(
      log + [c], queue[r.id := r], if r.kind == kind then Without(pending, r.id) else pending, kind)
  {
    var additions, claims, more := Additions(log, kind), Claims(log, queue, kind), queue[r.id := r];
    AdditionsUnfold(log, c, kind);
    ClaimsUnfold(log, c, more, kind);
    ClaimsUnderMore(log, queue, more, kind);
    EntryLeavesAdditions(additions, claims, queue, r, kind);
  }

  lemma EntryLeavesAdditions(
    additions: seq<Id>, claims: seq<Id>, queue: map<Id, QueueEntry>, r: QueueEntry, kind: QueueKind)
    requires AllAdded(additions, queue, kind) && ClaimedFrom(claims, additions, queue)
    requires r.id in queue && EntryEvolves(queue[r.id], r) && IsPending(queue[r.id]) && r.status.Ended?
    ensures var more := queue[r.id := r];
      && AllAdded(additions, more, kind) && ClaimedFrom(claims, additions, more)
      && Live(additions, more)
        == if r.kind == kind then Without(Live(additions, queue), r.id) else Live(additions, queue)
  {
    LiveWithout(additions, queue, r);
    UpdatedInAll(additions, queue, r, kind);
    NothingAppended(additions);
    ClaimedFromOn(claims, additions, [], queue, queue[r.id := r]);
  }

  // ----- the whole log -----

  /** The state agrees with the log of everything accepted so far. */
  ghost predicate Follows(log: seq<Change>, s: State) {
    && (forall kind :: QueueFollows(log, s.queue, s.branch.pending.Of(kind), kind))
    && ClaimsKnown(log, s.queue)
    && DispatchesFollow(log, s.effects)
  }

  lemma ClaimsKnownOn(log: seq<Change>, c: Change, s: map<Id, QueueEntry>, t: map<Id, QueueEntry>)
    requires ClaimsKnown(log, s) && s.Keys <= t.Keys && (c.QueueClaimed? ==> c.entryId in t)
    ensures ClaimsKnown(log + [c], t)
  {
  }

  lemma AddedStepFollows(log: seq<Change>, s: Session, c: Change, kind: QueueKind)
    requires c.QueueAdded? && ApplyQueueAdded(s, c).Some? && c.entryId !in s.state.queue
    requires QueueFollows(log, s.state.queue, s.state.branch.pending.Of(kind), kind) && ClaimsKnown(log, s.state.queue)
    ensures var t := ApplyQueueAdded(s, c).value.state;
      && QueueFollows(log + [c], t.queue, t.branch.pending.Of(kind), kind)
      && ClaimsKnown(log + [c], t.queue)
  {
    var q := QueueEntry(c.entryId, c.target, c.kind, c.addedAt, c.message, Queued, None, None, None);
    AddedFollows(log, c, s.state.queue, s.state.branch.pending.Of(kind), q, kind);
    ClaimsKnownOn(log, c, s.state.queue, ApplyQueueAdded(s, c).value.state.queue);
  }

  lemma ClaimedStepFollows(log: seq<Change>, s: Session, c: Change, kind: QueueKind)
    requires c.QueueClaimed? && ApplyQueueClaimed(s, c).Some? && s.state.queue[c.entryId].id == c.entryId
    requires s.state.queue[c.entryId].operation.None?
    requires QueueFollows(log, s.state.queue, s.state.branch.pending.Of(kind), kind) && ClaimsKnown(log, s.state.queue)
    ensures var t := ApplyQueueClaimed(s, c).value.state;
      && QueueFollows(log + [c], t.queue, t.branch.pending.Of(kind), kind)
      && ClaimsKnown(log + [c], t.queue)
  {
    var q := s.state.queue[c.entryId];
    ClaimedFollows(log, c, s.state.queue, s.state.branch.pending.Of(kind),
      q.(status := Claimed, operation := Some(c.operation), claimedAt := Some(c.claimedAt)), kind);
    ClaimsKnownOn(log, c, s.state.queue, ApplyQueueClaimed(s, c).value.state.queue);
  }

  lemma EndedStepFollows(log: seq<Change>, s: Session, c: Change, kind: QueueKind)
    requires c.QueueFinished? && ApplyQueueFinished(s, c).Some? && s.state.queue[c.entryId].id == c.entryId
    requires QueueFollows(log, s.state.queue, s.state.branch.pending.Of(kind), kind) && ClaimsKnown(log, s.state.queue)
    ensures var t := ApplyQueueFinished(s, c).value.state;
      && QueueFollows(log + [c], t.queue, t.branch.pending.Of(kind), kind)
      && ClaimsKnown(log + [c], t.queue)
  {
    var q := s.state.queue[c.entryId];
    EndedFollows(log, c, s.state.queue, s.state.branch.pending.Of(kind),
      q.(status := Ended(c.queueOutcome), finishedAt := Some(c.finishedAt)), kind);
    ClaimsKnownOn(log, c, s.state.queue, ApplyQueueFinished(s, c).value.state.queue);
  }

  lemma QueueStepFollows(log: seq<Change>, s: Session, c: Change, t: Session, kind: QueueKind)
    requires Inv(s) && WellFormedChange(c) && Step(s, c) == Some(t)
    requires QueueFollows(log, s.state.queue, s.state.branch.pending.Of(kind), kind) && ClaimsKnown(log, s.state.queue)
    ensures QueueFollows(log + [c], t.state.queue, t.state.branch.pending.Of(kind), kind)
    ensures ClaimsKnown(log + [c], t.state.queue)
  {
    hide *;
    InvParts(s);
    StepCases(s, c, t);
    EffectUpdateIs(c);
    StepFrame(s, c, t);
    if c.QueueAdded? {
      EntryIsNew(s, c);
      AddedStepFollows(log, s, c, kind);
    } else if c.QueueClaimed? {
      UpdatedEntry(s, c, t);
      ClaimedStepFollows(log, s, c, kind);
    } else if c.QueueFinished? {
      UpdatedEntry(s, c, t);
      EndedStepFollows(log, s, c, kind);
    } else {
      FrameParts(s.state, c, t.state);
      QueueFollowsQuietly(log, c, s.state.queue, s.state.branch.pending.Of(kind), kind);
      ClaimsKnownOn(log, c, s.state.queue, s.state.queue);
    }
  }

  lemma StepFollows(log: seq<Change>, s: Session, c: Change, t: Session)
    requires Follows(log, s.state) && Inv(s) && WellFormedChange(c) && Step(s, c) == Some(t)
    ensures Follows(log + [c], t.state)
  {
    hide Inv, Step, WellFormedChange, QueueFollows, ClaimsKnown, DispatchesFollow;
    forall kind
      ensures QueueFollows(log + [c], t.state.queue, t.state.branch.pending.Of(kind), kind)
      ensures ClaimsKnown(log + [c], t.state.queue)
    {
      QueueStepFollows(log, s, c, t, kind);
    }
    assert QueueFollows(log + [c], t.state.queue, t.state.branch.pending.Of(Steering), Steering);
    DispatchesStep(s, c, t);
    DispatchesFollowOn(log, c, s.state.effects, t.state.effects);
  }

  lemma AppendAll<T>(log: seq<T>, cs: seq<T>)
    requires cs != []
    ensures (log + [cs[0]]) + cs[1..] == log + cs
  {
  }

  lemma {:induction false} StepsFollow(log: seq<Change>, s: Session, cs: seq<Change>, u: Session)
    requires Follows(log, s.state) && Inv(s) && WellFormedAll(cs) && Steps(s, cs) == Some(u)
    ensures Follows(log + cs, u.state)
    decreases |cs|
  {
    hide *;
    if cs == [] {
      NoSteps(s);
      NothingAppended(log);
    } else {
      var t := StepsUnfold(s, cs, u);
      TailWellFormed(cs);
      StepFollows(log, s, cs[0], t);
      StepKeepsInv(s, cs[0], t);
      StepsFollow(log + [cs[0]], t, cs[1..], u);
      AppendAll(log, cs);
    }
  }

  /** The changes of the commits that were accepted, in order. */
  function AcceptedChanges(s: Session, commits: seq<Commit>): seq<Change>
    decreases |commits|
  {
    if commits == [] then []
    else
      (if Transition(s, commits[0]).Applied? then commits[0].changes else [])
      + AcceptedChanges(After(s, commits[0]), commits[1..])
  }

  lemma RecordFollows(log: seq<Change>, t: Session, commit: Commit)
    requires Follows(log, t.state)
    ensures Follows(log, Record(t, commit).state)
  {
  }

  lemma CommitFollows(log: seq<Change>, s: Session, commit: Commit, u: Session)
    requires Settled(s) && Follows(log, s.state) && Transition(s, commit) == Applied(u)
    ensures Follows(log + commit.changes, u.state)
  {
    hide *;
    SettledIs(s);
    var t := AppliedCommit(s, commit, u);
    StepsFollow(log, s, commit.changes, t);
    RecordFollows(log + commit.changes, t, commit);
  }

  lemma TransitionFollows(log: seq<Change>, s: Session, commit: Commit)
    requires Settled(s) && Follows(log, s.state)
    ensures Follows(log + (if Transition(s, commit).Applied? then commit.changes else []), After(s, commit).state)
    ensures Settled(After(s, commit))
  {
    hide Settled, Follows, Transition;
    NothingAppended(log);
    AfterKeeps(s, commit);
    if Transition(s, commit).Applied? {
      CommitFollows(log, s, commit, After(s, commit));
    }
  }

  lemma Associate<T>(a: seq<T>, b: seq<T>, c: seq<T>)
    ensures (a + b) + c == a + (b + c)
  {
  }

  lemma {:induction false} RunFollows(log: seq<Change>, s: Session, commits: seq<Commit>)
    requires Settled(s) && Follows(log, s.state)
    ensures Settled(Run(s, commits))
    ensures Follows(log + AcceptedChanges(s, commits), Run(s, commits).state)
    decreases |commits|
  {
    hide Settled, Follows, Transition, After;
    if commits == [] {
      NothingAppended(log);
    } else {
      var accepted := if Transition(s, commits[0]).Applied? then commits[0].changes else [];
      TransitionFollows(log, s, commits[0]);
      RunFollows(log + accepted, After(s, commits[0]), commits[1..]);
      Associate(log, accepted, AcceptedChanges(After(s, commits[0]), commits[1..]));
    }
  }

  lemma InitialFollows(header: Header)
    ensures Follows([], Initial(header).state)
  {
    forall kind ensures QueueFollows([], map[], [], kind) {
      assert Additions([], kind)[..0] == [];
      assert PastQueueing([], map[]);
    }
  }

  // ----- what follows for the queue and the dispatches -----

  /** First in, first out: over any run, each pending list holds exactly the queued and claimed
      entries of its kind, once each and in order of addition; a claimed entry is first and its
      operation is the open one; and entries are claimed in the order in which they were added. */
  lemma QueueIsFifo(header: Header, commits: seq<Commit>, kind: QueueKind)
    ensures var s, log := Run(Initial(header), commits).state, AcceptedChanges(Initial(header), commits);
      && PendingExact(s.queue, s.branch.pending, kind)
      && s.branch.pending.Of(kind) == Live(Additions(log, kind), s.queue)
      && IsSubsequence(Claims(log, s.queue, kind), Additions(log, kind))
      && forall q :: q in s.queue && s.queue[q].status.Claimed? ==>
        && IsFirst(s.branch.pending, s.queue[q])
        && s.branch.open.Some? && s.queue[q].operation == s.branch.open
  {
    hide Settled, Run, AcceptedChanges, IsSubsequence, Live, Claims, Additions, PendingExact, IsFirst;
    RunIsLogged(header, commits);
    FollowsQueue(AcceptedChanges(Initial(header), commits), Run(Initial(header), commits), kind);
  }

  lemma RunIsLogged(header: Header, commits: seq<Commit>)
    ensures Settled(Run(Initial(header), commits))
    ensures Follows(AcceptedChanges(Initial(header), commits), Run(Initial(header), commits).state)
  {
    InitialInv(header);
    InitialFollows(header);
    hide *;
    SettledIs(Initial(header));
    RunFollows([], Initial(header), commits);
    AppendedToNothing(AcceptedChanges(Initial(header), commits));
  }

  lemma AppendedToNothing<T>(s: seq<T>)
    ensures [] + s == s
  {
  }

  lemma FollowsQueue(log: seq<Change>, s: Session, kind: QueueKind)
    requires Settled(s) && Follows(log, s.state)
    ensures PendingExact(s.state.queue, s.state.branch.pending, kind)
    ensures s.state.branch.pending.Of(kind) == Live(Additions(log, kind), s.state.queue)
    ensures IsSubsequence(Claims(log, s.state.queue, kind), Additions(log, kind))
    ensures forall q :: q in s.state.queue && s.state.queue[q].status.Claimed? ==>
      && IsFirst(s.state.branch.pending, s.state.queue[q])
      && s.state.branch.open.Some? && s.state.queue[q].operation == s.state.branch.open
  {
    SettledIs(s);
    InvParts(s);
    hide Settled, Inv, StateOk, PendingExact, IsSubsequence, Live, Claims, Additions, IsFirst;
    assert QueueFollows(log, s.state.queue, s.state.branch.pending.Of(kind), kind);
    ClaimsInOrder(Claims(log, s.state.queue, kind), Additions(log, kind), s.state.queue);
    forall q | q in s.state.queue && s.state.queue[q].status.Claimed?
      ensures IsFirst(s.state.branch.pending, s.state.queue[q])
      ensures s.state.branch.open.Some? && s.state.queue[q].operation == s.state.branch.open
    {
      assert EntryOk(s.state.nodes, s.state.operations.Keys, s.state.branch, s.state.queue[q]);
    }
  }

  lemma ClaimsInOrder(claims: seq<Id>, additions: seq<Id>, queue: map<Id, QueueEntry>)
    requires ClaimedFrom(claims, additions, queue)
    ensures IsSubsequence(claims, additions)
  {
    var m: nat :| m <= |additions| && IsSubsequence(claims, additions[..m]) && PastQueueing(additions[..m], queue);
    SubsequenceOfLonger(claims, additions[..m], additions[m..]);
    assert additions[..m] + additions[m..] == additions;
  }

  /** Over any run an effect is dispatched at most once, or twice if it is repeatable. */
  lemma DispatchesAreBounded(header: Header, commits: seq<Commit>, e: Id)
    ensures var s, log := Run(Initial(header), commits).state, AcceptedChanges(Initial(header), commits);
      if e in s.effects then
        && DispatchesOf(log, e) == s.effects[e].dispatches
        && |DispatchesOf(log, e)| <= if s.effects[e].policy.Repeatable? then 2 else 1
      else DispatchesOf(log, e) == []
  {
    hide Settled, Run, AcceptedChanges, DispatchesOf;
    RunIsLogged(header, commits);
    FollowsDispatches(AcceptedChanges(Initial(header), commits), Run(Initial(header), commits), e);
  }

  lemma FollowsDispatches(log: seq<Change>, s: Session, e: Id)
    requires Settled(s) && Follows(log, s.state)
    ensures if e in s.state.effects then
        && DispatchesOf(log, e) == s.state.effects[e].dispatches
        && |DispatchesOf(log, e)| <= if s.state.effects[e].policy.Repeatable? then 2 else 1
      else DispatchesOf(log, e) == []
  {
    SettledIs(s);
    InvParts(s);
    hide Settled, Inv, StateOk, DispatchesOf, QueueFollows;
    LivesOk(s.state);
  }
}
