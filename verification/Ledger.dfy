/**
 * The append-only event ledger (src/tokenshare/storage/events.py): event envelopes,
 * idempotent append, atomic batch append, and the class that performs them in place.
 */
module Ledger {
  import opened Basics
  import opened Objects

  /** Idempotency keys, one constructor for each key shape the engine prints. */
  datatype Key =
    | RootUnitKey(unitId: string)
    | UnitCreateKey(unitId: string)
    | RelationKey(relationId: string)
    | LeaseCreateKey(leaseId: string)
    | LeaseHeartbeatKey(leaseId: string, count: int)
    | LeaseTerminalKey(leaseId: string, leaseAfter: LeaseState)
    | AttemptStateKey(attemptId: string, attemptBefore: Option<AttemptState>, attemptAfter: AttemptState, tag: KeyTag)
    | UnitStateKey(unitId: string, unitBefore: TaskState, unitAfter: TaskState, tag: KeyTag)
    | SubmissionKey(submissionId: string)
    | VerificationKey(submissionId: string, policyId: string)
    | CanonicalKey(taskId: string, unitId: string)
    | RecoveryKey(unitId: string, trigger: RetryTrigger, attemptId: string, retryCount: int)
    | DecisionKey(scope: string)
    | ProposalKey(scope: string, proposalDigest: string)
    | MergePlanKey(scope: string, proposalDigest: string, plan: MergePlan)
    | TaskExpandedKey(decisionId: string)
    | MergeLinkKey(mergePlanId: string)
    | MergeRecordKey(mergePlanId: string, mergeUnitId: string, selectionId: string)
    | ResolvedKey(expectedOutputId: string, recordId: string)
    | ContributionCreateKey(contributionId: string, created: ContributionState)
    | ContributionEligibleKey(contributionId: string, resolved: seq<ResolvedOutput>)
    | ContributionSettledKey(contributionId: string, root: RootCompletion)
    | SettlementKey(root: RootCompletion)
    | PrunedKey(unitId: string, completionSeq: int)

  datatype KeyTag =
    | Correlation(id: string)
    | ByVerification(reportId: string)
    | BySelection(selectionId: string)
    | ByDecision(decisionId: string)
    | ByParentCompletion(resolved: seq<ResolvedOutput>)
    | ByPruning(completionSeq: int)

  datatype BatchId =
    | ScheduleBatch(attemptId: string)
    | RecoveryBatch(actionId: string)
    | CompletionBatch(decisionId: string)
    | ExpansionBatch(decisionId: string)
    | MergeTaskBatch(mergePlanId: string)
    | MergeResolutionBatch(recordId: string)
    | ParentCompletionBatch(ownerUnitId: string, resolved: seq<ResolvedOutput>)
    | SettlementBatch(root: RootCompletion)
    | PruningBatch(parentUnitId: string, completionSeq: int)

  datatype DecisionAction = Complete | Expand

  datatype ExpansionDecision = ExpansionDecision(
    decisionId: string,
    taskId: string,
    unitId: string,
    selectionId: string,
    bundleDigest: OutputRefs,
    scope: string,
    action: DecisionAction,
    decidedAt: string)

  /** Why a unit changed state, with the part of the event payload later steps read back. */
  datatype UnitCause =
    | Scheduled(correlationId: string)
    | Recovered(retryCount: int, correlationId: string)
    | DecisionAccepted(decisionId: string)
    | OutputsResolved(resolved: seq<ResolvedOutput>)
    | ChildFailed(childUnitId: string, correlationId: string)
    | DependencyReady(correlationId: string)
    | PrunedBy(parentUnitId: string, completionSeq: int)

  datatype Payload =
    | UnitCreated(unit: TaskUnit)
    | UnitChanged(oldUnitState: TaskState, unit: TaskUnit, cause: UnitCause)
    | RelationCreated(relation: TaskRelation)
    | LeaseChanged(
        oldLeaseState: Option<LeaseState>,
        lease: Lease,
        scheduling: Option<SchedulingDecision>,
        reason: string,
        correlationId: string)
    | AttemptChanged(oldAttemptState: Option<AttemptState>, attempt: Attempt, reason: string, correlationId: string)
    | RecoveryRecorded(actionId: string, decision: RetryDecision, leaseId: string, attemptId: string,
                       recoveredUnit: string)
    | SubmissionRecorded(submission: Submission, rejection: Option<Rejection>)
    | VerificationRecorded(report: VerificationReport)
    | CanonicalBound(selection: CanonicalSelection)
    | DecisionRecorded(expansion: ExpansionDecision)
    | ProposalRecorded(proposalId: string, proposalDigest: string, childCount: int)
    | MergePlanRecorded(plan: MergePlan)
    | TaskExpanded(decisionId: string, parentUnitId: string, childUnitIds: seq<string>, relationIds: seq<string>)
    | MergeTaskLinked(link: MergeTaskLink)
    | MergeRecorded(record: MergeRecord)
    | OutputResolved(resolution: OutputResolution)
    | ContributionChanged(
        oldContributionState: Option<ContributionState>,
        contribution: ContributionRecord,
        entry: Option<SettlementEntry>)
    | SettlementRecorded(settlement: SettlementRecord)
    | SubtreePruned(prune: SubtreePruneRecord, cancelledIds: seq<string>)

  /** An event before the ledger gives it a sequence number. The payload fixes type, object and task. */
  datatype Draft = Draft(key: Key, payload: Payload, occurredAt: string)

  datatype BatchTag = BatchTag(id: BatchId, index: int, size: int)

  datatype Event = Event(seqNo: int, draft: Draft, tag: Option<BatchTag>) {
    function Payload(): Payload { draft.payload }
    function Key(): Key { draft.key }
    predicate InBatch(id: BatchId) { tag.Some? && tag.value.id == id }
  }

  type Events = seq<Event>

  // ---------------------------------------------------------------- specification

  /** The recorded event that owns a key. */
  ghost function Lookup(log: Events, key: Key): Option<Event> {
    if log == [] then None
    else if log[|log| - 1].Key() == key then Some(log[|log| - 1])
    else Lookup(log[..|log| - 1], key)
  }

  ghost predicate HasBatch(log: Events, id: BatchId) {
    exists i :: 0 <= i < |log| && log[i].InBatch(id)
  }

  ghost function Stamp(base: nat, id: BatchId, drafts: seq<Draft>): (events: Events)
    ensures |events| == |drafts|
  {
    seq(|drafts|, j requires 0 <= j < |drafts| =>
      Event(base + j + 1, drafts[j], Some(BatchTag(id, j + 1, |drafts|))))
  }

  ghost predicate DistinctKeys(drafts: seq<Draft>) {
    forall i, j :: 0 <= i < j < |drafts| ==> drafts[i].key != drafts[j].key
  }

  /** The log after a single append; unchanged when the key is already recorded with this payload. */
  ghost function Append(log: Events, draft: Draft): Result<Events> {
    match Lookup(log, draft.key)
    case Some(event) =>
      if event.Payload() == draft.payload then Ok(log) else Err(KeyConflict)
    case None => Ok(log + [Event(|log| + 1, draft, None)])
  }

  ghost predicate MatchesRecorded(log: Events, id: BatchId, drafts: seq<Draft>) {
    forall j :: 0 <= j < |drafts| ==>
      && Lookup(log, drafts[j].key).Some?
      && Lookup(log, drafts[j].key).value.Payload() == drafts[j].payload
      && Lookup(log, drafts[j].key).value.tag == Some(BatchTag(id, j + 1, |drafts|))
  }

  ghost predicate AllRecorded(log: Events, drafts: seq<Draft>) {
    forall j :: 0 <= j < |drafts| ==> Lookup(log, drafts[j].key).Some?
  }

  ghost predicate NoneRecorded(log: Events, drafts: seq<Draft>) {
    forall j :: 0 <= j < |drafts| ==> Lookup(log, drafts[j].key).None?
  }

  /** The log after a batch append: all drafts or none of them. */
  ghost function AppendBatch(log: Events, drafts: seq<Draft>, id: BatchId): Result<Events> {
    if drafts == [] then Err(EmptyBatch)
    else if !DistinctKeys(drafts) then Err(DuplicateKeyInBatch)
    else if AllRecorded(log, drafts) then
      if MatchesRecorded(log, id, drafts) then Ok(log) else Err(KeyConflict)
    else if !NoneRecorded(log, drafts) then Err(PartialBatch)
    else if HasBatch(log, id) then Err(BatchIdConflict)
    else Ok(log + Stamp(|log|, id, drafts))
  }

  /** One ledger call of an engine step. */
  datatype Write = One(draft: Draft) | Batch(id: BatchId, drafts: seq<Draft>) {
    function Drafts(): seq<Draft> {
      match this
      case One(d) => [d]
      case Batch(_, ds) => ds
    }
  }

  ghost function Apply(log: Events, write: Write): Result<Events> {
    match write
    case One(draft) => Append(log, draft)
    case Batch(id, drafts) => AppendBatch(log, drafts, id)
  }

  /** A step's ledger calls in order; a call that raises stops the step but undoes nothing. */
  ghost function Commit(log: Events, writes: seq<Write>): Events
    decreases writes
  {
    if writes == [] then log
    else match Apply(log, writes[0])
      case Ok(next) => Commit(next, writes[1..])
      case Err(_) => log
  }

  /** Whether every ledger call of the step goes through. */
  ghost predicate Commits(log: Events, writes: seq<Write>)
    decreases writes
  {
    writes == [] || (Apply(log, writes[0]).Ok? && Commits(Apply(log, writes[0]).value, writes[1..]))
  }

  /** A step of one append. */
  lemma {:induction false} OneAppend(log: Events, d: Draft)
    ensures Commits(log, [One(d)]) <==> Append(log, d).Ok?
    ensures Commit(log, [One(d)]) == if Append(log, d).Ok? then Append(log, d).value else log
  {
    assert [One(d)][1..] == [];
  }

  /** A step of one batch. */
  lemma {:induction false} OneBatchAppend(log: Events, id: BatchId, drafts: seq<Draft>)
    ensures Commits(log, [Batch(id, drafts)]) <==> AppendBatch(log, drafts, id).Ok?
    ensures Commit(log, [Batch(id, drafts)])
      == if AppendBatch(log, drafts, id).Ok? then AppendBatch(log, drafts, id).value else log
  {
    assert [Batch(id, drafts)][1..] == [];
  }

  // ---------------------------------------------------------------- what every ledger keeps

  ghost predicate SeqNosCount(log: Events) {
    forall i :: 0 <= i < |log| ==> log[i].seqNo == i + 1
  }

  ghost predicate KeysUnique(log: Events) {
    forall i, j :: 0 <= i < j < |log| ==> log[i].Key() != log[j].Key()
  }

  /** The event at `i` sits in an unbroken run `1..size` of its batch, and its batch is nowhere else. */
  ghost predicate BatchWhole(log: Events, i: nat)
    requires i < |log|
  {
    log[i].tag.Some? ==>
      var t := log[i].tag.value;
      var start := i + 1 - t.index;
      && 1 <= t.index <= t.size
      && 0 <= start && start + t.size <= |log|
      && (forall k :: start <= k < start + t.size ==> log[k].tag == Some(BatchTag(t.id, k - start + 1, t.size)))
      && (forall k :: 0 <= k < |log| && log[k].InBatch(t.id) ==> start <= k < start + t.size)
  }

  ghost predicate WellFormed(log: Events) {
    && SeqNosCount(log)
    && KeysUnique(log)
    && (forall i :: 0 <= i < |log| ==> BatchWhole(log, i))
  }

  lemma {:induction false} LookupFinds(log: Events, key: Key)
    ensures Lookup(log, key).Some? <==> exists i :: 0 <= i < |log| && log[i].Key() == key
    ensures Lookup(log, key).Some? ==>
      exists i :: 0 <= i < |log| && log[i] == Lookup(log, key).value && log[i].Key() == key
  {
    if log != [] {
      var last := |log| - 1;
      LookupFinds(log[..last], key);
      if log[last].Key() != key {
        assert forall i :: 0 <= i < last ==> log[..last][i] == log[i];
      }
    }
  }

  lemma {:induction false} LookupNone(log: Events, key: Key)
    requires Lookup(log, key).None?
    ensures forall i :: 0 <= i < |log| ==> log[i].Key() != key
  {
    LookupFinds(log, key);
  }

  lemma {:induction false} LookupUnique(log: Events, i: nat)
    requires i < |log| && KeysUnique(log)
    ensures Lookup(log, log[i].Key()) == Some(log[i])
  {
    LookupFinds(log, log[i].Key());
  }

  lemma {:induction false} AppendKeepsWellFormed(log: Events, draft: Draft)
    requires WellFormed(log) && Append(log, draft).Ok?
    ensures WellFormed(Append(log, draft).value)
    ensures log <= Append(log, draft).value
  {
    var next := Append(log, draft).value;
    if Lookup(log, draft.key).None? {
      LookupNone(log, draft.key);
      forall i | 0 <= i < |next| ensures BatchWhole(next, i) {
        if i < |log| {
          assert BatchWhole(log, i);
        }
      }
    }
  }

  lemma {:induction false} NewKeysStayUnique(log: Events, drafts: seq<Draft>, id: BatchId)
    requires KeysUnique(log) && DistinctKeys(drafts) && NoneRecorded(log, drafts)
    ensures KeysUnique(log + Stamp(|log|, id, drafts))
  {
    forall j | 0 <= j < |drafts| ensures forall i :: 0 <= i < |log| ==> log[i].Key() != drafts[j].key {
      LookupNone(log, drafts[j].key);
    }
  }

  lemma {:induction false} StampKeepsBatchWhole(log: Events, drafts: seq<Draft>, id: BatchId, i: nat)
    requires !HasBatch(log, id) && i < |log| + |drafts|
    requires i < |log| ==> BatchWhole(log, i)
    ensures BatchWhole(log + Stamp(|log|, id, drafts), i)
  {
    var next := log + Stamp(|log|, id, drafts);
    if i >= |log| {
      assert forall k :: 0 <= k < |next| && next[k].InBatch(id) ==> |log| <= k;
    }
  }

  lemma {:induction false} AppendBatchKeepsWellFormed(log: Events, drafts: seq<Draft>, id: BatchId)
    requires WellFormed(log) && AppendBatch(log, drafts, id).Ok?
    ensures WellFormed(AppendBatch(log, drafts, id).value)
    ensures log <= AppendBatch(log, drafts, id).value
  {
    var next := AppendBatch(log, drafts, id).value;
    if next != log {
      NewKeysStayUnique(log, drafts, id);
      forall i | 0 <= i < |next| ensures BatchWhole(next, i) {
        if i < |log| { assert BatchWhole(log, i); }
        StampKeepsBatchWhole(log, drafts, id, i);
      }
    }
  }

  /** A batch whose id is taken adds nothing: it is found as recorded, or the call raises. */
  lemma {:induction false} BatchOnRecord(log: Events, id: BatchId, drafts: seq<Draft>)
    requires HasBatch(log, id)
    ensures Commit(log, [Batch(id, drafts)]) == log
  {
    OneBatchAppend(log, id, drafts);
  }

  /** Every step keeps the ledger well formed and only ever extends it. */
  lemma {:induction false} CommitKeepsWellFormed(log: Events, writes: seq<Write>)
    requires WellFormed(log)
    ensures WellFormed(Commit(log, writes)) && log <= Commit(log, writes)
    decreases writes
  {
    if writes != [] && Apply(log, writes[0]).Ok? {
      match writes[0] {
        case One(draft) => AppendKeepsWellFormed(log, draft);
        case Batch(id, drafts) => AppendBatchKeepsWellFormed(log, drafts, id);
      }
      CommitKeepsWellFormed(Apply(log, writes[0]).value, writes[1..]);
    }
  }

  ghost function AllDrafts(writes: seq<Write>): seq<Draft> {
    if writes == [] then [] else writes[0].Drafts() + AllDrafts(writes[1..])
  }

  /** What a step adds are its own drafts and nothing else. */
  lemma {:induction false} CommitAddsOnlyDrafts(log: Events, writes: seq<Write>)
    ensures log <= Commit(log, writes)
    ensures forall i :: |log| <= i < |Commit(log, writes)| ==> Commit(log, writes)[i].draft in AllDrafts(writes)
    decreases writes
  {
    if writes != [] && Apply(log, writes[0]).Ok? {
      var next := Apply(log, writes[0]).value;
      assert log <= next;
      CommitAddsOnlyDrafts(next, writes[1..]);
      var last := Commit(next, writes[1..]);
      forall i | |log| <= i < |last| ensures last[i].draft in AllDrafts(writes) {
        if i < |next| {
          assert last[i] == next[i];
          assert next[i].draft in writes[0].Drafts();
        }
      }
    }
  }

  /** Recording a step a second time appends nothing: every call finds what the first one wrote. */
  lemma {:induction false} CommitIdempotent(log: Events, writes: seq<Write>)
    requires WellFormed(log) && Commits(log, writes)
    ensures Commits(Commit(log, writes), writes)
    ensures Commit(Commit(log, writes), writes) == Commit(log, writes)
  {
    var done := Commit(log, writes);
    CommitKeepsWellFormed(log, writes);
    forall k | 0 <= k < |writes| ensures Apply(done, writes[k]) == Ok(done) {
      WriteIsRecorded(log, writes, k);
    }
    ReplayAppendsNothing(done, writes);
  }

  lemma {:induction false} ReplayAppendsNothing(log: Events, writes: seq<Write>)
    requires forall k :: 0 <= k < |writes| ==> Apply(log, writes[k]) == Ok(log)
    ensures Commits(log, writes) && Commit(log, writes) == log
  {
    if writes != [] {
      assert forall k :: 0 <= k < |writes[1..]| ==> writes[1..][k] == writes[k + 1];
      ReplayAppendsNothing(log, writes[1..]);
    }
  }

  lemma {:induction false} WriteIsRecorded(log: Events, writes: seq<Write>, k: nat)
    requires WellFormed(log) && Commits(log, writes) && k < |writes|
    ensures Apply(Commit(log, writes), writes[k]) == Ok(Commit(log, writes))
    decreases k
  {
    var next := Apply(log, writes[0]).value;
    var done := Commit(log, writes);
    CommitKeepsWellFormed(log, [writes[0]]);
    assert Commit(log, [writes[0]]) == next;
    if k > 0 {
      WriteIsRecorded(next, writes[1..], k - 1);
    } else {
      CommitKeepsWellFormed(next, writes[1..]);
      forall d | d in writes[0].Drafts() ensures Lookup(done, d.key) == Lookup(next, d.key) {
        DraftRecorded(log, writes[0], d);
        LookupFinds(next, d.key);
        var i :| 0 <= i < |next| && next[i] == Lookup(next, d.key).value && next[i].Key() == d.key;
        assert done[i] == next[i];
        LookupUnique(done, i);
      }
      ApplyAgainSame(log, writes[0]);
      SameLookupsSameAnswer(next, done, writes[0]);
    }
  }

  /** A call answered from the record is answered alike by every ledger that finds the same events. */
  lemma {:induction false} SameLookupsSameAnswer(next: Events, done: Events, write: Write)
    requires Apply(next, write) == Ok(next)
    requires forall d :: d in write.Drafts() ==> Lookup(next, d.key).Some? && Lookup(done, d.key) == Lookup(next, d.key)
    ensures Apply(done, write) == Ok(done)
  {
    match write {
      case One(d) => assert d in write.Drafts();
      case Batch(id, ds) =>
        assert forall j :: 0 <= j < |ds| ==> ds[j] in write.Drafts();
        assert MatchesRecorded(done, id, ds);
        assert AllRecorded(done, ds);
    }
  }

  lemma {:induction false} DraftRecorded(log: Events, write: Write, draft: Draft)
    requires Apply(log, write).Ok? && draft in write.Drafts()
    ensures Lookup(Apply(log, write).value, draft.key).Some?
  {
    var next := Apply(log, write).value;
    LookupFinds(next, draft.key);
    if next != log {
      match write {
        case One(d) => assert next[|log|].Key() == draft.key;
        case Batch(id, ds) =>
          var j :| 0 <= j < |ds| && ds[j] == draft;
          assert next[|log| + j].Key() == draft.key;
      }
    }
  }

  /** Making the same call again right away succeeds without appending. */
  lemma {:induction false} ApplyAgainSame(log: Events, write: Write)
    requires WellFormed(log) && Apply(log, write).Ok?
    ensures Apply(Apply(log, write).value, write) == Ok(Apply(log, write).value)
  {
    match write {
      case One(d) =>
        AppendKeepsWellFormed(log, d);
        var next := Append(log, d).value;
        if next != log {
          LookupUnique(next, |log|);
        }
      case Batch(id, ds) => BatchAgainSame(log, ds, id);
    }
  }

  lemma {:induction false} BatchAgainSame(log: Events, drafts: seq<Draft>, id: BatchId)
    requires WellFormed(log) && AppendBatch(log, drafts, id).Ok?
    ensures AppendBatch(AppendBatch(log, drafts, id).value, drafts, id) == AppendBatch(log, drafts, id)
  {
    var next := AppendBatch(log, drafts, id).value;
    AppendBatchKeepsWellFormed(log, drafts, id);
    if next != log {
      forall j | 0 <= j < |drafts|
        ensures Lookup(next, drafts[j].key) == Some(Stamp(|log|, id, drafts)[j])
      {
        LookupUnique(next, |log| + j);
      }
      assert AllRecorded(next, drafts);
      assert MatchesRecorded(next, id, drafts);
    }
  }

  // ---------------------------------------------------------------- what one step can add

  /** A single append leaves the ledger alone or adds its draft. */
  lemma {:induction false} AppendAdds(log: Events, d: Draft)
    ensures Commit(log, [One(d)]) == log || Commit(log, [One(d)]) == log + [Event(|log| + 1, d, None)]
  {
    OneAppend(log, d);
  }

  /** Two appends add both drafts, the first, the second, or none. */
  lemma {:induction false} TwoAppends(log: Events, d: Draft, e: Draft)
    ensures Commit(log, [One(d), One(e)]) ==
      match Append(log, d) case Ok(mid) => Commit(mid, [One(e)]) case Err(_) => log
  {
    assert [One(d), One(e)][1..] == [One(e)];
  }

  /** A batch leaves the ledger alone or adds all its drafts. */
  lemma {:induction false} BatchAdds(log: Events, id: BatchId, drafts: seq<Draft>)
    ensures Commit(log, [Batch(id, drafts)]) == log
      || (Commit(log, [Batch(id, drafts)]) == log + Stamp(|log|, id, drafts) && !HasBatch(log, id)
          && DistinctKeys(drafts))
  {
    OneBatchAppend(log, id, drafts);
  }

  /** A batch whose keys and id are all new is appended. */
  lemma {:induction false} NewBatchIsAppended(log: Events, id: BatchId, drafts: seq<Draft>)
    requires drafts != [] && DistinctKeys(drafts) && NoneRecorded(log, drafts) && !HasBatch(log, id)
    ensures Commit(log, [Batch(id, drafts)]) == log + Stamp(|log|, id, drafts)
  {
    assert Lookup(log, drafts[0].key).None?;
    OneBatchAppend(log, id, drafts);
  }
}
