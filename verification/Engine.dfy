/**
 * The engine object (src/tokenshare/protocol_engine.py:236-1990): each method reads the ledger, decides, and
 * appends in place exactly the calls its specification in `Steps` names, succeeding exactly when they do.
 * A transition taken with `.value` cannot be refused: the checks before it fix the state it starts from.
 */
module Engine {
  import opened Basics
  import opened Objects
  import opened Snapshots
  import Order
  import opened Ledger
  import opened EventLedgers
  import opened Batches
  import opened Lifecycles
  import opened TaskGraphs
  import opened Scheduling
  import opened Projections
  import opened Verification
  import opened Expansion
  import opened Plans
  import opened Merging
  import opened Contributions
  import opened Completions
  import Settlement
  import opened RootSettlement
  import opened Pruning
  import opened Steps

  class ProtocolEngine {
    const cfg: ProtocolConfig
    const ledger: EventLedger

    constructor (cfg: ProtocolConfig, ledger: EventLedger)
      ensures this.cfg == cfg && this.ledger == ledger
    {
      this.cfg, this.ledger := cfg, ledger;
    }

    // -------------------------------------------------------------- ledger calls

    method AppendOne(d: Draft) returns (r: Result<()>)
      requires ledger.Valid()
      modifies ledger
      ensures ledger.Valid() && ledger.events == Commit(old(ledger.events), [One(d)])
      ensures r.Ok? <==> Commits(old(ledger.events), [One(d)])
    {
      OneAppend(ledger.events, d);
      var _ :- ledger.Append(d);
      r := Ok(());
    }

    method AppendTwo(d: Draft, e: Draft) returns (r: Result<()>)
      requires ledger.Valid()
      modifies ledger
      ensures ledger.Valid() && ledger.events == Commit(old(ledger.events), [One(d), One(e)])
      ensures r.Ok? <==> Commits(old(ledger.events), [One(d), One(e)])
    {
      assert [One(d), One(e)][1..] == [One(e)];
      var _ :- ledger.Append(d);
      r := AppendOne(e);
    }

    method AppendAll(id: BatchId, drafts: seq<Draft>) returns (r: Result<()>)
      requires ledger.Valid()
      modifies ledger
      ensures ledger.Valid() && ledger.events == Commit(old(ledger.events), [Batch(id, drafts)])
      ensures r.Ok? <==> Commits(old(ledger.events), [Batch(id, drafts)])
    {
      OneBatchAppend(ledger.events, id, drafts);
      var _ :- ledger.AppendBatch(drafts, id);
      r := Ok(());
    }

    // -------------------------------------------------------------- scheduling and leases

    method ScheduleReadyUnit(q: ScheduleRequest) returns (r: Result<()>)
      requires ledger.Valid() && q.graph.IsDict() && GraphOk(q.graph)
      modifies ledger
      ensures ledger.Valid() && ledger.events == After(old(ledger.events), ScheduleWrites(cfg, old(ledger.events), q))
      ensures r.Ok? <==> Succeeds(old(ledger.events), ScheduleWrites(cfg, old(ledger.events), q))
    {
      var recorded := ActiveLeasesByUnit(ledger.events);
      var active := recorded + q.suppliedActive;
      var choice, queued := SelectNext(q.graph, q.clients, cfg.allowShadowExecution, active, q.allowed);
      if choice.None? { return Err(NothingToSchedule); }
      var (unitId, client) := choice.value;
      SelectedIsLeast(q.graph, q.clients, cfg.allowShadowExecution, active, q.allowed);
      var decision := DecisionOf(q, unitId, client, queued);
      var claim := Claim(cfg, decision, q.graph.units[unitId], q.leaseId, q.attemptId, q.fencingToken, q.now);
      var processing := TransitionUnit(claim.unit, TaskState.Processing, q.now).value;
      r := AppendAll(ScheduleBatch(q.attemptId), ScheduleDrafts(claim, processing, q.now, q.correlationId));
    }

    method RecordLeaseHeartbeat(lease: Lease, now: string, correlationId: string) returns (r: Result<()>)
      requires ledger.Valid()
      modifies ledger
      ensures ledger.Valid()
      ensures ledger.events == After(old(ledger.events),
                                     HeartbeatWrites(cfg, old(ledger.events), lease, now, correlationId))
      ensures r.Ok?
        <==> Succeeds(old(ledger.events), HeartbeatWrites(cfg, old(ledger.events), lease, now, correlationId))
    {
      var authoritative :- FindAuthoritativeLease(ledger.events, lease);
      var renewed :- Lifecycles.Heartbeat(cfg, authoritative, now);
      r := AppendOne(HeartbeatDraft(renewed, now, correlationId));
    }

    // -------------------------------------------------------------- submission, verification, binding

    method RecordSubmission(s: Submission, attempt: Attempt, lease: Lease, correlationId: string)
      returns (r: Result<()>)
      requires ledger.Valid()
      modifies ledger
      ensures ledger.Valid()
      ensures ledger.events == After(old(ledger.events),
                                     SubmitWrites(cfg, old(ledger.events), s, attempt, lease, correlationId))
      ensures r.Ok?
        <==> Succeeds(old(ledger.events), SubmitWrites(cfg, old(ledger.events), s, attempt, lease, correlationId))
    {
      var ownAttempt :- FindAuthoritativeAttempt(ledger.events, attempt);
      var ownLease :- FindAuthoritativeLease(ledger.events, lease);
      var rejection := SubmissionRejection(cfg.clock, s, ownAttempt, ownLease);
      if rejection.Some? {
        r := AppendOne(SubmissionDraft(s, rejection));
        return;
      }
      var submitted := SubmitAttempt(ownAttempt, s).value;
      r := AppendTwo(SubmissionDraft(s, None), SubmittedDraft(submitted, s, correlationId));
    }

    method RecordVerification(report: VerificationReport, attempt: Attempt, correlationId: string)
      returns (r: Result<()>)
      requires ledger.Valid()
      modifies ledger
      ensures ledger.Valid()
      ensures ledger.events == After(old(ledger.events), VerifyWrites(report, attempt, correlationId))
      ensures r.Ok? <==> Succeeds(old(ledger.events), VerifyWrites(report, attempt, correlationId))
    {
      var valid :- ValidateReport(report, attempt);
      if valid.status.Error? {
        r := AppendOne(VerificationDraft(valid));
        return;
      }
      var verified := VerifyAttempt(attempt, valid).value;
      r := AppendTwo(VerificationDraft(valid), VerifiedDraft(verified, valid, correlationId));
    }

    method BindCanonicalOutputs(q: BindRequest) returns (r: Result<()>)
      requires ledger.Valid()
      modifies ledger
      ensures ledger.Valid() && ledger.events == After(old(ledger.events), BindWrites(old(ledger.events), q))
      ensures r.Ok? <==> Succeeds(old(ledger.events), BindWrites(old(ledger.events), q))
    {
      var recorded := CheckRecorded(ledger.events, q.presented);
      if !recorded { return Err(VerificationNotRecorded); }
      var selection :- SelectFirstVerifiedBundle(q.presented, q.taskId, q.unitId, q.now);
      var existing := FindCanonical(ledger.events, q.taskId, q.unitId);
      if existing.Some? {
        ExistingCanonicalFinds(ledger.events, q.taskId, q.unitId);
        if !SameCommitment(existing.value.Payload().selection, selection) {
          return Err(AlreadyBound);
        }
        return Ok(());
      }
      if selection.attemptId !in q.attempts { return Err(SelectedAttemptMissing); }
      var attempt := q.attempts[selection.attemptId];
      if !attempt.state.Verified? { return Err(SelectedAttemptNotVerified); }
      var canonical := CanonicalAttempt(attempt, selection, q.now).value;
      r := AppendTwo(CanonicalDraft(selection, q.now),
                     CanonicalAttemptDraft(canonical, selection, q.correlationId, q.now));
    }

    // -------------------------------------------------------------- recovery

    method SnapshotsAreLatest(q: RecoverRequest) returns (latest: bool)
      ensures latest <==>
        IsLatest(ledger.events, q) && (!WasTerminal(q) || LatestAttempt(ledger.events, q.attempt.attemptId).Some?)
    {
      var lease := FindLatestLease(ledger.events, q.lease.leaseId);
      if lease.Some? && lease.value != q.lease { return false; }
      var attempt := FindLatestAttempt(ledger.events, q.attempt.attemptId);
      if attempt.Some? && attempt.value != Normalized(q.attempt) { return false; }
      latest := !WasTerminal(q) || attempt.Some?;
    }

    /** The checks before the transitions of a recovery. */
    method RecoveryIsAllowed(q: RecoverRequest) returns (r: Result<()>)
      ensures r.Ok? <==> RecoveryFault(cfg, ledger.events, q).None?
    {
      var decision :- EvaluateRetry(q.decision.trigger, q.decision.retryCount, cfg.maxRetries);
      if q.decision != decision { return Err(OtherRetryDecision); }
      if !SameExecution(q.lease, q.attempt, q.unit) { return Err(OtherExecution); }
      var replayed := ledger.BatchIdTaken(RecoveryBatch(q.actionId));
      if !replayed {
        var latest := SnapshotsAreLatest(q);
        if !latest { return Err(NotLatestSnapshot); }
      }
      r := Ok(());
    }

    method RecordRecovery(q: RecoverRequest) returns (r: Result<()>)
      requires ledger.Valid()
      modifies ledger
      ensures ledger.Valid() && ledger.events == After(old(ledger.events), RecoverWrites(cfg, old(ledger.events), q))
      ensures r.Ok? <==> Succeeds(old(ledger.events), RecoverWrites(cfg, old(ledger.events), q))
    {
      var _ :- RecoveryIsAllowed(q);
      var recovered :- RecoveredPair(cfg, q);
      var unit :- TransitionUnit(q.unit, q.decision.nextTaskState, q.now);
      r := AppendAll(RecoveryBatch(q.actionId), RecoveryDrafts(q, recovered.0, recovered.1, unit));
    }

    // -------------------------------------------------------------- decisions

    method RecordCompleteDecision(q: CompleteRequest) returns (r: Result<()>)
      requires ledger.Valid()
      modifies ledger
      ensures ledger.Valid() && ledger.events == After(old(ledger.events), CompleteWrites(old(ledger.events), q))
      ensures r.Ok? <==> Succeeds(old(ledger.events), CompleteWrites(old(ledger.events), q))
    {
      if !q.decision.action.Complete? { return Err(OtherAction); }
      if !DecisionMatches(q.decision, q.unit) { return Err(UnitNotProcessing); }
      var _ :- DecisionSelection(ledger.events, q.decision);
      if !q.documentsOk { return Err(DocumentsMismatch); }
      var completed := TransitionUnit(q.unit, TaskState.Completed, q.decision.decidedAt).value;
      r := AppendAll(CompletionBatch(q.decision.decisionId),
                     [DecisionDraft(q.decision),
                      UnitDraft(TaskState.Processing, completed, DecisionAccepted(q.decision.decisionId),
                                ByDecision(q.decision.decisionId), q.decision.decidedAt)]);
    }

    method RecordExpandDecision(q: ExpandRequest) returns (r: Result<()>)
      requires ledger.Valid() && q.graph.IsDict() && GraphOk(q.graph) && ProposalOk(q.proposal) && PlanOk(q.plan)
      modifies ledger
      ensures ledger.Valid() && ledger.events == After(old(ledger.events), ExpandWrites(old(ledger.events), q))
      ensures r.Ok? <==> Succeeds(old(ledger.events), ExpandWrites(old(ledger.events), q))
    {
      if !q.decision.action.Expand? { return Err(OtherAction); }
      if !DecisionMatches(q.decision, q.parent) { return Err(UnitNotProcessing); }
      var selection :- DecisionSelection(ledger.events, q.decision);
      if q.parent.unitId !in q.graph.units || q.graph.units[q.parent.unitId].taskId != q.parent.taskId {
        return Err(UnknownUnit);
      }
      if !q.documentsOk || !UnitTypesAllowed(q.proposal, q.allowedUnitTypes) { return Err(DocumentsMismatch); }
      var _ :- CheckLimits(q.proposal, q.graph.config, q.parent.depth, |q.graph.units|, q.parentOutputs,
                           q.strategyChildren);
      var x := ExpandingOf(q, selection);
      var children :- BuildChildUnits(x);
      if !SlotsNameChildren(q.plan, x) { return Err(SlotOfOtherChild); }
      r := AppendAll(ExpansionBatch(q.decision.decisionId), ExpandDrafts(q, x, children));
    }

    // -------------------------------------------------------------- merging and completion

    method CreateReadyMergeTask(q: MergeTaskRequest) returns (r: Result<()>)
      requires ledger.Valid()
      modifies ledger
      ensures ledger.Valid() && ledger.events == After(old(ledger.events), MergeTaskWrites(old(ledger.events), q))
      ensures r.Ok? <==> Succeeds(old(ledger.events), MergeTaskWrites(old(ledger.events), q))
    {
      if !SelectionOk(q.selected) { return Err(RepeatedChildSelected); }
      if !q.planEvent.Payload().MergePlanRecorded? { return Err(MergePlanMissing); }
      if !ExpansionVisible(ViewOf(q.views, q.planEvent)) { return Err(TornExpansion); }
      var plan := q.planEvent.Payload().plan;
      var _ :- ValidatePlan(plan);
      var byUnit := CollectCanonical(q.canonicalEvents);
      var bindings :- BuildSlotBindings(plan.requiredSlots, byUnit, SelectedSet(q.selected));
      if plan.parentUnitId !in q.graph.units { return Err(UnknownUnit); }
      WantedMembers(plan.requiredSlots, SelectedSet(q.selected));
      BindingListAt(WantedSlots(plan.requiredSlots, SelectedSet(q.selected)), byUnit, bindings);
      r := AppendAll(MergeTaskBatch(plan.mergePlanId),
                     MergeTaskDrafts(plan, bindings, q.graph.units[plan.parentUnitId].depth, q.bundleRef, q.now));
    }

    /** `create_ready_merge_tasks`: the plan events in turn, until one raises. */
    method CreateReadyMergeTasks(inputs: MergeTaskInputs, planEvents: Events) returns (r: Result<()>)
      requires ledger.Valid()
      modifies ledger
      ensures ledger.Valid()
      ensures ledger.events == InTurn(cfg, old(ledger.events), MergeTaskSteps(inputs, planEvents)).0
      ensures r.Ok?
        <==> SelectionOk(inputs.selected) && InTurn(cfg, old(ledger.events), MergeTaskSteps(inputs, planEvents)).1
    {
      ghost var start := ledger.events;
      for i := 0 to |planEvents|
        invariant ledger.Valid()
        invariant (ledger.events, true) == InTurn(cfg, start, MergeTaskSteps(inputs, planEvents[..i]))
      {
        assert planEvents[..i + 1][..i] == planEvents[..i];
        if !planEvents[i].Payload().MergePlanRecorded? { continue; }
        NextMergeTask(cfg, start, MergeTaskSteps(inputs, planEvents[..i]), MergeTaskFor(inputs, planEvents[i]));
        r := CreateReadyMergeTask(MergeTaskFor(inputs, planEvents[i]));
        if r.Err? {
          ghost var more := MergeTaskStepsSplit(inputs, planEvents, i + 1);
          InTurnStops(cfg, start, MergeTaskSteps(inputs, planEvents[..i + 1]), more);
          return;
        }
      }
      assert planEvents[..|planEvents|] == planEvents;
      r := if SelectionOk(inputs.selected) then Ok(()) else Err(RepeatedChildSelected);
    }

    /** The resolutions cover exactly the mapped outputs, and each takes the record's output of its name. */
    method ResolutionsFit(record: MergeRecord, rs: seq<OutputResolution>) returns (fit: bool)
      ensures fit <==>
        rs != [] && Distinct(ResolutionIds(rs)) && ResolvedNames(rs) == MappedOutputs(record.mappingDigest)
        && forall r :: r in rs ==> ResolutionFits(r, record)
    {
      if rs == [] { return false; }
      var repeated := HasRepeat(ResolutionIds(rs));
      if repeated { return false; }
      if ResolvedNames(rs) != MappedOutputs(record.mappingDigest) { return false; }
      for i := 0 to |rs|
        invariant forall j :: 0 <= j < i ==> ResolutionFits(rs[j], record)
      {
        if !ResolutionFits(rs[i], record) { return false; }
      }
      fit := true;
    }

    method ResolutionIsValid(record: MergeRecord, rs: seq<OutputResolution>) returns (r: Result<()>)
      ensures r.Ok? <==> ValidateResolution(ledger.events, record, rs).Ok?
    {
      if HasTornResolution(ledger.events, record) { return Err(TornResolution); }
      if HasOtherRecord(ledger.events, record) { return Err(MergeRecordConflict); }
      var canonical :- MergeUnitCanonical(ledger.events, record);
      MergeUnitCanonicalFinds(ledger.events, record);
      var link :- LinkOfPlan(ledger.events, record);
      if !BundleMatches(record) { return Err(MergeBundleMismatch); }
      if !RecordMatchesLink(record, link) { return Err(MergeLinkMismatch); }
      if !RecordMatchesSelection(record, canonical.Payload().selection) { return Err(SelectionMismatch); }
      var fit := ResolutionsFit(record, rs);
      if !fit { return Err(OutputsNotResolved); }
      r := Ok(());
    }

    method RecordMergeResolution(record: MergeRecord, rs: seq<OutputResolution>, now: string) returns (r: Result<()>)
      requires ledger.Valid()
      modifies ledger
      ensures ledger.Valid() && ledger.events == After(old(ledger.events),
                                                       ResolveWrites(old(ledger.events), record, rs, now))
      ensures r.Ok? <==> Succeeds(old(ledger.events), ResolveWrites(old(ledger.events), record, rs, now))
    {
      var _ :- ResolutionIsValid(record, rs);
      r := AppendAll(MergeResolutionBatch(record.recordId), ResolutionDrafts(record, rs, now));
    }

    method RecordParentCompletion(q: CompletionRequest) returns (r: Result<()>)
      requires ledger.Valid()
      modifies ledger
      ensures ledger.Valid() && ledger.events == After(old(ledger.events), CompletionWrites(old(ledger.events), q))
      ensures r.Ok? <==> Succeeds(old(ledger.events), CompletionWrites(old(ledger.events), q))
    {
      var resolved := ResolvedSet(q.resolutions);
      var conflict := FindCompletionConflict(ledger.events, q.owner.unitId, resolved);
      if conflict { return Err(CompletionConflict); }
      var recorded :- RecordedResolutions(ledger.events);
      var complete := ValidateResolutions(q.owner, q.refs, q.resolutions, recorded);
      if !complete { return Err(OutputsNotResolved); }
      var completed :- TransitionUnit(q.owner, TaskState.Completed, q.now);
      var eligible :- CollectEligible(q.owner, q.refs, q.contributions, q.now);
      r := AppendAll(ParentCompletionBatch(q.owner.unitId, resolved),
                     CompletionDrafts(completed, eligible, resolved, q.now));
    }

    method RecordParentFailure(q: FailureRequest) returns (r: Result<()>)
      requires ledger.Valid()
      modifies ledger
      ensures ledger.Valid() && ledger.events == After(old(ledger.events), FailureWrites(old(ledger.events), q))
      ensures r.Ok? <==> Succeeds(old(ledger.events), FailureWrites(old(ledger.events), q))
    {
      if q.graph.taskId != q.parent.taskId || q.child.taskId != q.graph.taskId {
        return Err(OtherTask);
      }
      if !Current(q.graph, q.parent) || !Current(q.graph, q.child) { return Err(NotCurrentSnapshot); }
      if q.child.parentUnitId != Some(q.parent.unitId) || !q.child.state.Failed? {
        return Err(ChildNotFailed);
      }
      if !RecordsFailure(ledger.events, q.childEvent, q.child, q.graph.taskId) {
        return Err(FailureNotRecorded);
      }
      var failed :- TransitionUnit(q.parent, TaskState.Failed, q.now);
      r := AppendOne(UnitDraft(q.parent.state, failed, ChildFailed(q.child.unitId, q.correlationId),
                               Correlation(q.correlationId), q.now));
    }

    method RecordDependencyReady(q: ReadyRequest) returns (r: Result<()>)
      requires ledger.Valid() && q.graph.IsDict() && GraphOk(q.graph)
      modifies ledger
      ensures ledger.Valid() && ledger.events == After(old(ledger.events), ReadyWrites(q))
      ensures r.Ok? <==> Succeeds(old(ledger.events), ReadyWrites(q))
    {
      if !Current(q.graph, q.unit) { return Err(NotCurrentSnapshot); }
      var activatable := UnitsInState(q.graph, TaskState.Blocked);
      MovableMembers(q.graph, TaskState.Blocked, q.graph.order);
      DictMembers(q.graph);
      if q.unit.unitId !in activatable { return Err(DependenciesMissing); }
      var ready := TransitionUnit(q.unit, TaskState.Ready, q.now).value;
      r := AppendOne(UnitDraft(TaskState.Blocked, ready, DependencyReady(q.correlationId),
                               Correlation(q.correlationId), q.now));
    }

    // -------------------------------------------------------------- contributions, settlement, pruning

    /** One source batch, its contribution read off the ledger as it was before any of this call's contributions. */
    method RecordContribution(read: Events, kind: ContributionKind, taskId: string, source: BatchInput, now: string)
      returns (r: Result<()>)
      requires ledger.Valid() && CreditsOnly(read, ledger.events)
      modifies ledger
      ensures ledger.Valid() && CreditsOnly(read, ledger.events)
      ensures ledger.events == After(old(ledger.events), CreateWrites(old(ledger.events), kind, taskId, source, now))
      ensures r.Ok? <==> Succeeds(old(ledger.events), CreateWrites(old(ledger.events), kind, taskId, source, now))
    {
      ReadOnceIsEnough(kind, taskId, source, read, ledger.events);
      var c :- ContributionOf(kind, taskId, source, read);
      CreditKeepsCredits(read, ledger.events, CreationDraft(c, now));
      r := AppendOne(CreationDraft(c, now));
    }

    /** `record_canonical_contributions`: the source batches in turn, until one raises; the ledger is read once. */
    method RecordContributions(taskId: string, sources: seq<(ContributionKind, BatchInput)>, now: string)
      returns (r: Result<()>)
      requires ledger.Valid()
      modifies ledger
      ensures ledger.Valid()
      ensures (ledger.events, r.Ok?) == InTurn(cfg, old(ledger.events), ContributionSteps(taskId, sources, now))
    {
      var read := ledger.events;
      for i := 0 to |sources|
        invariant ledger.Valid() && CreditsOnly(read, ledger.events)
        invariant (ledger.events, true) == InTurn(cfg, read, ContributionSteps(taskId, sources[..i], now))
      {
        ContributionStepsAt(taskId, sources, i, now);
        NextContribution(cfg, read, ContributionSteps(taskId, sources[..i], now), sources[i].0, taskId, sources[i].1,
                         now);
        r := RecordContribution(read, sources[i].0, taskId, sources[i].1, now);
        if r.Err? {
          InTurnStops(cfg, read, ContributionSteps(taskId, sources[..i + 1], now),
                      ContributionSteps(taskId, sources[i + 1..], now));
          return;
        }
      }
      assert sources[..|sources|] == sources;
      r := Ok(());
    }

    method FindSettlement(root: RootCompletion) returns (r: Result<Option<SettlementRecord>>)
      ensures r == ExistingSettlement(ledger.events, root)
    {
      var id, markers := SettlementBatch(root), Markers(ledger.events, root);
      var taken := ledger.BatchIdTaken(id);
      if markers == [] && !taken { return Ok(None); }
      if |markers| > 1 { return Err(SettlementConflict); }
      if markers != [] && !markers[0].InBatch(id) { return Err(SettlementConflict); }
      var record :- ValidateBatch(BatchOf(ledger.events, id), root);
      r := Ok(Some(record));
    }

    method SettleAfresh(q: SettleRequest, supplied: seq<ContributionRecord>) returns (r: Result<()>)
      requires ledger.Valid()
      modifies ledger
      ensures ledger.Valid() && ledger.events == After(old(ledger.events), SettleFirst(old(ledger.events), q, supplied))
      ensures r.Ok? <==> Succeeds(old(ledger.events), SettleFirst(old(ledger.events), q, supplied))
    {
      if !IsRootCompletion(ledger.events, q.root) { return Err(CompletionMissing); }
      var states := CollectStates(ledger.events);
      var recorded := Order.Sort(ScopeOf(states, q.root), Contributions.ById);
      if recorded == [] { return Err(ContributionMissing); }
      if Ids(recorded) != Ids(supplied) { return Err(ContributionMismatch); }
      var entries :- Settlement.BuildSettlementEntries(recorded, q.root.completionSeq, q.budget);
      RecordedEntries(ledger.events, q.root, q.budget);
      r := AppendAll(SettlementBatch(q.root), SettlementDrafts(q, recorded, entries));
    }

    method RecordRootSettlement(q: SettleRequest) returns (r: Result<()>)
      requires ledger.Valid()
      modifies ledger
      ensures ledger.Valid() && ledger.events == After(old(ledger.events), SettleWrites(old(ledger.events), q))
      ensures r.Ok? <==> Succeeds(old(ledger.events), SettleWrites(old(ledger.events), q))
    {
      var supplied :- CollectInScope(q.supplied, q.root);
      var existing :- FindSettlement(q.root);
      if existing.Some? {
        var expected :- Settlement.BuildSettlementEntries(supplied, q.root.completionSeq, q.budget);
        if !MatchesRequest(existing.value, q, expected) { return Err(SettlementConflict); }
        return Ok(());
      }
      r := SettleAfresh(q, supplied);
    }

    method FindPruning(parentId: string, completionSeq: int)
      returns (r: Result<Option<(SubtreePruneRecord, seq<string>)>>)
      ensures r == ExistingPruning(ledger.events, parentId, completionSeq)
    {
      var id, markers := PruningBatch(parentId, completionSeq), PruneMarkers(ledger.events, parentId, completionSeq);
      var taken := ledger.BatchIdTaken(id);
      if markers == [] && !taken { return Ok(None); }
      if |markers| > 1 { return Err(PruningConflict); }
      if markers != [] && !markers[0].InBatch(id) { return Err(PruningConflict); }
      var found :- ValidatePruning(BatchOf(ledger.events, id), parentId, completionSeq);
      r := Ok(Some(found));
    }

    method RecordSubtreePruning(q: PruneRequest) returns (r: Result<()>)
      requires ledger.Valid()
      modifies ledger
      ensures ledger.Valid() && ledger.events == After(old(ledger.events), PruneWrites(old(ledger.events), q))
      ensures r.Ok? <==> Succeeds(old(ledger.events), PruneWrites(old(ledger.events), q))
    {
      var parent :- CompletedParent(ledger.events, q.parentUnitId, q.completionSeq);
      if !q.policyDeclared || !PolicyRecorded(ledger.events, q.policy, parent.taskId, q.parentUnitId) {
        return Err(PolicyMismatch);
      }
      var c :- SelectCandidates(ledger.events, parent.taskId, q.parentUnitId, q.candidates);
      var existing :- FindPruning(q.parentUnitId, q.completionSeq);
      if existing.Some? {
        if existing.value != (PruneRecordOf(q, parent.taskId, c), UnitIdsOf(c.cancellable)) {
          return Err(PruningConflict);
        }
        return Ok(());
      }
      if c.cancellable == [] { return Ok(()); }
      r := AppendAll(PruningBatch(q.parentUnitId, q.completionSeq), PruneDrafts(q, parent.taskId, c));
    }
  }
}
