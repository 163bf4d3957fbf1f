/**
 * Runs of protocol steps: what kind of event each step may record and under which idempotency key,
 * and how an invariant of single steps carries over to whole runs.
 */
module Runs {
  import opened Basics
  import opened Objects
  import Order
  import Settlement
  import opened Snapshots
  import opened Ledger
  import opened Lifecycles
  import opened TaskGraphs
  import opened Scheduling
  import opened Verification
  import opened Expansion
  import opened Merging
  import opened Contributions
  import opened Completions
  import opened RootSettlement
  import opened Pruning
  import opened Steps

  // ---------------------------------------------------------------- kinds and keys of events

  datatype EventKind =
    | UnitKind | CompletionKind | LeaseKind | AttemptKind | RecoveryKind | SubmissionKind | VerificationKind
    | CanonicalKind
    | PlanKind | LinkKind | MergeKind | ResolutionKind | CreditKind | SettlementKind | PruningKind

  function KindOf(p: Payload): EventKind {
    match p
    case UnitCreated(_) => UnitKind
    case UnitChanged(_, _, cause) => if cause.OutputsResolved? then CompletionKind else UnitKind
    case LeaseChanged(_, _, _, _, _) => LeaseKind
    case AttemptChanged(_, _, _, _) => AttemptKind
    case RecoveryRecorded(_, _, _, _, _) => RecoveryKind
    case SubmissionRecorded(_, _) => SubmissionKind
    case VerificationRecorded(_) => VerificationKind
    case CanonicalBound(_) => CanonicalKind
    case MergeTaskLinked(_) => LinkKind
    case MergeRecorded(_) => MergeKind
    case OutputResolved(_) => ResolutionKind
    case ContributionChanged(_, _, _) => CreditKind
    case SettlementRecorded(_) => SettlementKind
    case SubtreePruned(_, _) => PruningKind
    case _ => PlanKind
  }

  /** The kinds of events a step may record. */
  predicate Records(step: Step, kind: EventKind) {
    match step
    case RegisterRoot(_, _) => kind.UnitKind?
    case Schedule(_) => kind.LeaseKind? || kind.AttemptKind? || kind.UnitKind?
    case RenewLease(_, _, _) => kind.LeaseKind?
    case Submit(_, _, _, _) => kind.SubmissionKind? || kind.AttemptKind?
    case Verify(_, _, _) => kind.VerificationKind? || kind.AttemptKind?
    case Bind(_) => kind.CanonicalKind? || kind.AttemptKind?
    case Recover(_) => kind.LeaseKind? || kind.AttemptKind? || kind.RecoveryKind? || kind.UnitKind?
    case CompleteUnit(_) => kind.PlanKind? || kind.UnitKind?
    case ExpandUnit(_) => kind.PlanKind? || kind.UnitKind?
    case CreateMergeTask(_) => kind.UnitKind? || kind.LinkKind?
    case ResolveOutputs(_, _, _) => kind.MergeKind? || kind.ResolutionKind?
    case CompleteParent(_) => kind.CompletionKind? || kind.CreditKind?
    case FailParent(_) => kind.UnitKind?
    case MakeReady(_) => kind.UnitKind?
    case CreateContribution(_, _, _, _) => kind.CreditKind?
    case Settle(_) => kind.CreditKind? || kind.SettlementKind?
    case Prune(_) => kind.UnitKind? || kind.PruningKind?
  }

  /** The key names the object and the change of the payload. */
  predicate KeyFits(d: Draft) {
    match d.payload
    case UnitCreated(unit) => d.key == UnitCreateKey(unit.unitId) || d.key == RootUnitKey(unit.unitId)
    case UnitChanged(before, unit, _) => d.key.UnitStateKey? && d.key.unitId == unit.unitId
    case LeaseChanged(before, lease, _, _, _) =>
      if lease.state.Active? then d.key == LeaseCreateKey(lease.leaseId)
        || d.key == LeaseHeartbeatKey(lease.leaseId, lease.heartbeatCount)
      else d.key == LeaseTerminalKey(lease.leaseId, lease.state)
    case AttemptChanged(before, attempt, _, _) =>
      d.key.AttemptStateKey? && d.key.attemptId == attempt.attemptId && d.key.attemptAfter == attempt.state
      && Normalized(attempt) == attempt
    case SubmissionRecorded(s, _) => d.key == SubmissionKey(s.submissionId)
    case CanonicalBound(s) => d.key == CanonicalKey(s.taskId, s.unitId)
    case ContributionChanged(before, c, _) =>
      if before.None? then d.key == ContributionCreateKey(c.contributionId, c.state)
      else if c.state.Settled? then d.key.ContributionSettledKey? && d.key.contributionId == c.contributionId
      else d.key.ContributionEligibleKey? && d.key.contributionId == c.contributionId
    case SettlementRecorded(s) => d.key == SettlementKey(s.root)
    case SubtreePruned(r, _) => d.key == PrunedKey(r.parentUnitId, r.completionSeq)
    case MergeTaskLinked(link) => d.key == MergeLinkKey(link.mergePlanId)
    case MergeRecorded(r) => d.key == MergeRecordKey(r.mergePlanId, r.mergeUnitId, r.selectionId)
    case OutputResolved(r) => d.key == ResolvedKey(r.expectedOutputId, r.recordId)
    case _ =>
      !d.key.LeaseCreateKey? && !d.key.LeaseHeartbeatKey? && !d.key.LeaseTerminalKey? && !d.key.AttemptStateKey?
      && !d.key.CanonicalKey? && !d.key.ContributionCreateKey? && !d.key.SubmissionKey?
  }

  ghost predicate DraftFits(step: Step, d: Draft) {
    KeyFits(d) && Records(step, KindOf(d.payload))
  }

  ghost predicate DraftsFit(step: Step, drafts: seq<Draft>) {
    forall i :: 0 <= i < |drafts| ==> DraftFits(step, drafts[i])
  }

  lemma {:induction false} OneBatch(id: BatchId, drafts: seq<Draft>)
    ensures AllDrafts([Batch(id, drafts)]) == drafts
  {
    assert [Batch(id, drafts)][1..] == [];
    assert AllDrafts([Batch(id, drafts)]) == drafts + [];
  }

  lemma {:induction false} OneCall(d: Draft)
    ensures AllDrafts([One(d)]) == [d]
  {
    assert [One(d)][1..] == [];
  }

  lemma {:induction false} TwoCalls(d: Draft, e: Draft)
    ensures AllDrafts([One(d), One(e)]) == [d, e]
  {
    assert [One(d), One(e)][1..] == [One(e)];
    OneCall(e);
  }

  lemma {:induction false} UnitDraftFits(before: TaskState, unit: TaskUnit, cause: UnitCause, tag: KeyTag, at: string)
    requires !cause.OutputsResolved?
    ensures KeyFits(UnitDraft(before, unit, cause, tag, at))
      && KindOf(UnitDraft(before, unit, cause, tag, at).payload).UnitKind?
  {
  }

  lemma {:induction false} AttemptDraftFits(before: Option<AttemptState>, attempt: Attempt, tag: KeyTag,
                                            reason: string, correlationId: string,
                         at: string)
    ensures var d := AttemptDraft(before, attempt, tag, reason, correlationId, at);
      KeyFits(d) && KindOf(d.payload).AttemptKind?
  {
    PrintNormalized(attempt);
  }

  lemma {:induction false} ScheduleDraftsFit(q: ScheduleRequest, claim: LeaseClaim, processing: TaskUnit)
    requires claim.lease.state.Active?
    ensures DraftsFit(Schedule(q), ScheduleDrafts(claim, processing, q.now, q.correlationId))
  {
    var tag := Correlation(q.correlationId);
    AttemptDraftFits(None, claim.created, tag, "scheduled", q.correlationId, q.now);
    AttemptDraftFits(Some(AttemptState.Created), claim.running, tag, "executor_started", q.correlationId, q.now);
    UnitDraftFits(TaskState.Ready, processing, Scheduled(q.correlationId), tag, q.now);
  }

  /** The claim and the unit a successful schedule writes. */
  lemma {:induction false} ScheduleShape(cfg: ProtocolConfig, log: Events, q: ScheduleRequest)
    returns (unitId: string, client: ClientRecord, claim: LeaseClaim, processing: TaskUnit)
    requires ScheduleWrites(cfg, log, q).Ok?
    ensures q.graph.IsDict() && GraphOk(q.graph)
    ensures Selected(q.graph, q.clients, cfg.allowShadowExecution, ActiveCounts(log, q.suppliedActive), q.allowed)
      == Some((unitId, client))
    ensures unitId in q.graph.units && q.graph.units[unitId].state.Ready? && q.graph.units[unitId].unitId == unitId
    ensures claim == Claim(cfg, DecisionOf(q, unitId, client, |Queue(q.graph, q.allowed)|), q.graph.units[unitId],
                           q.leaseId, q.attemptId, q.fencingToken, q.now)
    ensures processing == claim.unit.(state := TaskState.Processing, updatedAt := q.now)
    ensures ScheduleWrites(cfg, log, q)
      == Ok([Batch(ScheduleBatch(q.attemptId), ScheduleDrafts(claim, processing, q.now, q.correlationId))])
  {
    var active := ActiveCounts(log, q.suppliedActive);
    var choice := Selected(q.graph, q.clients, cfg.allowShadowExecution, active, q.allowed);
    SelectedIsLeast(q.graph, q.clients, cfg.allowShadowExecution, active, q.allowed);
    unitId, client := choice.value.0, choice.value.1;
    var decision := DecisionOf(q, unitId, client, |Queue(q.graph, q.allowed)|);
    claim := Claim(cfg, decision, q.graph.units[unitId], q.leaseId, q.attemptId, q.fencingToken, q.now);
    processing := claim.unit.(state := TaskState.Processing, updatedAt := q.now);
  }

  lemma {:induction false} ScheduleFits(cfg: ProtocolConfig, log: Events, q: ScheduleRequest)
    ensures DraftsFit(Schedule(q), DraftsOf(ScheduleWrites(cfg, log, q)))
  {
    if ScheduleWrites(cfg, log, q).Ok? {
      var _, _, claim, processing := ScheduleShape(cfg, log, q);
      OneBatch(ScheduleBatch(q.attemptId), ScheduleDrafts(claim, processing, q.now, q.correlationId));
      ScheduleDraftsFit(q, claim, processing);
    }
  }

  lemma {:induction false} RenewFits(cfg: ProtocolConfig, log: Events, lease: Lease, at: string, correlationId: string)
    ensures DraftsFit(RenewLease(lease, at, correlationId),
                      DraftsOf(HeartbeatWrites(cfg, log, lease, at, correlationId)))
  {
    if HeartbeatWrites(cfg, log, lease, at, correlationId).Ok? {
      OneCall(HeartbeatWrites(cfg, log, lease, at, correlationId).value[0].draft);
    }
  }

  lemma {:induction false} SubmitFits(cfg: ProtocolConfig, log: Events, s: Submission, attempt: Attempt, lease: Lease,
                                      correlationId: string)
    ensures DraftsFit(Submit(s, attempt, lease, correlationId),
                      DraftsOf(SubmitWrites(cfg, log, s, attempt, lease, correlationId)))
  {
    if SubmitWrites(cfg, log, s, attempt, lease, correlationId).Ok? {
      var writes := SubmitWrites(cfg, log, s, attempt, lease, correlationId).value;
      if |writes| == 1 { OneCall(writes[0].draft); } else { TwoCalls(writes[0].draft, writes[1].draft); }
    }
  }

  lemma {:induction false} VerifyDraftsFit(step: Step, valid: VerificationReport, verified: Attempt,
                                           correlationId: string)
    requires step.Verify?
    ensures DraftFits(step, VerificationDraft(valid)) && DraftFits(step, VerifiedDraft(verified, valid, correlationId))
  {
  }

  /** What a recorded verification writes: the report, then the attempt unless the report is an error. */
  lemma {:induction false} VerifyShape(report: VerificationReport, attempt: Attempt, correlationId: string)
    returns (valid: VerificationReport, verified: Attempt)
    requires VerifyWrites(report, attempt, correlationId).Ok?
    ensures ValidateReport(report, attempt) == Ok(valid)
    ensures valid.status.Error? ==> VerifyWrites(report, attempt, correlationId) == Ok([One(VerificationDraft(valid))])
    ensures !valid.status.Error? ==>
      VerifyAttempt(attempt, valid) == Ok(verified)
      && VerifyWrites(report, attempt, correlationId)
         == Ok([One(VerificationDraft(valid)), One(VerifiedDraft(verified, valid, correlationId))])
  {
    valid := ValidateReport(report, attempt).value;
    verified := if valid.status.Error? then attempt else VerifyAttempt(attempt, valid).value;
  }

  lemma {:induction false} VerifyFits(report: VerificationReport, attempt: Attempt, correlationId: string)
    ensures DraftsFit(Verify(report, attempt, correlationId), DraftsOf(VerifyWrites(report, attempt, correlationId)))
  {
    if VerifyWrites(report, attempt, correlationId).Ok? {
      var valid, verified := VerifyShape(report, attempt, correlationId);
      VerifyDraftsFit(Verify(report, attempt, correlationId), valid, verified, correlationId);
      OneCall(VerificationDraft(valid));
      TwoCalls(VerificationDraft(valid), VerifiedDraft(verified, valid, correlationId));
    }
  }

  lemma {:induction false} BindFits(log: Events, q: BindRequest)
    ensures DraftsFit(Bind(q), DraftsOf(BindWrites(log, q)))
  {
    if BindWrites(log, q).Ok? {
      var writes := BindWrites(log, q).value;
      if writes != [] { TwoCalls(writes[0].draft, writes[1].draft); }
    }
  }

  lemma {:induction false} RecoveryDraftsFit(q: RecoverRequest, lease: Lease, attempt: Attempt, unit: TaskUnit)
    requires !lease.state.Active?
    ensures DraftsFit(Recover(q), RecoveryDrafts(q, lease, attempt, unit))
  {
    var tag := Correlation(q.correlationId);
    AttemptDraftFits(Some(q.attempt.state), attempt, tag, TriggerText(q.decision.trigger), q.correlationId, q.now);
    UnitDraftFits(q.unit.state, unit, UnitCause.Recovered(q.decision.retryCount, q.correlationId), tag, q.now);
  }

  /** What a successful recovery writes. */
  lemma {:induction false} RecoverShape(cfg: ProtocolConfig, log: Events, q: RecoverRequest)
    returns (lease: Lease, attempt: Attempt, unit: TaskUnit)
    requires RecoverWrites(cfg, log, q).Ok?
    ensures EvaluateRetry(q.decision.trigger, q.decision.retryCount, cfg.maxRetries) == Ok(q.decision)
    ensures SameExecution(q.lease, q.attempt, q.unit)
    ensures HasBatch(log, RecoveryBatch(q.actionId)) || IsLatest(log, q)
    ensures RecoveredPair(cfg, q) == Ok((lease, attempt))
      && TransitionUnit(q.unit, q.decision.nextTaskState, q.now) == Ok(unit)
    ensures RecoverWrites(cfg, log, q) == Ok([Batch(RecoveryBatch(q.actionId),
                                                    RecoveryDrafts(q, lease, attempt, unit))])
  {
    lease, attempt := RecoveredPair(cfg, q).value.0, RecoveredPair(cfg, q).value.1;
    unit := TransitionUnit(q.unit, q.decision.nextTaskState, q.now).value;
  }

  /** The recovered lease is terminal; the recovered attempt is in the decided, final state. */
  ghost predicate RecoveredFrom(q: RecoverRequest, lease: Lease, attempt: Attempt) {
    && q.lease.state.Active? && !lease.state.Active? && lease.leaseId == q.lease.leaseId
    && lease.attemptId == q.attempt.attemptId && lease.unitId == q.unit.unitId
    && attempt.attemptId == q.attempt.attemptId && attempt.state == q.decision.attemptState
    && (attempt.state.Superseded? || attempt.state.Failed? || attempt.state.Rejected?)
    && (lease.state.Expired? ==> q.attempt.state.Created? || q.attempt.state.Running?)
  }

  lemma {:induction false} AttemptMoves(attempt: Attempt, state: AttemptState, at: string, reason: string,
                                        kind: Option<string>,
                     why: Option<string>, metadata: JsonObject)
    requires !state.Submitted? && TransitionAttempt(attempt, state, at, reason, kind, why, metadata).Ok?
    ensures var moved := TransitionAttempt(attempt, state, at, reason, kind, why, metadata).value;
      moved.attemptId == attempt.attemptId && moved.state == state
  {
  }

  lemma {:induction false} LeaseEnds(lease: Lease, state: LeaseState, at: string, reason: string)
    requires !state.Active? && TransitionLease(lease, state, at, reason).Ok?
    ensures var ended := TransitionLease(lease, state, at, reason).value;
      lease.state.Active? && ended.state == state && ended.leaseId == lease.leaseId
      && ended.attemptId == lease.attemptId && ended.unitId == lease.unitId
  {
  }

  lemma {:induction false} ExpiredStates(cfg: ProtocolConfig, q: RecoverRequest)
    requires Expire(cfg, q.lease, q.attempt, q.unit, q.now, q.decision.retryCount).Ok?
      && q.decision.attemptState.Superseded?
    ensures var (lease, attempt) := Expire(cfg, q.lease, q.attempt, q.unit, q.now, q.decision.retryCount).value;
      RecoveredFrom(q, lease, attempt)
  {
    LeaseEnds(q.lease, Expired, q.now, "lease_expired");
    AttemptMoves(q.attempt, AttemptState.Superseded, q.now, "lease_expired", None, None, map[]);
  }

  lemma {:induction false} ReleasedStates(cfg: ProtocolConfig, q: RecoverRequest)
    requires RecoveredPair(cfg, q).Ok? && !q.decision.trigger.LeaseExpired? && SameExecution(q.lease, q.attempt, q.unit)
    requires q.decision.attemptState == AttemptOutcome(q.decision.trigger)
    ensures RecoveredFrom(q, RecoveredPair(cfg, q).value.0, RecoveredPair(cfg, q).value.1)
  {
    LeaseEnds(q.lease, Released, q.now, TriggerText(q.decision.trigger));
  }

  lemma {:induction false} RecoveredStates(cfg: ProtocolConfig, q: RecoverRequest)
    requires RecoveredPair(cfg, q).Ok? && SameExecution(q.lease, q.attempt, q.unit)
    requires EvaluateRetry(q.decision.trigger, q.decision.retryCount, cfg.maxRetries) == Ok(q.decision)
    ensures RecoveredFrom(q, RecoveredPair(cfg, q).value.0, RecoveredPair(cfg, q).value.1)
  {
    if q.decision.trigger.LeaseExpired? { ExpiredStates(cfg, q); } else { ReleasedStates(cfg, q); }
  }

  /** What a successful recovery writes, with the states it leaves behind. */
  lemma {:induction false} RecoverOutcome(cfg: ProtocolConfig, log: Events, q: RecoverRequest)
    returns (lease: Lease, attempt: Attempt, unit: TaskUnit)
    requires RecoverWrites(cfg, log, q).Ok?
    ensures RecoveredFrom(q, lease, attempt) && (HasBatch(log, RecoveryBatch(q.actionId)) || IsLatest(log, q))
    ensures q.decision.retryAllowed == (q.decision.retryCount <= cfg.maxRetries)
    ensures TransitionUnit(q.unit, if q.decision.retryAllowed then TaskState.Ready else TaskState.Failed, q.now)
      == Ok(unit)
    ensures RecoverWrites(cfg, log, q) == Ok([Batch(RecoveryBatch(q.actionId),
                                                    RecoveryDrafts(q, lease, attempt, unit))])
  {
    lease, attempt, unit := RecoverShape(cfg, log, q);
    RecoveredStates(cfg, q);
  }

  lemma {:induction false} RecoverFits(cfg: ProtocolConfig, log: Events, q: RecoverRequest)
    ensures DraftsFit(Recover(q), DraftsOf(RecoverWrites(cfg, log, q)))
  {
    if RecoverWrites(cfg, log, q).Ok? {
      var lease, attempt, unit := RecoverOutcome(cfg, log, q);
      OneBatch(RecoveryBatch(q.actionId), RecoveryDrafts(q, lease, attempt, unit));
      RecoveryDraftsFit(q, lease, attempt, unit);
    }
  }

  lemma {:induction false} CompleteFits(log: Events, q: CompleteRequest)
    ensures DraftsFit(CompleteUnit(q), DraftsOf(CompleteWrites(log, q)))
  {
    if CompleteWrites(log, q).Ok? {
      var write := CompleteWrites(log, q).value[0];
      OneBatch(write.id, write.drafts);
    }
  }

  lemma {:induction false} ExpandDraftsFit(q: ExpandRequest, x: Expanding, children: seq<TaskUnit>)
    ensures DraftsFit(ExpandUnit(q), ExpandDrafts(q, x, children))
  {
    var n, m := |children|, |ChildRelations(x)|;
    var drafts := ExpandDrafts(q, x, children);
    forall i | 0 <= i < |drafts| ensures DraftFits(ExpandUnit(q), drafts[i]) {
      if 3 <= i < n + 3 {
        assert drafts[i] == ChildDraft(children[i - 3]);
      } else if n + 3 <= i < n + m + 3 {
        assert drafts[i] == RelationDraft(ChildRelations(x)[i - n - 3], q.decision.decidedAt);
      }
    }
  }

  /** What a successful expansion writes. */
  lemma {:induction false} ExpandShape(log: Events, q: ExpandRequest)
    returns (selection: CanonicalSelection, x: Expanding, children: seq<TaskUnit>)
    requires ExpandWrites(log, q).Ok?
    ensures DecisionSelection(log, q.decision) == Ok(selection) && x == ExpandingOf(q, selection)
    ensures Expandable(q.graph, x, children, q.parentOutputs, q.strategyChildren)
    ensures DecisionMatches(q.decision, q.parent)
    ensures ExpandWrites(log, q) == Ok([Batch(ExpansionBatch(q.decision.decisionId), ExpandDrafts(q, x, children))])
  {
    selection := DecisionSelection(log, q.decision).value;
    x := ExpandingOf(q, selection);
    children := ChildUnits(x, q.proposal.childSpecs).value;
  }

  lemma {:induction false} ExpandFits(log: Events, q: ExpandRequest)
    ensures DraftsFit(ExpandUnit(q), DraftsOf(ExpandWrites(log, q)))
  {
    if ExpandWrites(log, q).Ok? {
      var _, x, children := ExpandShape(log, q);
      OneBatch(ExpansionBatch(q.decision.decisionId), ExpandDrafts(q, x, children));
      ExpandDraftsFit(q, x, children);
    }
  }

  lemma {:induction false} MergeTaskDraftsFit(q: MergeTaskRequest, plan: MergePlan, bindings: seq<SlotBinding>,
                                              depth: int)
    ensures DraftsFit(CreateMergeTask(q), MergeTaskDrafts(plan, bindings, depth, q.bundleRef, q.now))
  {
  }

  /** What a merge task creation writes. */
  lemma {:induction false} MergeTaskShape(log: Events, q: MergeTaskRequest)
    returns (plan: MergePlan, bindings: seq<SlotBinding>, depth: int)
    requires MergeTaskWrites(log, q).Ok?
    ensures q.planEvent.Payload() == MergePlanRecorded(plan)
    ensures MergeTaskWrites(log, q)
      == Ok([Batch(MergeTaskBatch(plan.mergePlanId), MergeTaskDrafts(plan, bindings, depth, q.bundleRef, q.now))])
    ensures var slots := WantedSlots(plan.requiredSlots, SelectedSet(q.selected));
      var byUnit := CanonicalByUnit(q.canonicalEvents);
      (forall s :: s in slots ==> SlotReady(s, byUnit)) && bindings == BindingList(slots, byUnit)
  {
    plan := q.planEvent.Payload().plan;
    var byUnit, selected := CanonicalByUnit(q.canonicalEvents), SelectedSet(q.selected);
    WantedMembers(plan.requiredSlots, selected);
    bindings := BindingList(WantedSlots(plan.requiredSlots, selected), byUnit);
    depth := q.graph.units[plan.parentUnitId].depth;
  }

  lemma {:induction false} MergeTaskFits(log: Events, q: MergeTaskRequest)
    ensures DraftsFit(CreateMergeTask(q), DraftsOf(MergeTaskWrites(log, q)))
  {
    if MergeTaskWrites(log, q).Ok? {
      var plan, bindings, depth := MergeTaskShape(log, q);
      OneBatch(MergeTaskBatch(plan.mergePlanId), MergeTaskDrafts(plan, bindings, depth, q.bundleRef, q.now));
      MergeTaskDraftsFit(q, plan, bindings, depth);
    }
  }

  lemma {:induction false} ResolutionDraftsFit(record: MergeRecord, rs: seq<OutputResolution>, now: string)
    requires forall r :: r in rs ==> ResolutionFits(r, record)
    ensures DraftsFit(ResolveOutputs(record, rs, now), ResolutionDrafts(record, rs, now))
  {
    var drafts := ResolutionDrafts(record, rs, now);
    forall i | 0 <= i < |drafts| ensures DraftFits(ResolveOutputs(record, rs, now), drafts[i]) {
      if i > 0 {
        assert rs[i - 1] in rs;
        assert drafts[i] == ResolutionDraft(rs[i - 1], record, now);
      }
    }
  }

  lemma {:induction false} ResolveShape(log: Events, record: MergeRecord, rs: seq<OutputResolution>, now: string)
    requires ResolveWrites(log, record, rs, now).Ok?
    ensures ResolveWrites(log, record, rs, now)
      == Ok([Batch(MergeResolutionBatch(record.recordId), ResolutionDrafts(record, rs, now))])
    ensures ValidateResolution(log, record, rs).Ok?
  {
  }

  lemma {:induction false} ResolveFits(log: Events, record: MergeRecord, rs: seq<OutputResolution>, now: string)
    ensures DraftsFit(ResolveOutputs(record, rs, now), DraftsOf(ResolveWrites(log, record, rs, now)))
  {
    if ResolveWrites(log, record, rs, now).Ok? {
      ResolveShape(log, record, rs, now);
      OneBatch(MergeResolutionBatch(record.recordId), ResolutionDrafts(record, rs, now));
      ValidResolutionsFit(log, record, rs);
      ResolutionDraftsFit(record, rs, now);
    }
  }

  lemma {:induction false} CompletionDraftsFit(q: CompletionRequest, completed: TaskUnit,
                                               eligible: seq<ContributionRecord>, resolved: seq<ResolvedOutput>)
    requires completed.state.Completed? && forall c :: c in eligible ==> c.state.Eligible?
    ensures DraftsFit(CompleteParent(q), CompletionDrafts(completed, eligible, resolved, q.now))
  {
    var drafts := CompletionDrafts(completed, eligible, resolved, q.now);
    forall i | 0 <= i < |drafts| ensures DraftFits(CompleteParent(q), drafts[i]) {
      if i > 0 {
        assert eligible[i - 1] in eligible;
        assert drafts[i] == EligibleDraft(eligible[i - 1], resolved, q.now);
      }
    }
  }

  /** What a successful parent completion writes. */
  lemma {:induction false} CompletionShape(log: Events, q: CompletionRequest)
    returns (recorded: map<string, OutputResolution>, completed: TaskUnit, sorted: seq<ContributionRecord>)
    requires CompletionWrites(log, q).Ok?
    ensures RecordedUpTo(log, |log|) == Ok(recorded) && FullyResolved(q.owner, q.refs, q.resolutions, recorded)
    ensures !CompletionConflicts(log, q.owner.unitId, ResolvedSet(q.resolutions))
    ensures q.owner.state.Processing? && completed == q.owner.(state := TaskState.Completed, updatedAt := q.now)
    ensures sorted == Order.Sort(q.contributions, Contributions.ById) && sorted != []
      && Distinct(ContributionIds(sorted))
    ensures forall c :: c in sorted ==> MayBecomeEligible(c, q.owner, DecisionIds(q.refs))
    ensures CompletionWrites(log, q) == Ok([Batch(ParentCompletionBatch(q.owner.unitId, ResolvedSet(q.resolutions)),
      CompletionDrafts(completed, EligibleOnes(sorted, q.now), ResolvedSet(q.resolutions), q.now))])
  {
    recorded := RecordedUpTo(log, |log|).value;
    completed := TransitionUnit(q.owner, TaskState.Completed, q.now).value;
    sorted := Order.Sort(q.contributions, Contributions.ById);
    Order.SortMultiset(q.contributions, Contributions.ById);
  }

  lemma {:induction false} CompletionFits(log: Events, q: CompletionRequest)
    ensures DraftsFit(CompleteParent(q), DraftsOf(CompletionWrites(log, q)))
  {
    if CompletionWrites(log, q).Ok? {
      var _, completed, sorted := CompletionShape(log, q);
      var resolved, eligible := ResolvedSet(q.resolutions), EligibleOnes(sorted, q.now);
      OneBatch(ParentCompletionBatch(q.owner.unitId, resolved), CompletionDrafts(completed, eligible, resolved, q.now));
      CompletionDraftsFit(q, completed, eligible, resolved);
    }
  }

  lemma {:induction false} FailureFits(log: Events, q: FailureRequest)
    ensures DraftsFit(FailParent(q), DraftsOf(FailureWrites(log, q)))
  {
    if FailureWrites(log, q).Ok? {
      OneCall(FailureWrites(log, q).value[0].draft);
    }
  }

  lemma {:induction false} ReadyFits(q: ReadyRequest)
    ensures DraftsFit(MakeReady(q), DraftsOf(ReadyWrites(q)))
  {
    if ReadyWrites(q).Ok? {
      OneCall(ReadyWrites(q).value[0].draft);
    }
  }

  lemma {:induction false} CreateShape(log: Events, kind: ContributionKind, taskId: string, source: BatchInput,
                                       at: string)
    returns (c: ContributionRecord)
    requires CreateWrites(log, kind, taskId, source, at).Ok?
    ensures CreateWrites(log, kind, taskId, source, at) == Ok([One(CreationDraft(c, at))])
    ensures c.kind == kind && c.state == InitialState(kind) && TellsKind(c.contributionId, kind)
  {
    c := ContributionOf(kind, taskId, source, log).value;
  }

  lemma {:induction false} CreationFits(kind: ContributionKind, taskId: string, source: BatchInput,
                                        c: ContributionRecord, at: string)
    requires c.kind == kind && c.state == InitialState(kind) && TellsKind(c.contributionId, kind)
    ensures DraftFits(CreateContribution(kind, taskId, source, at), CreationDraft(c, at))
  {
  }

  lemma {:induction false} CreateFits(log: Events, kind: ContributionKind, taskId: string, source: BatchInput,
                                      at: string)
    ensures DraftsFit(CreateContribution(kind, taskId, source, at),
                      DraftsOf(CreateWrites(log, kind, taskId, source, at)))
  {
    if CreateWrites(log, kind, taskId, source, at).Ok? {
      var c := CreateShape(log, kind, taskId, source, at);
      OneCall(CreationDraft(c, at));
      CreationFits(kind, taskId, source, c, at);
    }
  }

  lemma {:induction false} SettlementDraftsFit(q: SettleRequest, cs: seq<ContributionRecord>,
                                               entries: seq<SettlementEntry>)
    requires |entries| == |cs|
    ensures DraftsFit(Settle(q), SettlementDrafts(q, cs, entries))
  {
    var drafts := SettlementDrafts(q, cs, entries);
    forall i | 0 <= i < |drafts| ensures DraftFits(Settle(q), drafts[i]) {
      if i < |cs| { assert drafts[i] == SettledDraft(cs[i], entries[i], q.root, q.now); }
    }
  }

  /** A settlement that writes is the first of its root. */
  lemma {:induction false} SettleIsFirst(log: Events, q: SettleRequest) returns (supplied: seq<ContributionRecord>)
    requires SettleWrites(log, q).Ok? && SettleWrites(log, q).value != []
    ensures InScopeOnce(q.supplied, q.root) == Ok(supplied) && SettleWrites(log, q) == SettleFirst(log, q, supplied)
  {
    supplied := InScopeOnce(q.supplied, q.root).value;
  }

  /** A settlement that writes settles the ledger's own eligible contributions. */
  lemma {:induction false} SettleShape(log: Events, q: SettleRequest) returns (entries: seq<SettlementEntry>)
    requires SettleWrites(log, q).Ok? && SettleWrites(log, q).value != []
    ensures var cs := RecordedEligible(log, q.root);
      && Settlement.BuildEntries(cs, q.root.completionSeq, q.budget) == Ok(entries) && |entries| == |cs|
      && SettleWrites(log, q) == Ok([Batch(SettlementBatch(q.root), SettlementDrafts(q, cs, entries))])
    ensures Ids(RecordedEligible(log, q.root)) == Ids(InScopeOnce(q.supplied, q.root).value)
  {
    var supplied := SettleIsFirst(log, q);
    RecordedEntries(log, q.root, q.budget);
    entries := Settlement.BuildEntries(RecordedEligible(log, q.root), q.root.completionSeq, q.budget).value;
  }

  lemma {:induction false} SettleFits(log: Events, q: SettleRequest)
    ensures DraftsFit(Settle(q), DraftsOf(SettleWrites(log, q)))
  {
    if SettleWrites(log, q).Ok? && SettleWrites(log, q).value != [] {
      var entries := SettleShape(log, q);
      var cs := RecordedEligible(log, q.root);
      OneBatch(SettlementBatch(q.root), SettlementDrafts(q, cs, entries));
      SettlementDraftsFit(q, cs, entries);
    }
  }

  lemma {:induction false} PruneDraftsFit(q: PruneRequest, taskId: string, c: Candidates)
    ensures DraftsFit(Prune(q), PruneDrafts(q, taskId, c))
  {
    var drafts := PruneDrafts(q, taskId, c);
    forall i | 0 <= i < |drafts| ensures DraftFits(Prune(q), drafts[i]) {
      if i < |c.cancellable| { assert drafts[i] == CancelDraft(c.cancellable[i], q); }
    }
  }

  lemma {:induction false} PruneFits(log: Events, q: PruneRequest)
    ensures DraftsFit(Prune(q), DraftsOf(PruneWrites(log, q)))
  {
    if PruneWrites(log, q).Ok? && PruneWrites(log, q).value != [] {
      var taskId := CompletedParent(log, q.parentUnitId, q.completionSeq).value.taskId;
      var c := CandidatesFor(log, taskId, q.parentUnitId, q.candidates).value;
      OneBatch(PruningBatch(q.parentUnitId, q.completionSeq), PruneDrafts(q, taskId, c));
      PruneDraftsFit(q, taskId, c);
    }
  }

  predicate IsExecution(step: Step) {
    step.Schedule? || step.RenewLease? || step.Submit? || step.Verify? || step.Bind? || step.Recover?
  }

  predicate IsPayment(step: Step) {
    step.CreateContribution? || step.Settle? || step.CompleteParent?
  }

  lemma {:induction false} ExecutionFits(cfg: ProtocolConfig, log: Events, step: Step)
    requires IsExecution(step)
    ensures DraftsFit(step, DraftsOf(Writes(cfg, log, step)))
  {
    match step {
      case Schedule(q) => ScheduleFits(cfg, log, q);
      case RenewLease(lease, at, correlationId) => RenewFits(cfg, log, lease, at, correlationId);
      case Submit(s, attempt, lease, correlationId) => SubmitFits(cfg, log, s, attempt, lease, correlationId);
      case Verify(report, attempt, correlationId) => VerifyFits(report, attempt, correlationId);
      case Bind(q) => BindFits(log, q);
      case Recover(q) => RecoverFits(cfg, log, q);
    }
  }

  lemma {:induction false} PaymentFits(cfg: ProtocolConfig, log: Events, step: Step)
    requires IsPayment(step)
    ensures DraftsFit(step, DraftsOf(Writes(cfg, log, step)))
  {
    if step.CompleteParent? {
      assert Writes(cfg, log, step) == CompletionWrites(log, step.completion);
      CompletionFits(log, step.completion);
    } else if step.CreateContribution? {
      assert Writes(cfg, log, step) == CreateWrites(log, step.kind, step.taskId, step.source, step.at);
      CreateFits(log, step.kind, step.taskId, step.source, step.at);
    } else {
      assert Writes(cfg, log, step) == SettleWrites(log, step.settle);
      SettleFits(log, step.settle);
    }
  }

  lemma {:induction false} GraphFits(cfg: ProtocolConfig, log: Events, step: Step)
    requires !IsExecution(step) && !IsPayment(step)
    ensures DraftsFit(step, DraftsOf(Writes(cfg, log, step)))
  {
    match step {
      case RegisterRoot(root, at) => OneCall(Draft(RootUnitKey(root.unitId), UnitCreated(root), at));
      case CompleteUnit(q) => CompleteFits(log, q);
      case ExpandUnit(q) => ExpandFits(log, q);
      case CreateMergeTask(q) => MergeTaskFits(log, q);
      case FailParent(q) => FailureFits(log, q);
      case MakeReady(q) => ReadyFits(q);
      case ResolveOutputs(record, rs, at) => ResolveFits(log, record, rs, at);
      case Prune(q) => PruneFits(log, q);
    }
  }

  /** Every draft of every step has a fitting key and a kind the step may record. */
  lemma {:induction false} StepFits(cfg: ProtocolConfig, log: Events, step: Step)
    ensures DraftsFit(step, DraftsOf(Writes(cfg, log, step)))
  {
    if IsExecution(step) {
      ExecutionFits(cfg, log, step);
    } else if IsPayment(step) {
      PaymentFits(cfg, log, step);
    } else {
      GraphFits(cfg, log, step);
    }
  }

  // ---------------------------------------------------------------- ledgers of runs

  ghost predicate KeysFit(log: Events) {
    forall i :: 0 <= i < |log| ==> KeyFits(log[i].draft)
  }

  /** What every ledger reached by steps satisfies. */
  ghost predicate Keyed(log: Events) {
    WellFormed(log) && KeysFit(log)
  }

  lemma {:induction false} CommitFits(log: Events, writes: seq<Write>, step: Step)
    requires Keyed(log) && DraftsFit(step, AllDrafts(writes))
    ensures Keyed(Commit(log, writes)) && ExtendsBy(log, Commit(log, writes), step)
  {
    CommitKeepsWellFormed(log, writes);
    CommitAddsOnlyDrafts(log, writes);
    var drafts, next := AllDrafts(writes), Commit(log, writes);
    forall i | 0 <= i < |next| ensures KeyFits(next[i].draft) && (i >= |log| ==> DraftFits(step, next[i].draft)) {
      if i < |log| {
        assert next[i] == log[i];
      } else {
        var k :| 0 <= k < |drafts| && drafts[k] == next[i].draft;
      }
    }
  }

  /** A step appends only events of the kinds it may record, and keeps the ledger keyed. */
  lemma {:induction false} StepAppends(cfg: ProtocolConfig, log: Events, step: Step)
    requires Keyed(log)
    ensures Keyed(Exec(cfg, log, step)) && ExtendsBy(log, Exec(cfg, log, step), step)
  {
    var writes := Writes(cfg, log, step);
    if writes.Ok? {
      StepFits(cfg, log, step);
      CommitFits(log, writes.value, step);
    }
  }

  /** The hypothesis `ok` holds of the first `k` steps of the run, each on the ledger it meets. */
  ghost predicate EachStep(run: Run, k: nat, ok: (Events, Step) -> bool) {
    forall i: nat {:trigger run.StepAt(i)} :: i < k ==> ok(run.At(i), run.StepAt(i))
  }

  lemma {:induction false} StepIsOk(run: Run, k: nat, ok: (Events, Step) -> bool)
    requires k > 0 && EachStep(run, k, ok)
    ensures ok(run.At(k - 1), run.StepAt(k - 1)) && EachStep(run, k - 1, ok)
  {
  }

  lemma {:induction false} EachStepBefore(run: Run, k: nat, ok: (Events, Step) -> bool)
    requires k > 0 && EachStep(run, k, ok)
    ensures EachStep(run, k - 1, ok)
  {
  }

  lemma {:induction false} NextIsKeyed(cfg: ProtocolConfig, run: Run, k: nat)
    requires IsRun(cfg, run) && Keyed(run.At(k))
    ensures Keyed(run.At(k + 1)) && run.At(k) <= run.At(k + 1)
  {
    StepAppends(cfg, run.At(k), run.StepAt(k));
  }

  /** Every run keeps keys and payloads together and never forgets an event, whatever its callers supply. */
  lemma {:induction false} RunIsKeyed(cfg: ProtocolConfig, run: Run, j: nat, k: nat)
    requires IsRun(cfg, run) && Keyed(run.Start()) && j <= k
    ensures Keyed(run.At(k)) && run.At(j) <= run.At(k)
  {
    if k > 0 {
      RunIsKeyed(cfg, run, if j < k then j else k - 1, k - 1);
      NextIsKeyed(cfg, run, k - 1);
    }
  }

  /** `next` extends `log` by events of kinds that `step` may record. */
  ghost predicate ExtendsBy(log: Events, next: Events, step: Step) {
    log <= next && forall i :: |log| <= i < |next| ==> Records(step, KindOf(next[i].Payload()))
  }
}
