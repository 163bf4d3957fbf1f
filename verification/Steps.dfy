/**
 * The protocol steps of src/tokenshare/protocol_engine.py: for each, the ledger calls it makes on a given
 * ledger, or the error it raises before making any.
 */
module Steps {
  import opened Basics
  import opened Objects
  import opened Snapshots
  import opened Ledger
  import opened Lifecycles
  import opened TaskGraphs
  import opened Scheduling
  import opened Projections
  import opened Verification
  import opened Expansion
  import opened Plans
  import opened Merging
  import opened Contributions
  import opened Completions
  import opened RootSettlement
  import opened Pruning

  // ---------------------------------------------------------------- scheduling and leases

  datatype ScheduleRequest = ScheduleRequest(
    graph: TaskGraph,
    clients: seq<ClientRecord>,
    leaseId: string,
    attemptId: string,
    fencingToken: string,
    decisionId: string,
    suppliedActive: map<string, nat>,
    allowed: Option<set<string>>,
    now: string,
    correlationId: string)

  /** The ledger's active leases, overridden by the caller's map. */
  ghost function ActiveCounts(log: Events, supplied: map<string, nat>): map<string, nat> {
    LeaseCounts(log) + supplied
  }

  function NeededNames(needs: seq<(string, Json)>): seq<string> {
    seq(|needs|, i requires 0 <= i < |needs| => needs[i].0)
  }

  function DecisionOf(q: ScheduleRequest, unitId: string, client: ClientRecord, queued: nat): SchedulingDecision
    requires unitId in q.graph.units
  {
    SchedulingDecision(q.decisionId, q.graph.taskId, unitId, client.clientId,
                       NeededNames(q.graph.units[unitId].requiredCapabilities), q.now, queued, |q.clients|)
  }

  function AttemptDraft(before: Option<AttemptState>, attempt: Attempt, tag: KeyTag, reason: string,
                        correlationId: string,
                        at: string): Draft
  {
    Draft(AttemptStateKey(attempt.attemptId, before, attempt.state, tag),
          AttemptChanged(before, Normalized(attempt), reason, correlationId), at)
  }

  function UnitDraft(before: TaskState, unit: TaskUnit, cause: UnitCause, tag: KeyTag, at: string): Draft {
    Draft(UnitStateKey(unit.unitId, before, unit.state, tag), UnitChanged(before, unit, cause), at)
  }

  function ScheduleDrafts(claim: LeaseClaim, processing: TaskUnit, now: string, correlationId: string): seq<Draft> {
    var tag := Correlation(correlationId);
    [Draft(LeaseCreateKey(claim.lease.leaseId),
           LeaseChanged(None, claim.lease, Some(claim.decision), "scheduled", correlationId), now),
     AttemptDraft(None, claim.created, tag, "scheduled", correlationId, now),
     AttemptDraft(Some(AttemptState.Created), claim.running, tag, "executor_started", correlationId, now),
     UnitDraft(TaskState.Ready, processing, Scheduled(correlationId), tag, now)]
  }

  ghost function ScheduleWrites(cfg: ProtocolConfig, log: Events, q: ScheduleRequest): Result<seq<Write>> {
    if !(q.graph.IsDict() && GraphOk(q.graph)) then Err(InvalidGraph)
    else
      match Selected(q.graph, q.clients, cfg.allowShadowExecution, ActiveCounts(log, q.suppliedActive), q.allowed)
      case None => Err(NothingToSchedule)
      case Some((unitId, client)) =>
        SelectedIsLeast(q.graph, q.clients, cfg.allowShadowExecution, ActiveCounts(log, q.suppliedActive), q.allowed);
        var decision := DecisionOf(q, unitId, client, |Queue(q.graph, q.allowed)|);
        var claim := Claim(cfg, decision, q.graph.units[unitId], q.leaseId, q.attemptId, q.fencingToken, q.now);
        var processing :- TransitionUnit(claim.unit, TaskState.Processing, q.now);
        Ok([Batch(ScheduleBatch(q.attemptId), ScheduleDrafts(claim, processing, q.now, q.correlationId))])
  }

  function HeartbeatDraft(lease: Lease, now: string, correlationId: string): Draft {
    Draft(LeaseHeartbeatKey(lease.leaseId, lease.heartbeatCount),
          LeaseChanged(Some(LeaseState.Active), lease, None, "heartbeat", correlationId), now)
  }

  ghost function HeartbeatWrites(cfg: ProtocolConfig, log: Events, lease: Lease, now: string, correlationId: string)
    : Result<seq<Write>>
  {
    var authoritative :- AuthoritativeLease(log, lease);
    var renewed :- Lifecycles.Heartbeat(cfg, authoritative, now);
    Ok([One(HeartbeatDraft(renewed, now, correlationId))])
  }

  // ---------------------------------------------------------------- submission and verification

  function SubmissionDraft(s: Submission, rejection: Option<Rejection>): Draft {
    Draft(SubmissionKey(s.submissionId), SubmissionRecorded(s, rejection), s.submittedAt)
  }

  function SubmittedDraft(submitted: Attempt, s: Submission, correlationId: string): Draft {
    AttemptDraft(Some(AttemptState.Running), submitted, Correlation(correlationId), "execution_submission_recorded",
                 correlationId, s.submittedAt)
  }

  ghost function SubmitWrites(cfg: ProtocolConfig, log: Events, s: Submission, attempt: Attempt, lease: Lease,
                              correlationId: string): Result<seq<Write>>
  {
    var ownAttempt :- AuthoritativeAttempt(log, attempt);
    var ownLease :- AuthoritativeLease(log, lease);
    var rejection := SubmissionRejection(cfg.clock, s, ownAttempt, ownLease);
    if rejection.Some? then Ok([One(SubmissionDraft(s, rejection))])
    else
      var submitted :- SubmitAttempt(ownAttempt, s);
      Ok([One(SubmissionDraft(s, None)), One(SubmittedDraft(submitted, s, correlationId))])
  }

  function VerificationDraft(report: VerificationReport): Draft {
    Draft(VerificationKey(report.submissionId, report.validatorPolicyId), VerificationRecorded(report),
          report.completedAt)
  }

  function VerifiedState(status: ReportStatus): AttemptState {
    if StatusPasses(status) then AttemptState.Verified else AttemptState.Rejected
  }

  function VerifyAttempt(attempt: Attempt, report: VerificationReport): Result<Attempt> {
    var failed := !StatusPasses(report.status);
    TransitionAttempt(attempt, VerifiedState(report.status), report.completedAt,
                      if failed then "verification_rejected" else "verification_passed",
                      if failed then Some("invalid_output") else None,
                      if failed then Some("verification rejected") else None, map[])
  }

  function VerifiedDraft(verified: Attempt, report: VerificationReport, correlationId: string): Draft {
    AttemptDraft(Some(AttemptState.Submitted), verified, ByVerification(report.reportId),
                 if StatusPasses(report.status) then "verification_passed" else "verification_rejected",
                 correlationId, report.completedAt)
  }

  function VerifyWrites(report: VerificationReport, attempt: Attempt, correlationId: string): Result<seq<Write>> {
    var valid :- ValidateReport(report, attempt);
    if valid.status.Error? then Ok([One(VerificationDraft(valid))])
    else
      var verified :- VerifyAttempt(attempt, valid);
      Ok([One(VerificationDraft(valid)), One(VerifiedDraft(verified, valid, correlationId))])
  }

  datatype BindRequest = BindRequest(
    taskId: string,
    unitId: string,
    presented: Events,
    attempts: map<string, Attempt>,
    now: string,
    correlationId: string)

  function CanonicalDraft(s: CanonicalSelection, now: string): Draft {
    Draft(CanonicalKey(s.taskId, s.unitId), CanonicalBound(s), now)
  }

  function CanonicalAttempt(attempt: Attempt, s: CanonicalSelection, now: string): Result<Attempt> {
    TransitionAttempt(attempt, AttemptState.Canonical, now, "canonical_outputs_bound", None, None,
                      map["canonical_selection_id" := Str(s.selectionId),
                          "canonical_output_bundle_digest" := Digest(s.bundleDigest)])
  }

  function CanonicalAttemptDraft(attempt: Attempt, s: CanonicalSelection, correlationId: string, now: string): Draft {
    AttemptDraft(Some(AttemptState.Verified), attempt, BySelection(s.selectionId), "canonical_outputs_bound",
                 correlationId, now)
  }

  function BindWrites(log: Events, q: BindRequest): Result<seq<Write>> {
    if !AllRecordedIn(log, q.presented) then Err(VerificationNotRecorded)
    else
      var selection :- SelectFirst(q.presented, q.taskId, q.unitId, q.now);
      match ExistingCanonical(log, q.taskId, q.unitId)
      case Some(existing) =>
        ExistingCanonicalFinds(log, q.taskId, q.unitId);
        if SameCommitment(existing.Payload().selection, selection) then Ok([])
        else Err(AlreadyBound)
      case None =>
        :- Check(selection.attemptId in q.attempts, SelectedAttemptMissing);
        var attempt := q.attempts[selection.attemptId];
        :- Check(attempt.state.Verified?, SelectedAttemptNotVerified);
        var canonical :- CanonicalAttempt(attempt, selection, q.now);
        Ok([One(CanonicalDraft(selection, q.now)),
            One(CanonicalAttemptDraft(canonical, selection, q.correlationId, q.now))])
  }

  // ---------------------------------------------------------------- recovery

  datatype RecoverRequest = RecoverRequest(
    decision: RetryDecision,
    attempt: Attempt,
    lease: Lease,
    unit: TaskUnit,
    actionId: string,
    now: string,
    correlationId: string)

  function TriggerText(trigger: RetryTrigger): string {
    match trigger
    case LeaseExpired => "lease_expired"
    case ExecutorError => "executor_error"
    case ParserFailure => "parser_failure"
    case VerificationRejected => "verification_rejected"
    case CheckerRejected => "checker_rejected"
    case NoReturn => "no_return"
  }

  function RetryReason(d: RetryDecision): string {
    if d.retryAllowed then TriggerText(d.trigger) + "_retry" else "retry_limit_reached"
  }

  /** The caller's lease and attempt are the ledger's latest, when the ledger has any. */
  ghost predicate IsLatest(log: Events, q: RecoverRequest) {
    && (LatestLease(log, q.lease.leaseId).Some? ==> LatestLease(log, q.lease.leaseId).value == q.lease)
    && (LatestAttempt(log, q.attempt.attemptId).Some? ==>
        LatestAttempt(log, q.attempt.attemptId).value == Normalized(q.attempt))
  }

  predicate WasTerminal(q: RecoverRequest) {
    q.attempt.state == q.decision.attemptState
  }

  /** The lease and attempt after recovery. */
  function RecoveredPair(cfg: ProtocolConfig, q: RecoverRequest): Result<(Lease, Attempt)> {
    if q.decision.trigger.LeaseExpired? then
      Expire(cfg, q.lease, q.attempt, q.unit, q.now, q.decision.retryCount)
    else
      var lease :- TransitionLease(q.lease, Released, q.now, TriggerText(q.decision.trigger));
      if WasTerminal(q) then Ok((lease, q.attempt))
      else
        :- Check(!q.decision.attemptState.Submitted?, InvalidRetryDecision);
        var failed := q.decision.attemptState.Failed? || q.decision.attemptState.Rejected?;
        var attempt :- TransitionAttempt(
          q.attempt, q.decision.attemptState, q.now, TriggerText(q.decision.trigger),
          if q.decision.attemptState.Failed? then Some(TriggerText(q.decision.trigger))
          else if q.decision.attemptState.Rejected? then Some("invalid_output") else None,
          if failed then Some(RetryReason(q.decision)) else None, map[]);
        Ok((lease, attempt))
  }

  function RecoveryDrafts(q: RecoverRequest, lease: Lease, attempt: Attempt, unit: TaskUnit): seq<Draft> {
    var tag := Correlation(q.correlationId);
    var reason := TriggerText(q.decision.trigger);
    [Draft(LeaseTerminalKey(lease.leaseId, lease.state),
           LeaseChanged(Some(q.lease.state), lease, None, reason, q.correlationId), q.now)]
    + (if WasTerminal(q) then []
       else [AttemptDraft(Some(q.attempt.state), attempt, tag, reason, q.correlationId, q.now)])
    + [Draft(RecoveryKey(q.unit.unitId, q.decision.trigger, q.attempt.attemptId, q.decision.retryCount),
             RecoveryRecorded(q.actionId, q.decision, q.lease.leaseId, q.attempt.attemptId, q.unit.unitId), q.now),
       UnitDraft(q.unit.state, unit, UnitCause.Recovered(q.decision.retryCount, q.correlationId), tag, q.now)]
  }

  /** What forbids a recovery before its transitions are tried, if anything. */
  ghost function RecoveryFault(cfg: ProtocolConfig, log: Events, q: RecoverRequest): Option<Error> {
    if EvaluateRetry(q.decision.trigger, q.decision.retryCount, cfg.maxRetries) != Ok(q.decision) then
      Some(OtherRetryDecision)
    else if !SameExecution(q.lease, q.attempt, q.unit) then
      Some(OtherExecution)
    else if HasBatch(log, RecoveryBatch(q.actionId)) then None
    else if !IsLatest(log, q) then Some(NotLatestSnapshot)
    else if WasTerminal(q) && LatestAttempt(log, q.attempt.attemptId).None? then
      Some(AttemptNotRecorded)
    else None
  }

  ghost function RecoverWrites(cfg: ProtocolConfig, log: Events, q: RecoverRequest): Result<seq<Write>> {
    var fault := RecoveryFault(cfg, log, q);
    if fault.Some? then Err(fault.value)
    else
      var (lease, attempt) :- RecoveredPair(cfg, q);
      var unit :- TransitionUnit(q.unit, q.decision.nextTaskState, q.now);
      Ok([Batch(RecoveryBatch(q.actionId), RecoveryDrafts(q, lease, attempt, unit))])
  }

  // ---------------------------------------------------------------- decisions

  /** `documentsOk` stands for the header, descriptor, invocation and evidence checks that are not modelled. */
  datatype CompleteRequest = CompleteRequest(decision: ExpansionDecision, unit: TaskUnit, documentsOk: bool)

  predicate DecisionMatches(d: ExpansionDecision, unit: TaskUnit) {
    d.taskId == unit.taskId && d.unitId == unit.unitId && unit.state.Processing?
  }

  /** The decision names a recorded canonical selection of its own unit. */
  function DecisionSelection(log: Events, d: ExpansionDecision): Result<CanonicalSelection> {
    match SelectionEvent(log, d.selectionId)
    case None => Err(SelectionMissing)
    case Some(e) =>
      SelectionEventIsBound(log, d.selectionId);
      var s := e.Payload().selection;
      if s.taskId == d.taskId && s.unitId == d.unitId && s.bundleDigest == d.bundleDigest then Ok(s)
      else Err(SelectionMismatch)
  }

  function DecisionDraft(d: ExpansionDecision): Draft {
    Draft(DecisionKey(d.scope), DecisionRecorded(d), d.decidedAt)
  }

  function CompleteWrites(log: Events, q: CompleteRequest): Result<seq<Write>> {
    if !q.decision.action.Complete? then Err(OtherAction)
    else
      :- Check(DecisionMatches(q.decision, q.unit), UnitNotProcessing);
      var selection :- DecisionSelection(log, q.decision);
      :- Check(q.documentsOk, DocumentsMismatch);
      var completed :- TransitionUnit(q.unit, TaskState.Completed, q.decision.decidedAt);
      Ok([Batch(CompletionBatch(q.decision.decisionId),
                [DecisionDraft(q.decision),
                 UnitDraft(TaskState.Processing, completed, DecisionAccepted(q.decision.decisionId),
                           ByDecision(q.decision.decisionId), q.decision.decidedAt)])])
  }

  datatype ExpandRequest = ExpandRequest(
    decision: ExpansionDecision,
    parent: TaskUnit,
    graph: TaskGraph,
    proposal: Proposal,
    proposalId: string,
    proposalDigest: string,
    plan: MergePlan,
    alnum: char -> bool,
    allowedUnitTypes: set<string>,
    parentOutputs: seq<string>,
    strategyChildren: Option<int>,
    documentsOk: bool)

  function ExpandingOf(q: ExpandRequest, selection: CanonicalSelection): Expanding {
    Expanding(q.alnum, q.decision.taskId, q.parent, q.proposal, q.proposalDigest, selection.outputRefs,
              q.decision.decidedAt)
  }

  /** Every slot names a child of the proposal and the unit id derived for it. */
  predicate SlotsNameChildren(plan: MergePlan, x: Expanding) {
    forall s :: s in plan.requiredSlots ==>
      s.childKey in SpecKeys(x.proposal.childSpecs)
      && s.childUnitId == ChildUnitId(x.alnum, x.proposalDigest, x.parent.unitId, s.childKey)
  }

  predicate UnitTypesAllowed(p: Proposal, allowed: set<string>) {
    forall s :: s in p.childSpecs ==> s.unitType in allowed
  }

  function ChildDraft(unit: TaskUnit): Draft {
    Draft(UnitCreateKey(unit.unitId), UnitCreated(unit), unit.createdAt)
  }

  function RelationDraft(r: TaskRelation, at: string): Draft {
    Draft(RelationKey(r.relationId), RelationCreated(r), at)
  }

  function RelationIds(rs: seq<TaskRelation>): seq<string> {
    seq(|rs|, i requires 0 <= i < |rs| => rs[i].relationId)
  }

  function ExpandDrafts(q: ExpandRequest, x: Expanding, children: seq<TaskUnit>): seq<Draft> {
    var d, relations := q.decision, ChildRelations(x);
    [Draft(ProposalKey(d.scope, q.proposalDigest),
           ProposalRecorded(q.proposalId, q.proposalDigest, |q.proposal.childSpecs|), d.decidedAt),
     DecisionDraft(d),
     Draft(MergePlanKey(d.scope, q.proposalDigest, q.plan), MergePlanRecorded(q.plan), d.decidedAt)]
    + seq(|children|, i requires 0 <= i < |children| => ChildDraft(children[i]))
    + seq(|relations|, i requires 0 <= i < |relations| => RelationDraft(relations[i], d.decidedAt))
    + [Draft(TaskExpandedKey(d.decisionId),
             TaskExpanded(d.decisionId, d.unitId, UnitIds(children), RelationIds(relations)), d.decidedAt)]
  }

  ghost function ExpandWrites(log: Events, q: ExpandRequest): Result<seq<Write>> {
    if !(q.graph.IsDict() && GraphOk(q.graph) && ProposalOk(q.proposal) && PlanOk(q.plan)) then Err(InvalidGraph)
    else if !q.decision.action.Expand? then Err(OtherAction)
    else if !DecisionMatches(q.decision, q.parent) then Err(UnitNotProcessing)
    else
      var selection :- DecisionSelection(log, q.decision);
      :- Check(q.parent.unitId in q.graph.units && q.graph.units[q.parent.unitId].taskId == q.parent.taskId,
               UnknownUnit);
      :- Check(q.documentsOk && UnitTypesAllowed(q.proposal, q.allowedUnitTypes), DocumentsMismatch);
      var _ :- CheckLimits(q.proposal, q.graph.config, q.parent.depth, |q.graph.units|, q.parentOutputs,
                           q.strategyChildren);
      var x := ExpandingOf(q, selection);
      var children :- ChildUnits(x, q.proposal.childSpecs);
      :- Check(SlotsNameChildren(q.plan, x), SlotOfOtherChild);
      Ok([Batch(ExpansionBatch(q.decision.decisionId), ExpandDrafts(q, x, children))])
  }

  // ---------------------------------------------------------------- merging and completion

  datatype MergeTaskRequest = MergeTaskRequest(
    planEvent: Event,
    views: map<BatchId, BatchView>,
    canonicalEvents: Events,
    selected: Option<seq<string>>,
    graph: TaskGraph,
    bundleRef: ArtifactRef,
    now: string)

  /** The view of the batch that the event is tagged with. */
  function ViewOf(views: map<BatchId, BatchView>, e: Event): Option<BatchView> {
    if e.tag.Some? && e.tag.value.id in views then Some(views[e.tag.value.id]) else None
  }

  function SelectedSet(selected: Option<seq<string>>): Option<set<string>> {
    if selected.Some? then Some(Elements(selected.value)) else None
  }

  function BindingList(slots: seq<RequiredSlot>, byUnit: map<string, Event>): seq<SlotBinding>
    requires forall s :: s in slots ==> SlotReady(s, byUnit)
  {
    if slots == [] then [] else BindingList(slots[..|slots| - 1], byUnit) + [BindingOf(slots[|slots| - 1], byUnit)]
  }

  lemma {:induction false} BindingListAt(slots: seq<RequiredSlot>, byUnit: map<string, Event>,
                                         bindings: seq<SlotBinding>)
    requires |bindings| == |slots|
    requires forall i :: 0 <= i < |slots| ==> SlotReady(slots[i], byUnit) && bindings[i] == BindingOf(slots[i], byUnit)
    ensures forall s :: s in slots ==> SlotReady(s, byUnit)
    ensures BindingList(slots, byUnit) == bindings
  {
    if slots != [] {
      var n := |slots| - 1;
      BindingListAt(slots[..n], byUnit, bindings[..n]);
      assert bindings == bindings[..n] + [bindings[n]];
    }
  }

  ghost function MergeTaskWrites(log: Events, q: MergeTaskRequest): Result<seq<Write>> {
    if !SelectionOk(q.selected) then Err(RepeatedChildSelected)
    else
      :- Check(q.planEvent.Payload().MergePlanRecorded?, MergePlanMissing);
      :- Check(ExpansionVisible(ViewOf(q.views, q.planEvent)), TornExpansion);
      var plan := q.planEvent.Payload().plan;
      :- Check(PlanOk(plan), MalformedMergePlan);
      var byUnit := CanonicalByUnit(q.canonicalEvents);
      var selected := SelectedSet(q.selected);
      :- Check(Bindable(plan.requiredSlots, byUnit, selected), SlotsNotCanonical);
      :- Check(plan.parentUnitId in q.graph.units, UnknownUnit);
      WantedMembers(plan.requiredSlots, selected);
      var bindings := BindingList(WantedSlots(plan.requiredSlots, selected), byUnit);
      Ok([Batch(MergeTaskBatch(plan.mergePlanId),
                MergeTaskDrafts(plan, bindings, q.graph.units[plan.parentUnitId].depth, q.bundleRef, q.now))])
  }

  ghost function ResolveWrites(log: Events, record: MergeRecord, rs: seq<OutputResolution>,
                               now: string): Result<seq<Write>>
  {
    var _ :- ValidateResolution(log, record, rs);
    Ok([Batch(MergeResolutionBatch(record.recordId), ResolutionDrafts(record, rs, now))])
  }

  datatype CompletionRequest = CompletionRequest(
    owner: TaskUnit,
    refs: seq<ExpectedOutputRef>,
    resolutions: seq<OutputResolution>,
    contributions: seq<ContributionRecord>,
    now: string)

  ghost function CompletionWrites(log: Events, q: CompletionRequest): Result<seq<Write>> {
    var resolved := ResolvedSet(q.resolutions);
    :- Check(!CompletionConflicts(log, q.owner.unitId, resolved), CompletionConflict);
    var recorded :- RecordedUpTo(log, |log|);
    :- Check(FullyResolved(q.owner, q.refs, q.resolutions, recorded), OutputsNotResolved);
    var completed :- TransitionUnit(q.owner, TaskState.Completed, q.now);
    var eligible :- EligibleContributions(q.owner, q.refs, q.contributions, q.now);
    Ok([Batch(ParentCompletionBatch(q.owner.unitId, resolved), CompletionDrafts(completed, eligible, resolved, q.now))])
  }

  // ---------------------------------------------------------------- failure and readiness of units

  datatype FailureRequest = FailureRequest(
    parent: TaskUnit,
    child: TaskUnit,
    graph: TaskGraph,
    childEvent: Event,
    now: string,
    correlationId: string)

  predicate Current(g: TaskGraph, unit: TaskUnit) {
    unit.unitId in g.units && g.units[unit.unitId] == unit
  }

  /** The event is the ledger's own, and records the child's failure. */
  predicate RecordsFailure(log: Events, e: Event, child: TaskUnit, taskId: string) {
    && 1 <= e.seqNo <= |log| && log[e.seqNo - 1] == e
    && e.Payload().UnitChanged? && e.Payload().unit.taskId == taskId
    && e.Payload().unit.unitId == child.unitId && e.Payload().unit.state.Failed?
  }

  function FailureWrites(log: Events, q: FailureRequest): Result<seq<Write>> {
    if !(q.graph.taskId == q.parent.taskId && q.child.taskId == q.graph.taskId) then Err(OtherTask)
    else
      :- Check(Current(q.graph, q.parent) && Current(q.graph, q.child), NotCurrentSnapshot);
      :- Check(q.child.parentUnitId == Some(q.parent.unitId) && q.child.state.Failed?, ChildNotFailed);
      :- Check(RecordsFailure(log, q.childEvent, q.child, q.graph.taskId), FailureNotRecorded);
      var failed :- TransitionUnit(q.parent, TaskState.Failed, q.now);
      Ok([One(UnitDraft(q.parent.state, failed, ChildFailed(q.child.unitId, q.correlationId),
                        Correlation(q.correlationId), q.now))])
  }

  datatype ReadyRequest = ReadyRequest(unit: TaskUnit, graph: TaskGraph, now: string, correlationId: string)

  ghost function ReadyWrites(q: ReadyRequest): Result<seq<Write>> {
    if !(q.graph.IsDict() && GraphOk(q.graph)) then Err(InvalidGraph)
    else
      :- Check(Current(q.graph, q.unit), NotCurrentSnapshot);
      :- Check(IsActivatable(q.graph, q.unit.unitId), DependenciesMissing);
      var ready :- TransitionUnit(q.unit, TaskState.Ready, q.now);
      Ok([One(UnitDraft(TaskState.Blocked, ready, DependencyReady(q.correlationId), Correlation(q.correlationId),
                        q.now))])
  }

  function CreateWrites(log: Events, kind: ContributionKind, taskId: string, source: BatchInput,
                        at: string): Result<seq<Write>>
  {
    var c :- ContributionOf(kind, taskId, source, log);
    Ok([One(CreationDraft(c, at))])
  }

  // ---------------------------------------------------------------- all steps

  datatype Step =
    | RegisterRoot(root: TaskUnit, at: string)
    | Schedule(schedule: ScheduleRequest)
    | RenewLease(lease: Lease, at: string, correlationId: string)
    | Submit(submission: Submission, attempt: Attempt, lease: Lease, correlationId: string)
    | Verify(report: VerificationReport, attempt: Attempt, correlationId: string)
    | Bind(bind: BindRequest)
    | Recover(recover: RecoverRequest)
    | CompleteUnit(complete: CompleteRequest)
    | ExpandUnit(expand: ExpandRequest)
    | CreateMergeTask(mergeTask: MergeTaskRequest)
    | ResolveOutputs(record: MergeRecord, resolutions: seq<OutputResolution>, at: string)
    | CompleteParent(completion: CompletionRequest)
    | FailParent(failure: FailureRequest)
    | MakeReady(ready: ReadyRequest)
    | CreateContribution(kind: ContributionKind, taskId: string, source: BatchInput, at: string)
    | Settle(settle: SettleRequest)
    | Prune(prune: PruneRequest)

  ghost function Writes(cfg: ProtocolConfig, log: Events, step: Step): Result<seq<Write>> {
    match step
    case RegisterRoot(root, at) => Ok([One(Draft(RootUnitKey(root.unitId), UnitCreated(root), at))])
    case Schedule(q) => ScheduleWrites(cfg, log, q)
    case RenewLease(lease, at, correlationId) => HeartbeatWrites(cfg, log, lease, at, correlationId)
    case Submit(s, attempt, lease, correlationId) => SubmitWrites(cfg, log, s, attempt, lease, correlationId)
    case Verify(report, attempt, correlationId) => VerifyWrites(report, attempt, correlationId)
    case Bind(q) => BindWrites(log, q)
    case Recover(q) => RecoverWrites(cfg, log, q)
    case CompleteUnit(q) => CompleteWrites(log, q)
    case ExpandUnit(q) => ExpandWrites(log, q)
    case CreateMergeTask(q) => MergeTaskWrites(log, q)
    case ResolveOutputs(record, rs, at) => ResolveWrites(log, record, rs, at)
    case CompleteParent(q) => CompletionWrites(log, q)
    case FailParent(q) => FailureWrites(log, q)
    case MakeReady(q) => ReadyWrites(q)
    case CreateContribution(kind, taskId, source, at) => CreateWrites(log, kind, taskId, source, at)
    case Settle(q) => SettleWrites(log, q)
    case Prune(q) => PruneWrites(log, q)
  }

  /** The ledger after these calls; a step that raises before its first call leaves it alone. */
  ghost function After(log: Events, writes: Result<seq<Write>>): Events {
    if writes.Ok? then Commit(log, writes.value) else log
  }

  /** The drafts of these calls; none when the step raises before its first call. */
  ghost function DraftsOf(writes: Result<seq<Write>>): seq<Draft> {
    if writes.Ok? then AllDrafts(writes.value) else []
  }

  /** The ledger after a step, whether or not the step raises. */
  ghost function Exec(cfg: ProtocolConfig, log: Events, step: Step): Events {
    After(log, Writes(cfg, log, step))
  }

  // One unfolding of `Exec` for each step, so that later proofs see one step at a time.

  lemma {:induction false} ExecSchedule(cfg: ProtocolConfig, log: Events, q: ScheduleRequest)
    ensures Exec(cfg, log, Schedule(q)) == After(log, ScheduleWrites(cfg, log, q))
  {
  }

  lemma {:induction false} ExecRenew(cfg: ProtocolConfig, log: Events, lease: Lease, at: string, correlationId: string)
    ensures Exec(cfg, log, RenewLease(lease, at, correlationId))
      == After(log, HeartbeatWrites(cfg, log, lease, at, correlationId))
  {
  }

  lemma {:induction false} ExecSubmit(cfg: ProtocolConfig, log: Events, s: Submission, attempt: Attempt, lease: Lease,
                                      correlationId: string)
    ensures Exec(cfg, log, Submit(s, attempt, lease, correlationId))
      == After(log, SubmitWrites(cfg, log, s, attempt, lease, correlationId))
  {
  }

  lemma {:induction false} ExecVerify(cfg: ProtocolConfig, log: Events, report: VerificationReport, attempt: Attempt,
                                      correlationId: string)
    ensures Exec(cfg, log, Verify(report, attempt, correlationId))
      == After(log, VerifyWrites(report, attempt, correlationId))
  {
  }

  lemma {:induction false} ExecBind(cfg: ProtocolConfig, log: Events, q: BindRequest)
    ensures Exec(cfg, log, Bind(q)) == After(log, BindWrites(log, q))
  {
  }

  lemma {:induction false} ExecRecover(cfg: ProtocolConfig, log: Events, q: RecoverRequest)
    ensures Exec(cfg, log, Recover(q)) == After(log, RecoverWrites(cfg, log, q))
  {
  }

  lemma {:induction false} ExecComplete(cfg: ProtocolConfig, log: Events, q: CompleteRequest)
    ensures Exec(cfg, log, CompleteUnit(q)) == After(log, CompleteWrites(log, q))
  {
  }

  lemma {:induction false} ExecExpand(cfg: ProtocolConfig, log: Events, q: ExpandRequest)
    ensures Exec(cfg, log, ExpandUnit(q)) == After(log, ExpandWrites(log, q))
  {
  }

  lemma {:induction false} ExecMergeTask(cfg: ProtocolConfig, log: Events, q: MergeTaskRequest)
    ensures Exec(cfg, log, CreateMergeTask(q)) == After(log, MergeTaskWrites(log, q))
  {
  }

  lemma {:induction false} ExecResolve(cfg: ProtocolConfig, log: Events, record: MergeRecord,
                                       rs: seq<OutputResolution>, at: string)
    ensures Exec(cfg, log, ResolveOutputs(record, rs, at)) == After(log, ResolveWrites(log, record, rs, at))
  {
  }

  lemma {:induction false} ExecCompletion(cfg: ProtocolConfig, log: Events, q: CompletionRequest)
    ensures Exec(cfg, log, CompleteParent(q)) == After(log, CompletionWrites(log, q))
  {
  }

  lemma {:induction false} ExecReady(cfg: ProtocolConfig, log: Events, q: ReadyRequest)
    ensures Exec(cfg, log, MakeReady(q)) == After(log, ReadyWrites(q))
  {
  }

  lemma {:induction false} ExecCreate(cfg: ProtocolConfig, log: Events, kind: ContributionKind, taskId: string,
                                      source: BatchInput, at: string)
    ensures Exec(cfg, log, CreateContribution(kind, taskId, source, at))
      == After(log, CreateWrites(log, kind, taskId, source, at))
  {
  }

  lemma {:induction false} ExecSettle(cfg: ProtocolConfig, log: Events, q: SettleRequest)
    ensures Exec(cfg, log, Settle(q)) == After(log, SettleWrites(log, q))
  {
  }

  lemma {:induction false} ExecPrune(cfg: ProtocolConfig, log: Events, q: PruneRequest)
    ensures Exec(cfg, log, Prune(q)) == After(log, PruneWrites(log, q))
  {
  }

  // ---------------------------------------------------------------- several steps in one call

  /** The step raises nothing: neither before its calls nor in one of them. */
  ghost predicate Succeeds(log: Events, writes: Result<seq<Write>>) {
    writes.Ok? && Commits(log, writes.value)
  }

  /** The ledger after steps made one after the other until one raises, and whether none did. */
  ghost function InTurn(cfg: ProtocolConfig, log: Events, steps: seq<Step>): (Events, bool) {
    if steps == [] then (log, true)
    else
      var last := steps[|steps| - 1];
      var (before, ok) := InTurn(cfg, log, steps[..|steps| - 1]);
      if ok then (Exec(cfg, before, last), Succeeds(before, Writes(cfg, before, last))) else (before, false)
  }

  lemma {:induction false} InTurnNext(cfg: ProtocolConfig, log: Events, steps: seq<Step>, next: Step)
    requires InTurn(cfg, log, steps).1
    ensures var before := InTurn(cfg, log, steps).0;
      InTurn(cfg, log, steps + [next]) == (Exec(cfg, before, next), Succeeds(before, Writes(cfg, before, next)))
  {
    assert (steps + [next])[..|steps|] == steps;
  }

  lemma {:induction false} InTurnStops(cfg: ProtocolConfig, log: Events, steps: seq<Step>, more: seq<Step>)
    requires !InTurn(cfg, log, steps).1
    ensures InTurn(cfg, log, steps + more) == InTurn(cfg, log, steps)
  {
    if more == [] {
      assert steps + more == steps;
    } else {
      var n := |more| - 1;
      InTurnStops(cfg, log, steps, more[..n]);
      assert (steps + more)[..|steps + more| - 1] == steps + more[..n];
    }
  }

  /** Contributions asked for together: one step for each source batch. */
  function ContributionSteps(taskId: string, sources: seq<(ContributionKind, BatchInput)>, at: string): seq<Step> {
    seq(|sources|, i requires 0 <= i < |sources| => CreateContribution(sources[i].0, taskId, sources[i].1, at))
  }

  lemma {:induction false} ContributionStepsAt(taskId: string, sources: seq<(ContributionKind, BatchInput)>, n: nat,
                                               at: string)
    requires n < |sources|
    ensures ContributionSteps(taskId, sources[..n + 1], at)
      == ContributionSteps(taskId, sources[..n], at) + [CreateContribution(sources[n].0, taskId, sources[n].1, at)]
    ensures ContributionSteps(taskId, sources, at)
      == ContributionSteps(taskId, sources[..n + 1], at) + ContributionSteps(taskId, sources[n + 1..], at)
  {
  }

  /** The next merge task asked for, after those before it went through. */
  lemma {:induction false} NextMergeTask(cfg: ProtocolConfig, log: Events, steps: seq<Step>, q: MergeTaskRequest)
    requires InTurn(cfg, log, steps).1
    ensures var before := InTurn(cfg, log, steps).0;
      InTurn(cfg, log, steps + [CreateMergeTask(q)])
        == (After(before, MergeTaskWrites(before, q)), Succeeds(before, MergeTaskWrites(before, q)))
  {
    InTurnNext(cfg, log, steps, CreateMergeTask(q));
  }

  /** The next contribution asked for, after those before it went through. */
  lemma {:induction false} NextContribution(cfg: ProtocolConfig, log: Events, steps: seq<Step>, kind: ContributionKind,
                                            taskId: string,
                                            source: BatchInput, at: string)
    requires InTurn(cfg, log, steps).1
    ensures var before := InTurn(cfg, log, steps).0;
      InTurn(cfg, log, steps + [CreateContribution(kind, taskId, source, at)])
        == (After(before, CreateWrites(before, kind, taskId, source, at)),
            Succeeds(before, CreateWrites(before, kind, taskId, source, at)))
  {
    var before := InTurn(cfg, log, steps).0;
    assert Writes(cfg, before, CreateContribution(kind, taskId, source, at))
      == CreateWrites(before, kind, taskId, source, at);
    InTurnNext(cfg, log, steps, CreateContribution(kind, taskId, source, at));
  }

  /** What the merge coordinator is given besides the plan events; bundles are staged per plan. */
  datatype MergeTaskInputs = MergeTaskInputs(
    views: map<BatchId, BatchView>,
    canonicalEvents: Events,
    selected: Option<seq<string>>,
    graph: TaskGraph,
    bundles: string -> ArtifactRef,
    now: string)

  function MergeTaskFor(inputs: MergeTaskInputs, e: Event): MergeTaskRequest
    requires e.Payload().MergePlanRecorded?
  {
    MergeTaskRequest(e, inputs.views, inputs.canonicalEvents, inputs.selected, inputs.graph,
                     inputs.bundles(e.Payload().plan.mergePlanId), inputs.now)
  }

  /** One step for each plan event; other events are passed over. */
  function MergeTaskSteps(inputs: MergeTaskInputs, events: Events): seq<Step> {
    if events == [] then []
    else
      var before := MergeTaskSteps(inputs, events[..|events| - 1]);
      var last := events[|events| - 1];
      if last.Payload().MergePlanRecorded? then before + [CreateMergeTask(MergeTaskFor(inputs, last))] else before
  }

  lemma {:induction false} MergeTaskStepsSplit(inputs: MergeTaskInputs, events: Events, n: nat)
    returns (more: seq<Step>)
    requires n <= |events|
    ensures MergeTaskSteps(inputs, events) == MergeTaskSteps(inputs, events[..n]) + more
  {
    if n == |events| {
      more := [];
      assert events[..n] == events;
    } else {
      more := MergeTaskStepsSplit(inputs, events[..|events| - 1], n);
      assert events[..|events| - 1][..n] == events[..n];
      if events[|events| - 1].Payload().MergePlanRecorded? {
        more := more + [CreateMergeTask(MergeTaskFor(inputs, events[|events| - 1]))];
      }
    }
  }

  /** The steps of a run and the ledger before each of them. */
  datatype Run = Run(logs: nat -> Events, steps: nat -> Step) {
    ghost function Start(): Events { logs(0) }

    ghost function At(k: nat): Events { logs(k) }

    ghost function StepAt(k: nat): Step { steps(k) }
  }

  /** Every step has an outcome on every ledger, so each finite run is the beginning of one of these. */
  ghost predicate IsRun(cfg: ProtocolConfig, run: Run) {
    forall i: nat {:trigger run.StepAt(i)} :: run.At(i + 1) == Exec(cfg, run.At(i), run.StepAt(i))
  }

  ghost function LedgerAfter(cfg: ProtocolConfig, log: Events, steps: nat -> Step, n: nat): Events {
    if n == 0 then log else Exec(cfg, LedgerAfter(cfg, log, steps, n - 1), steps(n - 1))
  }

  /** Any steps with any arguments make a run from any ledger. */
  lemma {:induction false} EveryStepRuns(cfg: ProtocolConfig, log: Events, steps: nat -> Step) returns (run: Run)
    ensures IsRun(cfg, run) && run.Start() == log && run.steps == steps
  {
    run := Run((n: nat) => LedgerAfter(cfg, log, steps, n), steps);
  }

  /** Whatever the caller supplies, a run keeps the ledger well formed and append-only. */
  lemma {:induction false} RunKeepsWellFormed(cfg: ProtocolConfig, run: Run, k: nat)
    requires IsRun(cfg, run) && WellFormed(run.Start())
    ensures WellFormed(run.At(k)) && run.Start() <= run.At(k)
  {
    if k > 0 {
      RunKeepsWellFormed(cfg, run, k - 1);
      ExecKeepsWellFormed(cfg, run.At(k - 1), run.StepAt(k - 1));
    }
  }

  lemma {:induction false} ExecKeepsWellFormed(cfg: ProtocolConfig, log: Events, step: Step)
    requires WellFormed(log)
    ensures WellFormed(Exec(cfg, log, step)) && log <= Exec(cfg, log, step)
  {
    var writes := Writes(cfg, log, step);
    if writes.Ok? { CommitKeepsWellFormed(log, writes.value); }
  }
}
