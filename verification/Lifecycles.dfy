/**
 * The pure rules of units, leases, attempts and retries
 * (src/tokenshare/core/state_machines.py, leases.py, recovery.py).
 */
module Lifecycles {
  import opened Basics
  import opened Objects

  // ---------------------------------------------------------------- transition tables

  predicate UnitMayMove(before: TaskState, after: TaskState) {
    match before
    case Created => after.Ready? || after.Blocked?
    case Blocked => after.Ready? || after.Cancelled?
    case Ready => after.Processing? || after.Cancelled?
    case Processing => after.Ready? || after.Failed? || after.Completed? || after.Cancelled?
    case _ => false
  }

  predicate LeaseMayMove(before: LeaseState, after: LeaseState) {
    before.Active?
  }

  predicate AttemptMayMove(before: AttemptState, after: AttemptState) {
    match before
    case Created => after.Running? || after.Superseded?
    case Running => after.Submitted? || after.Failed? || after.Superseded?
    case Submitted => after.Verified? || after.Rejected? || after.Failed?
    case Verified => after.Canonical?
    case _ => false
  }

  function TransitionUnit(unit: TaskUnit, state: TaskState, changedAt: string): Result<TaskUnit> {
    if !UnitMayMove(unit.state, state) then Err(IllegalUnitTransition)
    else Ok(unit.(state := state, updatedAt := changedAt))
  }

  function TransitionLease(lease: Lease, state: LeaseState, changedAt: string, reason: string): Result<Lease> {
    if !LeaseMayMove(lease.state, state) then Err(IllegalLeaseTransition)
    else if state.Active? then Ok(lease)
    else Ok(lease.(state := state, terminatedAt := Some(changedAt), terminatedReason := Some(reason)))
  }

  function OrElse(text: Option<string>, default: string): string {
    if text.GetOr("") == "" then default else text.value
  }

  /** Every target of `transition_attempt` except Submitted. */
  function TransitionAttempt(attempt: Attempt, state: AttemptState, changedAt: string, reason: string,
                             failureKind: Option<string>, failureReason: Option<string>,
                               metadata: JsonObject): Result<Attempt>
    requires !state.Submitted?
  {
    if !AttemptMayMove(attempt.state, state) then Err(IllegalAttemptTransition)
    else match state
      case Running => Ok(attempt.(state := state, startedAt := Some(OrElse(attempt.startedAt, changedAt))))
      case Failed => Ok(attempt.(
        state := state, finishedAt := Some(changedAt),
        failureKind := Some(OrElse(failureKind, "executor_error")),
          failureReason := Some(OrElse(failureReason, reason))))
      case Verified => Ok(attempt.(state := state, finishedAt := Some(changedAt)))
      case Rejected => Ok(attempt.(
        state := state, finishedAt := Some(changedAt),
        failureKind := Some(OrElse(failureKind, "invalid_output")),
          failureReason := Some(OrElse(failureReason, reason))))
      case Canonical => Ok(attempt.(state := state, metadata := Some(attempt.metadata.GetOr(map[]) + metadata)))
      case _ => Ok(attempt.(state := state, finishedAt := Some(changedAt), supersededByAttemptId := None))
  }

  function SubmitAttempt(attempt: Attempt, submission: Submission): Result<Attempt> {
    if !AttemptMayMove(attempt.state, AttemptState.Submitted) then Err(IllegalAttemptTransition)
    else Ok(attempt.(
      state := AttemptState.Submitted,
      submittedAt := Some(submission.submittedAt),
      environmentSummary :=
        if submission.environmentSummary != map[] then Some(submission.environmentSummary)
          else attempt.environmentSummary,
      rawOutputRef := submission.rawOutputRef,
      parsedOutputRef := submission.parsedOutputRef,
      candidateOutputRefs := Some(submission.candidateOutputRefs),
      logRef := submission.logRef))
  }

  // ---------------------------------------------------------------- retries

  function AttemptOutcome(trigger: RetryTrigger): AttemptState {
    match trigger
    case LeaseExpired => AttemptState.Superseded
    case NoReturn => AttemptState.Superseded
    case ExecutorError => AttemptState.Failed
    case _ => AttemptState.Rejected
  }

  /** What `RetryDecision.__post_init__` accepts. */
  predicate RetryDecisionOk(d: RetryDecision) {
    && d.retryCount >= 0
    && d.attemptState == AttemptOutcome(d.trigger)
    && d.nextTaskState == if d.retryAllowed then TaskState.Ready else TaskState.Failed
  }

  function EvaluateRetry(trigger: RetryTrigger, retryCount: int, maxRetries: int): (r: Result<RetryDecision>)
    ensures r.Ok? ==> RetryDecisionOk(r.value)
  {
    if retryCount < 0 then Err(NegativeRetryCount)
    else if maxRetries < 0 then Err(NegativeMaxRetries)
    else
      var allowed := retryCount <= maxRetries;
      Ok(RetryDecision(trigger, allowed, if allowed then TaskState.Ready else TaskState.Failed,
                       AttemptOutcome(trigger), retryCount))
  }

  // ---------------------------------------------------------------- leases

  datatype LeaseClaim = LeaseClaim(
    decision: SchedulingDecision,
    lease: Lease,
    created: Attempt,
    running: Attempt,
    unit: TaskUnit)

  /** `LeaseManager.claim` on a unit: the next ordinal, an Active lease and a started attempt. */
  function Claim(cfg: ProtocolConfig, decision: SchedulingDecision, unit: TaskUnit, leaseId: string, attemptId: string,
                 fencingToken: string, now: string): LeaseClaim
  {
    var ordinal := unit.lastAttemptOrdinal + 1;
    var lease := Lease(leaseId, unit.taskId, unit.unitId, attemptId, decision.clientId, Active, fencingToken, now,
                       cfg.clock.AddSeconds(now, cfg.leaseTtlSeconds), None, 0, "primary", None, None, map[],
                       ordinal, None, "phase2.lease.v2");
    var created := Attempt(attemptId, unit.taskId, unit.unitId, leaseId, decision.clientId, AttemptState.Created,
                           "primary", now, None, None, None, None, None, None, None, None, None, None, None, None, None,
                           ordinal, "phase2.attempt.v2");
    LeaseClaim(decision, lease, created, created.(state := AttemptState.Running, startedAt := Some(now)),
               unit.(lastAttemptOrdinal := ordinal))
  }

  function Heartbeat(cfg: ProtocolConfig, lease: Lease, now: string): Result<Lease> {
    if !lease.state.Active? then Err(LeaseNotActive)
    else if cfg.clock.parse(now) >= cfg.clock.parse(lease.expiresAt) then Err(LeaseDeadlinePassed)
    else Ok(lease.(
      lastHeartbeatAt := Some(now), heartbeatCount := lease.heartbeatCount + 1,
      expiresAt := cfg.clock.AddSeconds(now, cfg.leaseTtlSeconds)))
  }

  /** The lease, attempt and unit of one recovery name each other. */
  predicate SameExecution(lease: Lease, attempt: Attempt, unit: TaskUnit) {
    && attempt.taskId == unit.taskId && attempt.unitId == unit.unitId
    && lease.taskId == attempt.taskId && lease.unitId == attempt.unitId
    && lease.attemptId == attempt.attemptId && lease.leaseId == attempt.leaseId
    && lease.clientId == attempt.clientId
  }

  function Expire(cfg: ProtocolConfig, lease: Lease, attempt: Attempt, unit: TaskUnit, now: string, retryCount: int)
    : Result<(Lease, Attempt)>
  {
    if !SameExecution(lease, attempt, unit) then Err(OtherExecution)
    else
      :- Check(lease.state.Active?, LeaseNotActive);
      :- Check(cfg.clock.parse(now) >= cfg.clock.parse(lease.expiresAt), LeaseDeadlineAhead);
      :- Check(attempt.state.Created? || attempt.state.Running?, AttemptNotLive);
      var decision :- EvaluateRetry(LeaseExpired, retryCount, cfg.maxRetries);
      var expired :- TransitionLease(lease, Expired, now, "lease_expired");
      var superseded :- TransitionAttempt(attempt, decision.attemptState, now, "lease_expired", None, None, map[]);
      Ok((expired, superseded))
  }

  /**
   * For an Active lease with a live attempt the clock decides: at any instant exactly one of
   * heartbeat and expiry is allowed, and expiry always supersedes the attempt.
   */
  lemma {:induction false} HeartbeatOrExpire(cfg: ProtocolConfig, lease: Lease, attempt: Attempt, unit: TaskUnit,
                                             now: string, retryCount: nat)
    requires lease.state.Active? && (attempt.state.Created? || attempt.state.Running?)
    requires SameExecution(lease, attempt, unit) && cfg.maxRetries >= 0
    ensures Heartbeat(cfg, lease, now).Ok? <==> !Expire(cfg, lease, attempt, unit, now, retryCount).Ok?
    ensures Expire(cfg, lease, attempt, unit, now, retryCount).Ok? ==>
      Expire(cfg, lease, attempt, unit, now, retryCount).value.0.state.Expired?
      && Expire(cfg, lease, attempt, unit, now, retryCount).value.1.state.Superseded?
  {
    var decision := EvaluateRetry(LeaseExpired, retryCount, cfg.maxRetries);
    assert AttemptMayMove(attempt.state, decision.value.attemptState);
  }

  /** After a heartbeat at `now` the lease can be renewed again exactly before `now + ttl`, however many came before. */
  lemma {:induction false} HeartbeatRenews(cfg: ProtocolConfig, lease: Lease, now: string, later: string)
    requires cfg.clock.Lawful() && Heartbeat(cfg, lease, now).Ok?
    ensures Heartbeat(cfg, Heartbeat(cfg, lease, now).value, later).Ok?
      <==> cfg.clock.parse(later) < cfg.clock.parse(now) + cfg.leaseTtlSeconds
  {
    assert cfg.clock.parse(Heartbeat(cfg, lease, now).value.expiresAt) == cfg.clock.parse(now) + cfg.leaseTtlSeconds;
  }

  // ---------------------------------------------------------------- submissions

  /** None when the submission is accepted, else the recorded rejection reason. */
  function SubmissionRejection(clock: Clock, s: Submission, attempt: Attempt, lease: Lease): Option<Rejection> {
    if !attempt.state.Running? then Some(AttemptNotRunning)
    else if !lease.state.Active? then Some(LeaseEnded)
    else if s.taskId != attempt.taskId || lease.taskId != attempt.taskId then Some(TaskIdMismatch)
    else if s.unitId != attempt.unitId || lease.unitId != attempt.unitId then Some(UnitIdMismatch)
    else if s.attemptId != attempt.attemptId || lease.attemptId != attempt.attemptId then Some(AttemptIdMismatch)
    else if s.leaseId != attempt.leaseId || lease.leaseId != attempt.leaseId then Some(LeaseIdMismatch)
    else if s.fencingToken != lease.fencingToken then Some(FencingTokenMismatch)
    else if clock.parse(s.submittedAt) > clock.parse(lease.expiresAt) then Some(LeaseDeadlineExceeded)
    else None
  }
}
