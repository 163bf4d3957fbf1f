/**
 * How often a unit is attempted, over whole runs
 * (src/tokenshare/core/leases.py:52-63, src/tokenshare/core/recovery.py:132-142,
 * src/tokenshare/core/state_machines.py:10-21, src/tokenshare/experiments/cli.py:415-433).
 */
module Retries {
  import opened Basics
  import opened Objects
  import opened Ledger
  import opened Lifecycles
  import opened TaskGraphs
  import opened Projections
  import opened Expansion
  import opened Merging
  import opened Completions
  import opened Pruning
  import Settlement
  import opened Steps
  import opened Runs

  predicate StartsAttempt(p: Payload, unitId: string) {
    p.AttemptChanged? && p.oldAttemptState.None? && p.attempt.unitId == unitId
  }

  predicate ChangesUnit(p: Payload, unitId: string) {
    (p.UnitChanged? || p.UnitCreated?) && p.unit.unitId == unitId
  }

  /** The ordinals of the unit's attempts, in the order they were created. */
  ghost function Ordinals(log: Events, unitId: string): seq<int> {
    if log == [] then []
    else
      var p := log[|log| - 1].Payload();
      var before := Ordinals(log[..|log| - 1], unitId);
      if StartsAttempt(p, unitId) then before + [p.attempt.attemptOrdinal] else before
  }

  /** A unit still to be attempted has at most `maxRetries` attempts behind it; any unit at most one more. */
  predicate Within(state: TaskState, attempts: nat, maxRetries: int) {
    if state.Created? || state.Blocked? || state.Ready? then attempts <= maxRetries else attempts <= maxRetries + 1
  }

  ghost predicate CountsUp(ordinals: seq<int>) {
    forall k :: 0 <= k < |ordinals| ==> ordinals[k] == k
  }

  ghost predicate Counted(log: Events, unitId: string, maxRetries: int) {
    var ordinals := Ordinals(log, unitId);
    && CountsUp(ordinals)
    && match LatestUnit(log, unitId)
       case None => ordinals == []
       case Some(t) => t.lastAttemptOrdinal == |ordinals| - 1 && Within(t.state, |ordinals|, maxRetries)
  }

  /**
   * A draft of a step that schedules nothing: units are created unattempted, change by a legal move from
   * their latest snapshot, are not taken up, and go back to Ready only while a retry is left.
   */
  ghost predicate Follows(log: Events, p: Payload, maxRetries: int) {
    match p
    case UnitCreated(u) => LatestUnit(log, u.unitId).None? && u.lastAttemptOrdinal == -1
    case UnitChanged(_, u, _) =>
      && LatestUnit(log, u.unitId).Some?
      && var t := LatestUnit(log, u.unitId).value;
         && UnitMayMove(t.state, u.state) && !u.state.Processing? && u.lastAttemptOrdinal == t.lastAttemptOrdinal
         && (t.state.Processing? && u.state.Ready? ==> t.lastAttemptOrdinal < maxRetries)
    case AttemptChanged(before, _, _, _) => before.Some?
    case _ => true
  }

  // ---------------------------------------------------------------- what appended events do

  lemma {:induction false} CountEffect(log: Events, e: Event, unitId: string)
    ensures Ordinals(log + [e], unitId)
      == Ordinals(log, unitId) + if StartsAttempt(e.Payload(), unitId) then [e.Payload().attempt.attemptOrdinal] else []
    ensures LatestUnit(log + [e], unitId)
      == if ChangesUnit(e.Payload(), unitId) then Some(e.Payload().unit) else LatestUnit(log, unitId)
  {
    assert (log + [e])[..|log|] == log;
  }

  /** The snapshot fits a unit with this many attempts. */
  ghost predicate FitsCount(p: Payload, unitId: string, attempts: nat, maxRetries: int) {
    && !StartsAttempt(p, unitId)
    && (ChangesUnit(p, unitId) ==>
          p.unit.lastAttemptOrdinal == attempts - 1 && Within(p.unit.state, attempts, maxRetries))
  }

  lemma {:induction false} FittingEventsKeep(log: Events, more: Events, unitId: string, maxRetries: int)
    requires Counted(log, unitId, maxRetries)
    requires forall i :: 0 <= i < |more| ==> FitsCount(more[i].Payload(), unitId, |Ordinals(log, unitId)|, maxRetries)
    ensures Counted(log + more, unitId, maxRetries) && Ordinals(log + more, unitId) == Ordinals(log, unitId)
  {
    if more == [] {
      assert log + more == log;
    } else {
      var n := |more| - 1;
      FittingEventsKeep(log, more[..n], unitId, maxRetries);
      CountEffect(log + more[..n], more[n], unitId);
      assert log + more == log + more[..n] + [more[n]];
    }
  }

  lemma {:induction false} FollowingFits(log: Events, p: Payload, unitId: string, maxRetries: int)
    requires Counted(log, unitId, maxRetries) && Follows(log, p, maxRetries) && maxRetries >= 0
    ensures FitsCount(p, unitId, |Ordinals(log, unitId)|, maxRetries)
  {
  }

  ghost predicate AllFollow(log: Events, drafts: seq<Draft>, maxRetries: int) {
    forall d :: d in drafts ==> Follows(log, d.payload, maxRetries)
  }

  /** Calls whose drafts all follow keep the count of every unit. */
  lemma {:induction false} FollowingKeeps(log: Events, writes: seq<Write>, unitId: string, maxRetries: int)
    requires Counted(log, unitId, maxRetries) && AllFollow(log, AllDrafts(writes), maxRetries) && maxRetries >= 0
    ensures Counted(Commit(log, writes), unitId, maxRetries)
  {
    var next := Commit(log, writes);
    CommitAddsOnlyDrafts(log, writes);
    var more := next[|log|..];
    assert next == log + more;
    forall i | 0 <= i < |more| ensures FitsCount(more[i].Payload(), unitId, |Ordinals(log, unitId)|, maxRetries) {
      assert next[|log| + i].draft in AllDrafts(writes);
      FollowingFits(log, more[i].Payload(), unitId, maxRetries);
    }
    FittingEventsKeep(log, more, unitId, maxRetries);
  }

  // ---------------------------------------------------------------- the hypothesis on callers

  ghost predicate IsCurrent(log: Events, unit: TaskUnit) {
    LatestUnit(log, unit.unitId) == Some(unit)
  }

  ghost predicate CurrentGraph(log: Events, g: TaskGraph) {
    forall id :: id in g.units ==> LatestUnit(log, id) == Some(g.units[id])
  }

  /** New units are new to the ledger. */
  ghost predicate NewChildren(log: Events, q: ExpandRequest) {
    forall key :: key in SpecKeys(q.proposal.childSpecs) ==>
      LatestUnit(log, ChildUnitId(q.alnum, q.proposalDigest, q.parent.unitId, key)).None?
  }

  ghost predicate NewMergeUnit(log: Events, p: Payload) {
    p.MergePlanRecorded? ==> LatestUnit(log, MergeUnitId(p.plan.mergePlanId)).None?
  }

  /**
   * Every step works on the ledger's latest snapshot of its units, units are created once, and a
   * recovery's retry count is the unit's last attempt ordinal plus one.
   */
  ghost predicate CurrentUnits(log: Events, step: Step) {
    match step
    case RegisterRoot(root, _) => LatestUnit(log, root.unitId).None? && root.lastAttemptOrdinal == -1
    case Schedule(q) => CurrentGraph(log, q.graph)
    case Recover(q) => IsCurrent(log, q.unit) && q.decision.retryCount == q.unit.lastAttemptOrdinal + 1
    case CompleteUnit(q) => IsCurrent(log, q.unit)
    case ExpandUnit(q) => NewChildren(log, q)
    case CreateMergeTask(q) => NewMergeUnit(log, q.planEvent.Payload())
    case CompleteParent(q) => IsCurrent(log, q.owner)
    case FailParent(q) => IsCurrent(log, q.parent)
    case MakeReady(q) => IsCurrent(log, q.unit)
    case Prune(q) => forall u :: u in q.candidates ==> IsCurrent(log, u)
    case _ => true
  }

  // ---------------------------------------------------------------- step by step

  lemma {:induction false} MoveFollows(log: Events, unit: TaskUnit, moved: TaskUnit, state: TaskState, at: string,
                                       cause: UnitCause, tag: KeyTag,
                    maxRetries: int)
    requires IsCurrent(log, unit) && TransitionUnit(unit, state, at) == Ok(moved) && !state.Processing?
    requires unit.state.Processing? && state.Ready? ==> unit.lastAttemptOrdinal < maxRetries
    ensures Follows(log, UnitDraft(unit.state, moved, cause, tag, at).payload, maxRetries)
  {
  }

  lemma {:induction false} RecoverFollows(cfg: ProtocolConfig, log: Events, q: RecoverRequest)
    requires CurrentUnits(log, Recover(q))
    ensures AllFollow(log, DraftsOf(RecoverWrites(cfg, log, q)), cfg.maxRetries)
  {
    if RecoverWrites(cfg, log, q).Ok? {
      var lease, attempt, unit := RecoverOutcome(cfg, log, q);
      OneBatch(RecoveryBatch(q.actionId), RecoveryDrafts(q, lease, attempt, unit));
      RecoveryDraftsFollow(log, q, lease, attempt, unit, cfg.maxRetries);
    }
  }

  lemma {:induction false} RecoveryDraftsFollow(log: Events, q: RecoverRequest, lease: Lease, attempt: Attempt,
                                                unit: TaskUnit, maxRetries: int)
    requires IsCurrent(log, q.unit) && q.decision.retryCount == q.unit.lastAttemptOrdinal + 1
    requires q.decision.retryAllowed == (q.decision.retryCount <= maxRetries)
    requires TransitionUnit(q.unit, if q.decision.retryAllowed then TaskState.Ready else TaskState.Failed, q.now)
      == Ok(unit)
    ensures AllFollow(log, RecoveryDrafts(q, lease, attempt, unit), maxRetries)
  {
    MoveFollows(log, q.unit, unit, unit.state, q.now, UnitCause.Recovered(q.decision.retryCount, q.correlationId),
                Correlation(q.correlationId), maxRetries);
  }

  /**
   * A recovery sends the unit back to Ready exactly while a retry is left, and otherwise fails it for good:
   * the attempt with ordinal `maxRetries` is the last one.
   */
  lemma {:induction false} RetryVerdict(cfg: ProtocolConfig, log: Events, q: RecoverRequest)
    returns (unit: TaskUnit)
    requires RecoverWrites(cfg, log, q).Ok? && q.decision.retryCount == q.unit.lastAttemptOrdinal + 1
    ensures UnitDraft(q.unit.state, unit, UnitCause.Recovered(q.decision.retryCount, q.correlationId),
                      Correlation(q.correlationId), q.now) in DraftsOf(RecoverWrites(cfg, log, q))
    ensures unit.unitId == q.unit.unitId
    ensures unit.state.Failed? <==> q.unit.lastAttemptOrdinal >= cfg.maxRetries
    ensures unit.state.Ready? <==> q.unit.lastAttemptOrdinal < cfg.maxRetries
  {
    var lease, attempt, recovered := RecoverOutcome(cfg, log, q);
    unit := recovered;
    var drafts := RecoveryDrafts(q, lease, attempt, unit);
    OneBatch(RecoveryBatch(q.actionId), drafts);
    assert drafts[|drafts| - 1] in drafts;
  }

  lemma {:induction false} CompleteFollows(log: Events, q: CompleteRequest, maxRetries: int)
    requires IsCurrent(log, q.unit)
    ensures AllFollow(log, DraftsOf(CompleteWrites(log, q)), maxRetries)
  {
    if CompleteWrites(log, q).Ok? {
      var completed := TransitionUnit(q.unit, TaskState.Completed, q.decision.decidedAt).value;
      var cause, tag := DecisionAccepted(q.decision.decisionId), ByDecision(q.decision.decisionId);
      OneBatch(CompletionBatch(q.decision.decisionId),
               [DecisionDraft(q.decision), UnitDraft(TaskState.Processing, completed, cause, tag,
                                                     q.decision.decidedAt)]);
      MoveFollows(log, q.unit, completed, TaskState.Completed, q.decision.decidedAt, cause, tag, maxRetries);
    }
  }

  lemma {:induction false} NewChildFollows(log: Events, q: ExpandRequest, x: Expanding, children: seq<TaskUnit>,
                                           i: nat, maxRetries: int)
    requires NewChildren(log, q) && ChildUnits(x, q.proposal.childSpecs) == Ok(children) && i < |children|
    requires x.alnum == q.alnum && x.proposalDigest == q.proposalDigest && x.parent == q.parent
    ensures Follows(log, UnitCreated(children[i]), maxRetries)
  {
    ChildUnitAt(x, q.proposal.childSpecs, i);
    assert SpecKeys(q.proposal.childSpecs)[i] in SpecKeys(q.proposal.childSpecs);
  }

  /** Among an expansion's drafts only the children's concern units. */
  lemma {:induction false} ExpandDraftAt(q: ExpandRequest, x: Expanding, children: seq<TaskUnit>, i: nat)
    requires i < |ExpandDrafts(q, x, children)|
    ensures var p := ExpandDrafts(q, x, children)[i].payload;
      if 3 <= i < |children| + 3 then p == UnitCreated(children[i - 3])
      else !p.UnitCreated? && !p.UnitChanged? && !p.AttemptChanged?
  {
  }

  lemma {:induction false} ExpandDraftsFollow(log: Events, q: ExpandRequest, x: Expanding, children: seq<TaskUnit>,
                                              maxRetries: int)
    requires NewChildren(log, q) && ChildUnits(x, q.proposal.childSpecs) == Ok(children)
    requires x.alnum == q.alnum && x.proposalDigest == q.proposalDigest && x.parent == q.parent
    ensures AllFollow(log, ExpandDrafts(q, x, children), maxRetries)
  {
    var drafts := ExpandDrafts(q, x, children);
    forall d | d in drafts ensures Follows(log, d.payload, maxRetries) {
      var i :| 0 <= i < |drafts| && drafts[i] == d;
      ExpandDraftAt(q, x, children, i);
      if 3 <= i < |children| + 3 { NewChildFollows(log, q, x, children, i - 3, maxRetries); }
    }
  }

  lemma {:induction false} ExpandFollows(log: Events, q: ExpandRequest, maxRetries: int)
    requires NewChildren(log, q)
    ensures AllFollow(log, DraftsOf(ExpandWrites(log, q)), maxRetries)
  {
    if ExpandWrites(log, q).Ok? {
      var _, x, children := ExpandShape(log, q);
      OneBatch(ExpansionBatch(q.decision.decisionId), ExpandDrafts(q, x, children));
      ExpandDraftsFollow(log, q, x, children, maxRetries);
    }
  }

  lemma {:induction false} CompletionFollows(log: Events, q: CompletionRequest, maxRetries: int)
    requires IsCurrent(log, q.owner)
    ensures AllFollow(log, DraftsOf(CompletionWrites(log, q)), maxRetries)
  {
    if CompletionWrites(log, q).Ok? {
      var _, completed, sorted := CompletionShape(log, q);
      var resolved, eligible := ResolvedSet(q.resolutions), EligibleOnes(sorted, q.now);
      var drafts := CompletionDrafts(completed, eligible, resolved, q.now);
      OneBatch(ParentCompletionBatch(q.owner.unitId, resolved), drafts);
      forall d | d in drafts ensures Follows(log, d.payload, maxRetries) {
        var i :| 0 <= i < |drafts| && drafts[i] == d;
        if i > 0 { assert drafts[i] == EligibleDraft(eligible[i - 1], resolved, q.now); }
      }
    }
  }

  lemma {:induction false} PruneDraftsFollow(log: Events, q: PruneRequest, taskId: string, c: Candidates,
                                             maxRetries: int)
    requires forall u :: u in c.cancellable ==> IsCurrent(log, u) && CancellableState(u.state)
    ensures AllFollow(log, PruneDrafts(q, taskId, c), maxRetries)
  {
    var drafts := PruneDrafts(q, taskId, c);
    forall d | d in drafts ensures Follows(log, d.payload, maxRetries) {
      var i :| 0 <= i < |drafts| && drafts[i] == d;
      if i < |c.cancellable| {
        assert c.cancellable[i] in c.cancellable;
        assert drafts[i] == CancelDraft(c.cancellable[i], q);
      }
    }
  }

  lemma {:induction false} CancelledAreCurrent(log: Events, q: PruneRequest, taskId: string, c: Candidates)
    requires forall u :: u in q.candidates ==> IsCurrent(log, u)
    requires CandidatesFor(log, taskId, q.parentUnitId, q.candidates) == Ok(c)
    ensures forall u :: u in c.cancellable ==> IsCurrent(log, u) && CancellableState(u.state)
  {
    forall u | u in c.cancellable ensures IsCurrent(log, u) && CancellableState(u.state) {
      CancelledUnit(log, taskId, q.parentUnitId, q.candidates, u);
    }
  }

  /** What a pruning that is not a repetition writes. */
  lemma {:induction false} PruneShape(log: Events, q: PruneRequest) returns (taskId: string, c: Candidates)
    requires PruneWrites(log, q).Ok? && PruneWrites(log, q).value != []
    ensures CandidatesFor(log, taskId, q.parentUnitId, q.candidates) == Ok(c)
    ensures PruneWrites(log, q) == Ok([Batch(PruningBatch(q.parentUnitId, q.completionSeq),
                                             PruneDrafts(q, taskId, c))])
  {
    taskId := CompletedParent(log, q.parentUnitId, q.completionSeq).value.taskId;
    c := CandidatesFor(log, taskId, q.parentUnitId, q.candidates).value;
  }

  lemma {:induction false} PruneFollows(log: Events, q: PruneRequest, maxRetries: int)
    requires forall u :: u in q.candidates ==> IsCurrent(log, u)
    ensures AllFollow(log, DraftsOf(PruneWrites(log, q)), maxRetries)
  {
    if PruneWrites(log, q).Ok? && PruneWrites(log, q).value != [] {
      var taskId, c := PruneShape(log, q);
      OneBatch(PruningBatch(q.parentUnitId, q.completionSeq), PruneDrafts(q, taskId, c));
      CancelledAreCurrent(log, q, taskId, c);
      PruneDraftsFollow(log, q, taskId, c, maxRetries);
    }
  }

  lemma {:induction false} MergeDraftsFollow(log: Events, plan: MergePlan, bindings: seq<SlotBinding>, depth: int,
                                             bundleRef: ArtifactRef,
                          now: string, maxRetries: int)
    requires LatestUnit(log, MergeUnitId(plan.mergePlanId)).None?
    ensures AllFollow(log, MergeTaskDrafts(plan, bindings, depth, bundleRef, now), maxRetries)
  {
  }

  lemma {:induction false} MergeTaskFollows(log: Events, q: MergeTaskRequest, maxRetries: int)
    requires NewMergeUnit(log, q.planEvent.Payload())
    ensures AllFollow(log, DraftsOf(MergeTaskWrites(log, q)), maxRetries)
  {
    if MergeTaskWrites(log, q).Ok? {
      var plan, bindings, depth := MergeTaskShape(log, q);
      OneBatch(MergeTaskBatch(plan.mergePlanId), MergeTaskDrafts(plan, bindings, depth, q.bundleRef, q.now));
      MergeDraftsFollow(log, plan, bindings, depth, q.bundleRef, q.now, maxRetries);
    }
  }

  lemma {:induction false} RenewFollows(cfg: ProtocolConfig, log: Events, lease: Lease, at: string,
                                        correlationId: string)
    ensures AllFollow(log, DraftsOf(HeartbeatWrites(cfg, log, lease, at, correlationId)), cfg.maxRetries)
  {
    if HeartbeatWrites(cfg, log, lease, at, correlationId).Ok? {
      OneCall(HeartbeatWrites(cfg, log, lease, at, correlationId).value[0].draft);
    }
  }

  lemma {:induction false} FailureFollows(log: Events, q: FailureRequest, maxRetries: int)
    requires IsCurrent(log, q.parent)
    ensures AllFollow(log, DraftsOf(FailureWrites(log, q)), maxRetries)
  {
    if FailureWrites(log, q).Ok? {
      var failed := TransitionUnit(q.parent, TaskState.Failed, q.now).value;
      var cause, tag := ChildFailed(q.child.unitId, q.correlationId), Correlation(q.correlationId);
      OneCall(UnitDraft(q.parent.state, failed, cause, tag, q.now));
      MoveFollows(log, q.parent, failed, TaskState.Failed, q.now, cause, tag, maxRetries);
    }
  }

  lemma {:induction false} ReadyFollows(log: Events, q: ReadyRequest, maxRetries: int)
    requires IsCurrent(log, q.unit)
    ensures AllFollow(log, DraftsOf(ReadyWrites(q)), maxRetries)
  {
    if ReadyWrites(q).Ok? {
      var ready := TransitionUnit(q.unit, TaskState.Ready, q.now).value;
      var cause, tag := DependencyReady(q.correlationId), Correlation(q.correlationId);
      OneCall(UnitDraft(TaskState.Blocked, ready, cause, tag, q.now));
      MoveFollows(log, q.unit, ready, TaskState.Ready, q.now, cause, tag, maxRetries);
    }
  }

  lemma {:induction false} SubmitFollows(cfg: ProtocolConfig, log: Events, s: Submission, attempt: Attempt,
                                         lease: Lease, correlationId: string)
    ensures AllFollow(log, DraftsOf(SubmitWrites(cfg, log, s, attempt, lease, correlationId)), cfg.maxRetries)
  {
    if SubmitWrites(cfg, log, s, attempt, lease, correlationId).Ok? {
      var writes := SubmitWrites(cfg, log, s, attempt, lease, correlationId).value;
      if |writes| == 1 { OneCall(writes[0].draft); } else { TwoCalls(writes[0].draft, writes[1].draft); }
    }
  }

  lemma {:induction false} VerifyFollows(log: Events, report: VerificationReport, attempt: Attempt,
                                         correlationId: string, maxRetries: int)
    ensures AllFollow(log, DraftsOf(VerifyWrites(report, attempt, correlationId)), maxRetries)
  {
    if VerifyWrites(report, attempt, correlationId).Ok? {
      var valid, verified := VerifyShape(report, attempt, correlationId);
      OneCall(VerificationDraft(valid));
      TwoCalls(VerificationDraft(valid), VerifiedDraft(verified, valid, correlationId));
    }
  }

  lemma {:induction false} BindFollows(log: Events, q: BindRequest, maxRetries: int)
    ensures AllFollow(log, DraftsOf(BindWrites(log, q)), maxRetries)
  {
    if BindWrites(log, q).Ok? {
      var writes := BindWrites(log, q).value;
      if writes != [] { TwoCalls(writes[0].draft, writes[1].draft); }
    }
  }

  /** A schedule starts one attempt of its unit, under the next ordinal, and of no other unit. */
  lemma {:induction false} ScheduledCounts(log: Events, q: ScheduleRequest, claim: LeaseClaim, processing: TaskUnit,
                                           unitId: string, maxRetries: int)
    requires Counted(log, unitId, maxRetries)
    requires claim.created.unitId == processing.unitId && processing.state.Processing?
    requires processing.lastAttemptOrdinal == claim.created.attemptOrdinal
    requires unitId == processing.unitId ==>
      processing.lastAttemptOrdinal == |Ordinals(log, unitId)| && |Ordinals(log, unitId)| <= maxRetries
    ensures Counted(log + Stamp(|log|, ScheduleBatch(q.attemptId),
                                ScheduleDrafts(claim, processing, q.now, q.correlationId)),
                    unitId, maxRetries)
  {
    var more := Stamp(|log|, ScheduleBatch(q.attemptId), ScheduleDrafts(claim, processing, q.now, q.correlationId));
    var one, two, three := log + [more[0]], log + [more[0]] + [more[1]], log + [more[0]] + [more[1]] + [more[2]];
    CountEffect(log, more[0], unitId);
    CountEffect(one, more[1], unitId);
    CountEffect(two, more[2], unitId);
    CountEffect(three, more[3], unitId);
    assert log + more == three + [more[3]];
  }

  lemma {:induction false} ScheduleKeepsCount(cfg: ProtocolConfig, log: Events, q: ScheduleRequest, unitId: string)
    requires CurrentGraph(log, q.graph) && Counted(log, unitId, cfg.maxRetries)
    ensures Counted(After(log, ScheduleWrites(cfg, log, q)), unitId, cfg.maxRetries)
  {
    if ScheduleWrites(cfg, log, q).Ok? {
      var u, _, claim, processing := ScheduleShape(cfg, log, q);
      BatchAdds(log, ScheduleBatch(q.attemptId), ScheduleDrafts(claim, processing, q.now, q.correlationId));
      assert LatestUnit(log, u) == Some(q.graph.units[u]);
      ScheduledCounts(log, q, claim, processing, unitId, cfg.maxRetries);
    }
  }

  predicate ChangesUnits(step: Step) {
    Records(step, UnitKind) || Records(step, CompletionKind)
  }

  /** Everything but scheduling follows the latest snapshots. */
  lemma {:induction false} ExecutionFollows(cfg: ProtocolConfig, log: Events, step: Step)
    requires CurrentUnits(log, step) && IsExecution(step) && !step.Schedule?
    ensures AllFollow(log, DraftsOf(Writes(cfg, log, step)), cfg.maxRetries)
  {
    match step {
      case RenewLease(lease, at, correlationId) => RenewFollows(cfg, log, lease, at, correlationId);
      case Submit(s, attempt, lease, correlationId) => SubmitFollows(cfg, log, s, attempt, lease, correlationId);
      case Verify(report, attempt, correlationId) => VerifyFollows(log, report, attempt, correlationId, cfg.maxRetries);
      case Bind(q) => BindFollows(log, q, cfg.maxRetries);
      case Recover(q) => RecoverFollows(cfg, log, q);
    }
  }

  lemma {:induction false} GraphFollows(cfg: ProtocolConfig, log: Events, step: Step)
    requires CurrentUnits(log, step) && !IsExecution(step) && ChangesUnits(step)
    ensures AllFollow(log, DraftsOf(Writes(cfg, log, step)), cfg.maxRetries)
  {
    match step {
      case RegisterRoot(root, at) => OneCall(Draft(RootUnitKey(root.unitId), UnitCreated(root), at));
      case CompleteUnit(q) => CompleteFollows(log, q, cfg.maxRetries);
      case ExpandUnit(q) => ExpandFollows(log, q, cfg.maxRetries);
      case CreateMergeTask(q) => MergeTaskFollows(log, q, cfg.maxRetries);
      case CompleteParent(q) => CompletionFollows(log, q, cfg.maxRetries);
      case FailParent(q) => FailureFollows(log, q, cfg.maxRetries);
      case MakeReady(q) => ReadyFollows(log, q, cfg.maxRetries);
      case Prune(q) => PruneFollows(log, q, cfg.maxRetries);
    }
  }

  lemma {:induction false} OtherFollows(cfg: ProtocolConfig, log: Events, step: Step)
    requires !IsExecution(step) && !ChangesUnits(step)
    ensures AllFollow(log, DraftsOf(Writes(cfg, log, step)), cfg.maxRetries)
  {
    StepFits(cfg, log, step);
    var drafts := DraftsOf(Writes(cfg, log, step));
    forall d | d in drafts ensures Follows(log, d.payload, cfg.maxRetries) {
      var i :| 0 <= i < |drafts| && drafts[i] == d;
      assert DraftFits(step, drafts[i]);
    }
  }

  lemma {:induction false} StepFollows(cfg: ProtocolConfig, log: Events, step: Step)
    requires CurrentUnits(log, step) && !step.Schedule?
    ensures AllFollow(log, DraftsOf(Writes(cfg, log, step)), cfg.maxRetries)
  {
    if IsExecution(step) {
      ExecutionFollows(cfg, log, step);
    } else if ChangesUnits(step) {
      GraphFollows(cfg, log, step);
    } else {
      OtherFollows(cfg, log, step);
    }
  }

  lemma {:induction false} StepKeepsCount(cfg: ProtocolConfig, log: Events, step: Step, unitId: string)
    requires CurrentUnits(log, step) && Counted(log, unitId, cfg.maxRetries) && cfg.maxRetries >= 0
    ensures Counted(Exec(cfg, log, step), unitId, cfg.maxRetries)
  {
    if step.Schedule? {
      ExecSchedule(cfg, log, step.schedule);
      ScheduleKeepsCount(cfg, log, step.schedule, unitId);
    } else if Writes(cfg, log, step).Ok? {
      StepFollows(cfg, log, step);
      FollowingKeeps(log, Writes(cfg, log, step).value, unitId, cfg.maxRetries);
    }
  }

  // ---------------------------------------------------------------- whole runs

  lemma {:induction false} NextKeepsCount(cfg: ProtocolConfig, run: Run, k: nat, unitId: string)
    requires IsRun(cfg, run) && EachStep(run, k, CurrentUnits) && k > 0
    requires Counted(run.At(k - 1), unitId, cfg.maxRetries) && cfg.maxRetries >= 0
    ensures Counted(run.At(k), unitId, cfg.maxRetries)
  {
    StepIsOk(run, k, CurrentUnits);
    StepKeepsCount(cfg, run.At(k - 1), run.StepAt(k - 1), unitId);
  }

  lemma {:induction false} RunKeepsCount(cfg: ProtocolConfig, run: Run, k: nat, unitId: string)
    requires IsRun(cfg, run) && EachStep(run, k, CurrentUnits)
    requires Counted(run.Start(), unitId, cfg.maxRetries) && cfg.maxRetries >= 0
    ensures Counted(run.At(k), unitId, cfg.maxRetries)
  {
    if k > 0 {
      EachStepBefore(run, k, CurrentUnits);
      RunKeepsCount(cfg, run, k - 1, unitId);
      NextKeepsCount(cfg, run, k, unitId);
    }
  }

  /** The attempts of a unit are numbered 0, 1, 2, ... without a gap, and there are at most maxRetries + 1. */
  lemma {:induction false} RetryBound(cfg: ProtocolConfig, run: Run, k: nat, unitId: string)
    requires IsRun(cfg, run) && run.Start() == [] && EachStep(run, k, CurrentUnits)
    requires cfg.maxRetries >= 0
    ensures CountsUp(Ordinals(run.At(k), unitId)) && |Ordinals(run.At(k), unitId)| <= cfg.maxRetries + 1
  {
    RunKeepsCount(cfg, run, k, unitId);
  }

  ghost function AttemptsOf(log: Events, unitIds: seq<string>): nat {
    if unitIds == [] then 0 else |Ordinals(log, unitIds[0])| + AttemptsOf(log, unitIds[1..])
  }

  lemma {:induction false} SumWithin(log: Events, planned: seq<string>, cap: int)
    requires forall i :: 0 <= i < |planned| ==> |Ordinals(log, planned[i])| <= cap
    ensures AttemptsOf(log, planned) <= |planned| * cap
  {
    if planned != [] {
      SumWithin(log, planned[1..], cap);
      Settlement.Distribute(cap, 1, |planned| - 1);
    }
  }

  /** What the runner's attempt cap of a root depends on. */
  datatype RootPlan = RootPlan(experiment: string, killsWorker: bool, noRequeue: bool, planned: seq<string>)

  /**
   * `_root_caps`: four attempts a unit when a worker is killed, one without requeueing, else one more than the
   * retries.
   */
  function ProtocolUpper(root: RootPlan, maxRetries: int): int {
    if root.experiment == "exp3" && root.killsWorker then |root.planned| * 4
    else if root.experiment == "exp4" && root.noRequeue then |root.planned|
    else |root.planned| * (maxRetries + 1)
  }

  ghost predicate NoRequeue(log: Events, step: Step) {
    !step.Recover?
  }

  lemma {:induction false} ScheduleIgnoresLimit(cfg: ProtocolConfig, log: Events, q: ScheduleRequest, limit: int)
    ensures ScheduleWrites(cfg.(maxRetries := limit), log, q) == ScheduleWrites(cfg, log, q)
  {
    forall unit: TaskUnit, d: SchedulingDecision
      ensures Claim(cfg.(maxRetries := limit), d, unit, q.leaseId, q.attemptId, q.fencingToken, q.now)
        == Claim(cfg, d, unit, q.leaseId, q.attemptId, q.fencingToken, q.now)
    {}
  }

  lemma {:induction false} HeartbeatIgnoresLimit(cfg: ProtocolConfig, log: Events, lease: Lease, at: string,
                                                 id: string, limit: int)
    ensures HeartbeatWrites(cfg.(maxRetries := limit), log, lease, at, id) == HeartbeatWrites(cfg, log, lease, at, id)
  {
  }

  /** Only recoveries look at the retry limit. */
  lemma {:induction false} RetryLimitUnused(cfg: ProtocolConfig, log: Events, step: Step, limit: int)
    requires !step.Recover?
    ensures Exec(cfg.(maxRetries := limit), log, step) == Exec(cfg, log, step)
  {
    if step.Schedule? {
      ScheduleIgnoresLimit(cfg, log, step.schedule, limit);
    } else if step.RenewLease? {
      HeartbeatIgnoresLimit(cfg, log, step.lease, step.at, step.correlationId, limit);
    }
    assert Writes(cfg.(maxRetries := limit), log, step) == Writes(cfg, log, step);
  }

  lemma {:induction false} SameWithoutRetries(cfg: ProtocolConfig, run: Run, other: Run, k: nat)
    requires IsRun(cfg, run) && IsRun(cfg.(maxRetries := 0), other)
    requires other.Start() == run.Start() && other.steps == run.steps && EachStep(run, k, NoRequeue)
    ensures other.At(k) == run.At(k)
  {
    if k > 0 {
      StepIsOk(run, k, NoRequeue);
      SameWithoutRetries(cfg, run, other, k - 1);
      RetryLimitUnused(cfg, run.At(k - 1), run.StepAt(k - 1), 0);
      assert other.StepAt(k - 1) == run.StepAt(k - 1);
    }
  }

  /** Without recoveries a run is one with no retries at all. */
  lemma {:induction false} RunWithoutRetries(cfg: ProtocolConfig, run: Run, k: nat) returns (other: Run)
    requires IsRun(cfg, run) && EachStep(run, k, NoRequeue) && EachStep(run, k, CurrentUnits)
    ensures IsRun(cfg.(maxRetries := 0), other) && other.Start() == run.Start() && other.At(k) == run.At(k)
    ensures EachStep(other, k, CurrentUnits)
  {
    other := EveryStepRuns(cfg.(maxRetries := 0), run.Start(), run.steps);
    SameWithoutRetries(cfg, run, other, k);
    forall i: nat | i < k ensures CurrentUnits(other.At(i), other.StepAt(i)) {
      SameWithoutRetries(cfg, run, other, i);
      assert other.StepAt(i) == run.StepAt(i);
    }
  }

  lemma {:induction false} AttemptsWithin(cfg: ProtocolConfig, run: Run, k: nat, planned: seq<string>)
    requires IsRun(cfg, run) && run.Start() == [] && EachStep(run, k, CurrentUnits) && cfg.maxRetries >= 0
    ensures AttemptsOf(run.At(k), planned) <= |planned| * (cfg.maxRetries + 1)
  {
    forall i | 0 <= i < |planned| ensures |Ordinals(run.At(k), planned[i])| <= cfg.maxRetries + 1 {
      RetryBound(cfg, run, k, planned[i]);
    }
    SumWithin(run.At(k), planned, cfg.maxRetries + 1);
  }

  /**
   * The attempt cap the runner plans for a root is never exceeded, in each of its three cases: when a worker is killed
   * as long as at most three retries are configured, and without requeueing as long as nothing is recovered.
   */
  lemma {:induction false} AttemptsWithinCap(cfg: ProtocolConfig, run: Run, k: nat, root: RootPlan)
    requires IsRun(cfg, run) && run.Start() == [] && EachStep(run, k, CurrentUnits) && cfg.maxRetries >= 0
    requires root.experiment == "exp3" && root.killsWorker ==> cfg.maxRetries <= 3
    requires root.experiment == "exp4" && root.noRequeue ==> EachStep(run, k, NoRequeue)
    ensures AttemptsOf(run.At(k), root.planned) <= ProtocolUpper(root, cfg.maxRetries)
  {
    if root.experiment == "exp4" && root.noRequeue {
      var other := RunWithoutRetries(cfg, run, k);
      AttemptsWithin(cfg.(maxRetries := 0), other, k, root.planned);
    } else {
      AttemptsWithin(cfg, run, k, root.planned);
      MoreRetries(|root.planned|, cfg.maxRetries + 1, 4);
    }
  }

  lemma {:induction false} MoreRetries(n: nat, a: int, b: int)
    ensures a <= b ==> n * a <= n * b
  {
  }

  ghost predicate IsFailed(log: Events, unitId: string) {
    LatestUnit(log, unitId).Some? && LatestUnit(log, unitId).value.state.Failed?
  }

  /** No draft of a step concerns a failed unit. */
  lemma {:induction false} FailedIsLeft(log: Events, p: Payload, unitId: string, maxRetries: int)
    requires IsFailed(log, unitId) && Follows(log, p, maxRetries)
    ensures !ChangesUnit(p, unitId)
  {
  }

  lemma {:induction false} UnchangedUnit(log: Events, more: Events, unitId: string)
    requires forall i :: 0 <= i < |more| ==> !ChangesUnit(more[i].Payload(), unitId)
    ensures LatestUnit(log + more, unitId) == LatestUnit(log, unitId)
  {
    if more == [] {
      assert log + more == log;
    } else {
      var n := |more| - 1;
      UnchangedUnit(log, more[..n], unitId);
      CountEffect(log + more[..n], more[n], unitId);
      assert log + more == log + more[..n] + [more[n]];
    }
  }

  lemma {:induction false} FollowingLeavesFailed(log: Events, writes: seq<Write>, unitId: string, maxRetries: int)
    requires IsFailed(log, unitId)
    requires AllFollow(log, AllDrafts(writes), maxRetries)
    ensures LatestUnit(Commit(log, writes), unitId) == LatestUnit(log, unitId)
  {
    var next := Commit(log, writes);
    CommitAddsOnlyDrafts(log, writes);
    var more := next[|log|..];
    assert next == log + more;
    forall i | 0 <= i < |more| ensures !ChangesUnit(more[i].Payload(), unitId) {
      assert next[|log| + i].draft in AllDrafts(writes);
      FailedIsLeft(log, more[i].Payload(), unitId, maxRetries);
    }
    UnchangedUnit(log, more, unitId);
  }

  /** A schedule batch changes only the unit it takes up. */
  lemma {:induction false} ScheduleChangesOne(log: Events, q: ScheduleRequest, claim: LeaseClaim, processing: TaskUnit,
                                              unitId: string)
    requires unitId != processing.unitId
    ensures LatestUnit(log + Stamp(|log|, ScheduleBatch(q.attemptId),
                                   ScheduleDrafts(claim, processing, q.now, q.correlationId)),
                       unitId)
      == LatestUnit(log, unitId)
  {
    UnchangedUnit(log, Stamp(|log|, ScheduleBatch(q.attemptId),
                             ScheduleDrafts(claim, processing, q.now, q.correlationId)), unitId);
  }

  lemma {:induction false} ScheduleLeavesFailed(cfg: ProtocolConfig, log: Events, q: ScheduleRequest, unitId: string)
    requires IsFailed(log, unitId) && CurrentGraph(log, q.graph)
    ensures LatestUnit(After(log, ScheduleWrites(cfg, log, q)), unitId) == LatestUnit(log, unitId)
  {
    if ScheduleWrites(cfg, log, q).Ok? {
      var u, _, claim, processing := ScheduleShape(cfg, log, q);
      assert LatestUnit(log, u) == Some(q.graph.units[u]);
      ScheduleChangesOne(log, q, claim, processing, unitId);
      BatchAdds(log, ScheduleBatch(q.attemptId), ScheduleDrafts(claim, processing, q.now, q.correlationId));
    }
  }

  lemma {:induction false} StepLeavesFailed(cfg: ProtocolConfig, log: Events, step: Step, unitId: string)
    requires IsFailed(log, unitId) && CurrentUnits(log, step)
    ensures LatestUnit(Exec(cfg, log, step), unitId) == LatestUnit(log, unitId)
  {
    if step.Schedule? {
      ExecSchedule(cfg, log, step.schedule);
      ScheduleLeavesFailed(cfg, log, step.schedule, unitId);
    } else if Writes(cfg, log, step).Ok? {
      StepFollows(cfg, log, step);
      FollowingLeavesFailed(log, Writes(cfg, log, step).value, unitId, cfg.maxRetries);
    }
  }

  /** A failed unit stays failed for the rest of every run. */
  lemma {:induction false} FailedIsPermanent(cfg: ProtocolConfig, run: Run, j: nat, k: nat, unitId: string)
    requires IsRun(cfg, run) && EachStep(run, k, CurrentUnits) && j <= k
    requires IsFailed(run.At(j), unitId)
    ensures LatestUnit(run.At(k), unitId) == LatestUnit(run.At(j), unitId)
  {
    if j < k {
      StepIsOk(run, k, CurrentUnits);
      FailedIsPermanent(cfg, run, j, k - 1, unitId);
      StepLeavesFailed(cfg, run.At(k - 1), run.StepAt(k - 1), unitId);
    }
  }
}
