/**
 * How often a unit changes state, over whole runs with failures, retries and expansions
 * (src/tokenshare/core/state_machines.py:10-21, src/tokenshare/core/recovery.py:132-142).
 */
module Moves {
  import opened Basics
  import opened Objects
  import opened Ledger
  import opened Lifecycles
  import opened Projections
  import opened Merging
  import opened Completions
  import opened Pruning
  import Settlement
  import opened Steps
  import opened Runs
  import opened Retries

  predicate MovesUnit(p: Payload, unitId: string) {
    p.UnitChanged? && p.unit.unitId == unitId
  }

  /** The state changes on record for the unit. */
  ghost function Moves(log: Events, unitId: string): nat {
    if log == [] then 0
    else Moves(log[..|log| - 1], unitId) + if MovesUnit(log[|log| - 1].Payload(), unitId) then 1 else 0
  }

  function AtLeast(n: int, least: nat): nat { if n < least then least else n }

  /** The state changes still ahead of a unit: two for each attempt that may follow, one for the attempt under way. */
  function Fuel(unit: TaskUnit, maxRetries: int): nat {
    var left := maxRetries - unit.lastAttemptOrdinal;
    match unit.state
    case Created => 2 + 2 * AtLeast(left, 1)
    case Blocked => 1 + 2 * AtLeast(left, 1)
    case Ready => 2 * AtLeast(left, 1)
    case Processing => 1 + 2 * AtLeast(left, 0)
    case _ => 0
  }

  /** Every legal change spends fuel; taking the unit up uses an ordinal, putting it back needs one to be left. */
  lemma {:induction false} MoveSpends(was: TaskUnit, unit: TaskUnit, maxRetries: int)
    requires UnitMayMove(was.state, unit.state)
    requires unit.lastAttemptOrdinal == was.lastAttemptOrdinal + if unit.state.Processing? then 1 else 0
    requires was.state.Processing? && unit.state.Ready? ==> was.lastAttemptOrdinal < maxRetries
    ensures Fuel(unit, maxRetries) < Fuel(was, maxRetries)
  {
  }

  /** What a unit may use up in all. */
  function Tank(maxRetries: int): int { 2 * maxRetries + 4 }

  ghost predicate Fueled(log: Events, unitId: string, maxRetries: int) {
    match LatestUnit(log, unitId)
    case None => Moves(log, unitId) == 0
    case Some(unit) => Moves(log, unitId) + Fuel(unit, maxRetries) <= Tank(maxRetries)
  }

  lemma {:induction false} MoveEffect(log: Events, e: Event, unitId: string)
    ensures Moves(log + [e], unitId) == Moves(log, unitId) + if MovesUnit(e.Payload(), unitId) then 1 else 0
    ensures LatestUnit(log + [e], unitId)
      == if ChangesUnit(e.Payload(), unitId) then Some(e.Payload().unit) else LatestUnit(log, unitId)
  {
    assert (log + [e])[..|log|] == log;
  }

  // ---------------------------------------------------------------- what one step appends

  /** An event a step may append: a unit new to the ledger, or a change that spends fuel. */
  ghost predicate Spends(log: Events, p: Payload, unitId: string, maxRetries: int) {
    ChangesUnit(p, unitId) ==>
      match LatestUnit(log, unitId)
      case None => p.UnitCreated? && p.unit.lastAttemptOrdinal == -1
      case Some(was) => p.UnitChanged? && Fuel(p.unit, maxRetries) < Fuel(was, maxRetries)
  }

  ghost predicate MovesOnce(more: Events, unitId: string) {
    forall i, j :: 0 <= i < j < |more| ==>
      !(MovesUnit(more[i].Payload(), unitId) && MovesUnit(more[j].Payload(), unitId))
  }

  lemma {:induction false} QuietEvents(log: Events, more: Events, unitId: string)
    requires forall i :: 0 <= i < |more| ==> !ChangesUnit(more[i].Payload(), unitId)
    ensures Moves(log + more, unitId) == Moves(log, unitId) && LatestUnit(log + more, unitId) == LatestUnit(log, unitId)
  {
    if more == [] {
      assert log + more == log;
    } else {
      var n := |more| - 1;
      QuietEvents(log, more[..n], unitId);
      MoveEffect(log + more[..n], more[n], unitId);
      assert log + more == log + more[..n] + [more[n]];
    }
  }

  lemma {:induction false} CreationsFuel(log: Events, more: Events, unitId: string, maxRetries: nat)
    requires LatestUnit(log, unitId).None? && Fueled(log, unitId, maxRetries)
    requires forall i :: 0 <= i < |more| ==> Spends(log, more[i].Payload(), unitId, maxRetries)
    ensures Moves(log + more, unitId) == 0 && Fueled(log + more, unitId, maxRetries)
  {
    if more == [] {
      assert log + more == log;
    } else {
      var n := |more| - 1;
      CreationsFuel(log, more[..n], unitId, maxRetries);
      MoveEffect(log + more[..n], more[n], unitId);
      assert log + more == log + more[..n] + [more[n]];
    }
  }

  lemma {:induction false} OneMoveFuels(log: Events, more: Events, unitId: string, maxRetries: nat, i: nat)
    requires LatestUnit(log, unitId).Some? && Fueled(log, unitId, maxRetries) && MovesOnce(more, unitId)
    requires forall j :: 0 <= j < |more| ==> Spends(log, more[j].Payload(), unitId, maxRetries)
    requires i < |more| && MovesUnit(more[i].Payload(), unitId)
    ensures Fueled(log + more, unitId, maxRetries)
  {
    var before, after := more[..i], more[i + 1..];
    forall j | 0 <= j < |before| ensures !ChangesUnit(before[j].Payload(), unitId) { assert before[j] == more[j]; }
    forall j | 0 <= j < |after| ensures !ChangesUnit(after[j].Payload(), unitId) { assert after[j] == more[i + 1 + j]; }
    QuietEvents(log, before, unitId);
    MoveEffect(log + before, more[i], unitId);
    QuietEvents(log + before + [more[i]], after, unitId);
    assert log + more == log + before + [more[i]] + after;
  }

  lemma {:induction false} SpendingKeepsFuel(log: Events, more: Events, unitId: string, maxRetries: nat)
    requires Fueled(log, unitId, maxRetries) && MovesOnce(more, unitId)
    requires forall i :: 0 <= i < |more| ==> Spends(log, more[i].Payload(), unitId, maxRetries)
    ensures Fueled(log + more, unitId, maxRetries)
  {
    if LatestUnit(log, unitId).None? {
      CreationsFuel(log, more, unitId, maxRetries);
    } else if i: nat :| i < |more| && MovesUnit(more[i].Payload(), unitId) {
      OneMoveFuels(log, more, unitId, maxRetries, i);
    } else {
      QuietEvents(log, more, unitId);
    }
  }

  // ---------------------------------------------------------------- each step changes a unit once

  /** Two changes of one unit among these drafts would share their key. */
  ghost predicate OneKey(drafts: seq<Draft>, unitId: string) {
    forall d, e :: d in drafts && e in drafts && MovesUnit(d.payload, unitId) && MovesUnit(e.payload, unitId)
      ==> d.key == e.key
  }

  lemma {:induction false} KeyedOnce(log: Events, next: Events, drafts: seq<Draft>, unitId: string)
    requires KeysUnique(next) && log <= next && OneKey(drafts, unitId)
    requires forall i :: |log| <= i < |next| ==> next[i].draft in drafts
    ensures MovesOnce(next[|log|..], unitId)
  {
    var more := next[|log|..];
    forall i, j | 0 <= i < j < |more|
      ensures !(MovesUnit(more[i].Payload(), unitId) && MovesUnit(more[j].Payload(), unitId))
    {
      assert next[|log| + i].Key() != next[|log| + j].Key();
    }
  }

  /** At most one draft changes a unit. */
  lemma {:induction false} OnlyOne(drafts: seq<Draft>, unitId: string, i: nat)
    requires forall j :: 0 <= j < |drafts| && j != i ==> !drafts[j].payload.UnitChanged?
    ensures OneKey(drafts, unitId)
  {
  }

  lemma {:induction false} RecoverOnce(cfg: ProtocolConfig, log: Events, q: RecoverRequest, unitId: string)
    ensures OneKey(DraftsOf(RecoverWrites(cfg, log, q)), unitId)
  {
    if RecoverWrites(cfg, log, q).Ok? {
      var lease, attempt, unit := RecoverShape(cfg, log, q);
      var drafts := RecoveryDrafts(q, lease, attempt, unit);
      OneBatch(RecoveryBatch(q.actionId), drafts);
      OnlyOne(drafts, unitId, |drafts| - 1);
    }
  }

  lemma {:induction false} ScheduleOnce(cfg: ProtocolConfig, log: Events, q: ScheduleRequest, unitId: string)
    ensures OneKey(DraftsOf(ScheduleWrites(cfg, log, q)), unitId)
  {
    if ScheduleWrites(cfg, log, q).Ok? {
      var _, _, claim, processing := ScheduleShape(cfg, log, q);
      var drafts := ScheduleDrafts(claim, processing, q.now, q.correlationId);
      OneBatch(ScheduleBatch(q.attemptId), drafts);
      OnlyOne(drafts, unitId, 3);
    }
  }

  lemma {:induction false} CompleteOnce(log: Events, q: CompleteRequest, unitId: string)
    ensures OneKey(DraftsOf(CompleteWrites(log, q)), unitId)
  {
    if CompleteWrites(log, q).Ok? {
      var write := CompleteWrites(log, q).value[0];
      OneBatch(write.id, write.drafts);
      OnlyOne(write.drafts, unitId, 1);
    }
  }

  lemma {:induction false} CompletionOnce(log: Events, q: CompletionRequest, unitId: string)
    ensures OneKey(DraftsOf(CompletionWrites(log, q)), unitId)
  {
    if CompletionWrites(log, q).Ok? {
      var _, completed, sorted := CompletionShape(log, q);
      var resolved, eligible := ResolvedSet(q.resolutions), EligibleOnes(sorted, q.now);
      var drafts := CompletionDrafts(completed, eligible, resolved, q.now);
      OneBatch(ParentCompletionBatch(q.owner.unitId, resolved), drafts);
      forall j | 0 < j < |drafts| ensures !drafts[j].payload.UnitChanged? {
        assert drafts[j] == EligibleDraft(eligible[j - 1], resolved, q.now);
      }
      OnlyOne(drafts, unitId, 0);
    }
  }

  lemma {:induction false} PruneDraftsOnce(log: Events, q: PruneRequest, taskId: string, c: Candidates, unitId: string)
    requires forall u :: u in c.cancellable ==> IsCurrent(log, u)
    ensures OneKey(PruneDrafts(q, taskId, c), unitId)
  {
    var drafts, n := PruneDrafts(q, taskId, c), |c.cancellable|;
    forall d | d in drafts && MovesUnit(d.payload, unitId)
      ensures LatestUnit(log, unitId).Some? && d == CancelDraft(LatestUnit(log, unitId).value, q)
    {
      var i :| 0 <= i < |drafts| && drafts[i] == d;
      assert drafts[i] == CancelDraft(c.cancellable[i], q) && c.cancellable[i] in c.cancellable;
    }
  }

  lemma {:induction false} PruneOnce(log: Events, q: PruneRequest, unitId: string)
    requires forall u :: u in q.candidates ==> IsCurrent(log, u)
    ensures OneKey(DraftsOf(PruneWrites(log, q)), unitId)
  {
    if PruneWrites(log, q).Ok? && PruneWrites(log, q).value != [] {
      var taskId, c := PruneShape(log, q);
      OneBatch(PruningBatch(q.parentUnitId, q.completionSeq), PruneDrafts(q, taskId, c));
      CancelledAreCurrent(log, q, taskId, c);
      PruneDraftsOnce(log, q, taskId, c, unitId);
    }
  }

  lemma {:induction false} CallOnce(writes: Result<seq<Write>>, unitId: string)
    requires writes.Ok? ==> |writes.value| == 1 && writes.value[0].One?
    ensures OneKey(DraftsOf(writes), unitId)
  {
    if writes.Ok? {
      OneCall(writes.value[0].draft);
      assert writes.value == [One(writes.value[0].draft)];
    }
  }

  /** Only these steps change units that exist. */
  predicate MovesUnits(step: Step) {
    step.Schedule? || step.Recover? || step.CompleteUnit? || step.CompleteParent? || step.FailParent? || step.MakeReady?
    || step.Prune?
  }

  lemma {:induction false} MoverOnce(cfg: ProtocolConfig, log: Events, step: Step, unitId: string)
    requires CurrentUnits(log, step) && MovesUnits(step)
    ensures OneKey(DraftsOf(Writes(cfg, log, step)), unitId)
  {
    match step {
      case Schedule(q) => ScheduleOnce(cfg, log, q, unitId);
      case Recover(q) => RecoverOnce(cfg, log, q, unitId);
      case CompleteUnit(q) => CompleteOnce(log, q, unitId);
      case CompleteParent(q) => CompletionOnce(log, q, unitId);
      case FailParent(q) => CallOnce(FailureWrites(log, q), unitId);
      case MakeReady(q) => CallOnce(ReadyWrites(q), unitId);
      case Prune(q) => PruneOnce(log, q, unitId);
    }
  }

  lemma {:induction false} NoneMoves(drafts: seq<Draft>, unitId: string)
    requires forall i :: 0 <= i < |drafts| ==> !drafts[i].payload.UnitChanged?
    ensures OneKey(drafts, unitId)
  {
  }

  lemma {:induction false} ExpandOnce(log: Events, q: ExpandRequest, unitId: string)
    ensures OneKey(DraftsOf(ExpandWrites(log, q)), unitId)
  {
    if ExpandWrites(log, q).Ok? {
      var _, x, children := ExpandShape(log, q);
      var drafts := ExpandDrafts(q, x, children);
      OneBatch(ExpansionBatch(q.decision.decisionId), drafts);
      forall i | 0 <= i < |drafts| ensures !drafts[i].payload.UnitChanged? { ExpandDraftAt(q, x, children, i); }
      NoneMoves(drafts, unitId);
    }
  }

  lemma {:induction false} MergeTaskOnce(log: Events, q: MergeTaskRequest, unitId: string)
    ensures OneKey(DraftsOf(MergeTaskWrites(log, q)), unitId)
  {
    if MergeTaskWrites(log, q).Ok? {
      var plan, bindings, depth := MergeTaskShape(log, q);
      OneBatch(MergeTaskBatch(plan.mergePlanId), MergeTaskDrafts(plan, bindings, depth, q.bundleRef, q.now));
    }
  }

  lemma {:induction false} RootOnce(cfg: ProtocolConfig, log: Events, root: TaskUnit, at: string, unitId: string)
    ensures OneKey(DraftsOf(Writes(cfg, log, RegisterRoot(root, at))), unitId)
  {
    var writes := Writes(cfg, log, RegisterRoot(root, at));
    assert writes.Ok? && |writes.value| == 1 && writes.value[0].One?;
    CallOnce(writes, unitId);
  }

  lemma {:induction false} CreatorOnce(cfg: ProtocolConfig, log: Events, step: Step, unitId: string)
    requires step.RegisterRoot? || step.ExpandUnit? || step.CreateMergeTask?
    ensures OneKey(DraftsOf(Writes(cfg, log, step)), unitId)
  {
    if step.RegisterRoot? {
      RootOnce(cfg, log, step.root, step.at, unitId);
    } else if step.ExpandUnit? {
      ExpandOnce(log, step.expand, unitId);
      assert Writes(cfg, log, step) == ExpandWrites(log, step.expand);
    } else {
      MergeTaskOnce(log, step.mergeTask, unitId);
      assert Writes(cfg, log, step) == MergeTaskWrites(log, step.mergeTask);
    }
  }

  lemma {:induction false} OtherOnce(step: Step, drafts: seq<Draft>, unitId: string)
    requires DraftsFit(step, drafts) && !ChangesUnits(step)
    ensures OneKey(drafts, unitId)
  {
    forall i | 0 <= i < |drafts| ensures !drafts[i].payload.UnitChanged? { assert DraftFits(step, drafts[i]); }
    NoneMoves(drafts, unitId);
  }

  lemma {:induction false} StepOnce(cfg: ProtocolConfig, log: Events, step: Step, unitId: string)
    requires CurrentUnits(log, step)
    ensures OneKey(DraftsOf(Writes(cfg, log, step)), unitId)
  {
    if MovesUnits(step) {
      MoverOnce(cfg, log, step, unitId);
    } else if ChangesUnits(step) {
      CreatorOnce(cfg, log, step, unitId);
    } else {
      StepFits(cfg, log, step);
      OtherOnce(step, DraftsOf(Writes(cfg, log, step)), unitId);
    }
  }

  // ---------------------------------------------------------------- what each step spends

  lemma {:induction false} FollowingSpends(log: Events, p: Payload, unitId: string, maxRetries: int)
    requires Follows(log, p, maxRetries)
    ensures Spends(log, p, unitId, maxRetries)
  {
    if p.UnitChanged? { MoveSpends(LatestUnit(log, p.unit.unitId).value, p.unit, maxRetries); }
  }

  lemma {:induction false} ScheduleSpends(cfg: ProtocolConfig, log: Events, q: ScheduleRequest, unitId: string)
    requires CurrentGraph(log, q.graph)
    ensures forall d :: d in DraftsOf(ScheduleWrites(cfg, log, q)) ==> Spends(log, d.payload, unitId, cfg.maxRetries)
  {
    if ScheduleWrites(cfg, log, q).Ok? {
      var u, _, claim, processing := ScheduleShape(cfg, log, q);
      OneBatch(ScheduleBatch(q.attemptId), ScheduleDrafts(claim, processing, q.now, q.correlationId));
      assert LatestUnit(log, u) == Some(q.graph.units[u]);
      MoveSpends(q.graph.units[u], processing, cfg.maxRetries);
    }
  }

  lemma {:induction false} StepSpends(cfg: ProtocolConfig, log: Events, step: Step, unitId: string)
    requires CurrentUnits(log, step)
    ensures forall d :: d in DraftsOf(Writes(cfg, log, step)) ==> Spends(log, d.payload, unitId, cfg.maxRetries)
  {
    if step.Schedule? {
      ScheduleSpends(cfg, log, step.schedule, unitId);
    } else {
      StepFollows(cfg, log, step);
      AllSpend(log, DraftsOf(Writes(cfg, log, step)), unitId, cfg.maxRetries);
    }
  }

  lemma {:induction false} AllSpend(log: Events, drafts: seq<Draft>, unitId: string, maxRetries: int)
    requires AllFollow(log, drafts, maxRetries)
    ensures forall d :: d in drafts ==> Spends(log, d.payload, unitId, maxRetries)
  {
    forall d | d in drafts ensures Spends(log, d.payload, unitId, maxRetries) {
      FollowingSpends(log, d.payload, unitId, maxRetries);
    }
  }

  lemma {:induction false} CommitKeepsFuel(log: Events, writes: seq<Write>, unitId: string, maxRetries: nat)
    requires WellFormed(log) && Fueled(log, unitId, maxRetries) && OneKey(AllDrafts(writes), unitId)
    requires forall d :: d in AllDrafts(writes) ==> Spends(log, d.payload, unitId, maxRetries)
    ensures Fueled(Commit(log, writes), unitId, maxRetries)
  {
    var next := Commit(log, writes);
    CommitKeepsWellFormed(log, writes);
    CommitAddsOnlyDrafts(log, writes);
    KeyedOnce(log, next, AllDrafts(writes), unitId);
    var more := next[|log|..];
    assert next == log + more;
    forall i | 0 <= i < |more| ensures Spends(log, more[i].Payload(), unitId, maxRetries) {
      assert more[i] == next[|log| + i];
    }
    SpendingKeepsFuel(log, more, unitId, maxRetries);
  }

  lemma {:induction false} StepKeepsFuel(cfg: ProtocolConfig, log: Events, step: Step, unitId: string)
    requires CurrentUnits(log, step) && WellFormed(log) && cfg.maxRetries >= 0
    requires Fueled(log, unitId, cfg.maxRetries)
    ensures Fueled(Exec(cfg, log, step), unitId, cfg.maxRetries)
  {
    StepOnce(cfg, log, step, unitId);
    StepSpends(cfg, log, step, unitId);
    if Writes(cfg, log, step).Ok? { CommitKeepsFuel(log, Writes(cfg, log, step).value, unitId, cfg.maxRetries); }
  }

  // ---------------------------------------------------------------- whole runs

  lemma {:induction false} RunKeepsFuel(cfg: ProtocolConfig, run: Run, k: nat, unitId: string)
    requires IsRun(cfg, run) && WellFormed(run.Start()) && EachStep(run, k, CurrentUnits) && cfg.maxRetries >= 0
    requires Fueled(run.Start(), unitId, cfg.maxRetries)
    ensures Fueled(run.At(k), unitId, cfg.maxRetries)
  {
    if k > 0 {
      StepIsOk(run, k, CurrentUnits);
      RunKeepsFuel(cfg, run, k - 1, unitId);
      RunKeepsWellFormed(cfg, run, k - 1);
      StepKeepsFuel(cfg, run.At(k - 1), run.StepAt(k - 1), unitId);
    }
  }

  /**
   * Whatever fails, is retried, expanded, merged or pruned: in every run a unit changes state at most
   * 2 * maxRetries + 4 times, counting what its latest snapshot may still do.
   */
  lemma {:induction false} MovesBounded(cfg: ProtocolConfig, run: Run, k: nat, unitId: string)
    requires IsRun(cfg, run) && run.Start() == [] && EachStep(run, k, CurrentUnits) && cfg.maxRetries >= 0
    ensures Moves(run.At(k), unitId) <= 2 * cfg.maxRetries + 4
    ensures LatestUnit(run.At(k), unitId).Some? ==>
      Moves(run.At(k), unitId) + Fuel(LatestUnit(run.At(k), unitId).value, cfg.maxRetries) <= 2 * cfg.maxRetries + 4
  {
    RunKeepsFuel(cfg, run, k, unitId);
  }

  ghost function MovesOf(log: Events, unitIds: seq<string>): nat {
    if unitIds == [] then 0 else Moves(log, unitIds[0]) + MovesOf(log, unitIds[1..])
  }

  lemma {:induction false} MovesSumWithin(log: Events, planned: seq<string>, cap: int)
    requires forall i :: 0 <= i < |planned| ==> Moves(log, planned[i]) <= cap
    ensures MovesOf(log, planned) <= |planned| * cap
  {
    if planned != [] {
      MovesSumWithin(log, planned[1..], cap);
      OneMoreTimes(|planned| - 1, cap);
    }
  }

  lemma {:induction false} OneMoreTimes(n: int, cap: int)
    ensures (n + 1) * cap == n * cap + cap
  {
    Settlement.Distribute(cap, n, 1);
  }

  /** So the units of a plan change state only so often: no run goes on retrying for ever. */
  lemma {:induction false} PlannedMovesBounded(cfg: ProtocolConfig, run: Run, k: nat, planned: seq<string>)
    requires IsRun(cfg, run) && run.Start() == [] && EachStep(run, k, CurrentUnits) && cfg.maxRetries >= 0
    ensures MovesOf(run.At(k), planned) <= |planned| * (2 * cfg.maxRetries + 4)
  {
    forall i | 0 <= i < |planned| ensures Moves(run.At(k), planned[i]) <= 2 * cfg.maxRetries + 4 {
      MovesBounded(cfg, run, k, planned[i]);
    }
    MovesSumWithin(run.At(k), planned, 2 * cfg.maxRetries + 4);
  }
}
