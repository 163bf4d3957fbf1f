/**
 * Graph rounds as protocol steps: readiness, scheduling and completion on the graph the coordinator keeps
 * (src/tokenshare/protocol_engine.py:718-839, 1323-1398, 1639-1791;
 * src/tokenshare/local_runtime/coordinator.py:2335-2353).
 */
module Progress {
  import opened Basics
  import opened Objects
  import opened Ledger
  import opened Lifecycles
  import opened TaskGraphs
  import opened Scheduling
  import opened Projections
  import opened Steps
  import opened Runs
  import opened Moves

  // ---------------------------------------------------------------- steps that make a round

  /** The step goes through, and the last event it asks for is this snapshot of the unit. */
  ghost predicate Reports(writes: Result<seq<Write>>, unit: TaskUnit) {
    && writes.Ok? && AllDrafts(writes.value) != []
    && var p := AllDrafts(writes.value)[|AllDrafts(writes.value)| - 1].payload; p.UnitChanged? && p.unit == unit
  }

  /** On the graph `g` the step makes this round. */
  ghost predicate Performs(cfg: ProtocolConfig, log: Events, step: Step, g: TaskGraph, round: Round) {
    match step
    case MakeReady(q) => q.graph == g && round.Activate? && Reports(ReadyWrites(q), round.unit)
    case Schedule(q) => q.graph == g && round.Start? && Reports(ScheduleWrites(cfg, log, q), round.unit)
    case CompleteUnit(q) =>
      && Current(g, q.unit) && round.Finish? && Reports(CompleteWrites(log, q), round.unit)
      && DecisionSelection(log, q.decision).Ok? && DecisionSelection(log, q.decision).value.outputRefs == round.outputs
    case _ => false
  }

  lemma {:induction false} LastDraft(id: BatchId, drafts: seq<Draft>)
    ensures AllDrafts([Batch(id, drafts)]) == drafts
  {
    assert AllDrafts([Batch(id, drafts)][1..]) == [];
  }

  /** The engine makes a unit of a valid graph Ready exactly when the unit is activatable, and that is a round. */
  lemma {:induction false} ReadinessIsActivation(q: ReadyRequest)
    requires q.graph.IsDict() && GraphOk(q.graph) && Current(q.graph, q.unit)
    ensures ReadyWrites(q).Ok? <==> IsActivatable(q.graph, q.unit.unitId)
    ensures forall unit :: Reports(ReadyWrites(q), unit) ==>
      unit.unitId == q.unit.unitId && IsRound(q.graph, Activate(unit))
  {
    if ReadyWrites(q).Ok? {
      var d := ReadyWrites(q).value[0].draft;
      assert [One(d)][1..] == [] && AllDrafts([One(d)]) == [d];
    }
  }

  /** A unit that the engine schedules is taken up by a round. */
  lemma {:induction false} SchedulingIsStart(cfg: ProtocolConfig, log: Events, q: ScheduleRequest, unit: TaskUnit)
    requires Reports(ScheduleWrites(cfg, log, q), unit)
    ensures RelationsOk(q.graph) && IsRound(q.graph, Start(unit))
  {
    var u, client, claim, processing := ScheduleShape(cfg, log, q);
    LastDraft(ScheduleBatch(q.attemptId), ScheduleDrafts(claim, processing, q.now, q.correlationId));
    SelectedIsLeast(q.graph, q.clients, cfg.allowShadowExecution, ActiveCounts(log, q.suppliedActive), q.allowed);
  }

  /** A completion is a round exactly when the canonical outputs cover the dependencies leaving the unit. */
  lemma {:induction false} CompletionIsFinish(log: Events, q: CompleteRequest, g: TaskGraph, unit: TaskUnit,
                                              outputs: OutputRefs)
    requires RelationsOk(g) && Current(g, q.unit) && Reports(CompleteWrites(log, q), unit)
    ensures InState(g, unit.unitId, TaskState.Processing) && Restates(g.units[unit.unitId], unit, TaskState.Completed)
    ensures IsRound(g, Finish(unit, outputs))
      <==> Covers(g, unit.unitId, SourceOutputs(Moved(g, Finish(unit, outputs)), unit.unitId))
  {
    var write := CompleteWrites(log, q).value[0];
    LastDraft(write.id, write.drafts);
  }

  ghost predicate CoversOnFinish(g: TaskGraph, round: Round) {
    round.Finish? ==> Covers(g, round.unit.unitId, SourceOutputs(Moved(g, round), round.unit.unitId))
  }

  /** The steps' rounds are the graph's: each keeps the graph live, a completion exactly when its outputs cover. */
  lemma {:induction false} PerformedKeepsLive(cfg: ProtocolConfig, log: Events, step: Step, g: TaskGraph, round: Round)
    requires Live(g) && Performs(cfg, log, step, g, round)
    ensures Live(Moved(g, round)) <==> CoversOnFinish(g, round)
    ensures CoversOnFinish(g, round) ==> IsRound(g, round)
  {
    match step
    case MakeReady(q) =>
      ReadinessIsActivation(q);
      RoundKeepsLive(g, round);
    case Schedule(q) =>
      SchedulingIsStart(cfg, log, q, round.unit);
      RoundKeepsLive(g, round);
    case CompleteUnit(q) =>
      CompletionIsFinish(log, q, g, round.unit, round.outputs);
      CompletionKeepsLive(g, round.unit, round.outputs);
  }

  // ---------------------------------------------------------------- rounds on record

  lemma {:induction false} LastEventIsLatest(log: Events, unit: TaskUnit)
    requires log != [] && log[|log| - 1].Payload().UnitChanged? && log[|log| - 1].Payload().unit == unit
    ensures LatestUnit(log, unit.unitId) == Some(unit)
  {
  }

  lemma {:induction false} BatchReports(log: Events, id: BatchId, drafts: seq<Draft>, unit: TaskUnit)
    requires Reports(Ok([Batch(id, drafts)]), unit) && Commit(log, [Batch(id, drafts)]) != log
    ensures LatestUnit(Commit(log, [Batch(id, drafts)]), unit.unitId) == Some(unit)
  {
    LastDraft(id, drafts);
    BatchAdds(log, id, drafts);
    LastEventIsLatest(Commit(log, [Batch(id, drafts)]), unit);
  }

  lemma {:induction false} AppendReports(log: Events, d: Draft, unit: TaskUnit)
    requires Reports(Ok([One(d)]), unit) && Commit(log, [One(d)]) != log
    ensures LatestUnit(Commit(log, [One(d)]), unit.unitId) == Some(unit)
  {
    assert [One(d)][1..] == [] && AllDrafts([One(d)]) == [d];
    AppendAdds(log, d);
    LastEventIsLatest(Commit(log, [One(d)]), unit);
  }

  /** A round that changes the ledger leaves the unit there as it leaves it in the graph. */
  lemma {:induction false} PerformedIsRecorded(cfg: ProtocolConfig, log: Events, step: Step, g: TaskGraph, round: Round)
    requires Performs(cfg, log, step, g, round) && Exec(cfg, log, step) != log
    ensures LatestUnit(Exec(cfg, log, step), round.unit.unitId) == Some(Moved(g, round).units[round.unit.unitId])
  {
    match step
    case MakeReady(q) =>
      ExecReady(cfg, log, q);
      AppendReports(log, ReadyWrites(q).value[0].draft, round.unit);
    case Schedule(q) =>
      ExecSchedule(cfg, log, q);
      var _, _, claim, processing := ScheduleShape(cfg, log, q);
      BatchReports(log, ScheduleBatch(q.attemptId), ScheduleDrafts(claim, processing, q.now, q.correlationId),
                   round.unit);
    case CompleteUnit(q) =>
      ExecComplete(cfg, log, q);
      var write := CompleteWrites(log, q).value[0];
      BatchReports(log, write.id, write.drafts, round.unit);
  }

  // ---------------------------------------------------------------- whole runs

  ghost predicate MovesBy(cfg: ProtocolConfig, log: Events, step: Step, g: TaskGraph, h: TaskGraph) {
    exists round :: Performs(cfg, log, step, g, round) && CoversOnFinish(g, round) && h == Moved(g, round)
  }

  /** The graphs the coordinator keeps along a run: a step either leaves the graph alone or makes a round of it. */
  ghost predicate Keeps(cfg: ProtocolConfig, run: Run, graphs: nat -> TaskGraph, k: nat) {
    forall i: nat {:trigger run.StepAt(i)} :: i < k ==>
      graphs(i + 1) == graphs(i) || MovesBy(cfg, run.At(i), run.StepAt(i), graphs(i), graphs(i + 1))
  }

  /** How often the graph changes in the first `k` steps. */
  ghost function Changes(graphs: nat -> TaskGraph, k: nat): nat {
    if k == 0 then 0 else Changes(graphs, k - 1) + if graphs(k) == graphs(k - 1) then 0 else 1
  }

  lemma {:induction false} KeepsAt(cfg: ProtocolConfig, run: Run, graphs: nat -> TaskGraph, k: nat)
    requires k > 0 && Keeps(cfg, run, graphs, k)
    ensures Keeps(cfg, run, graphs, k - 1)
    ensures graphs(k) == graphs(k - 1) || MovesBy(cfg, run.At(k - 1), run.StepAt(k - 1), graphs(k - 1), graphs(k))
  {
  }

  lemma {:induction false} MoveDoesWork(cfg: ProtocolConfig, log: Events, step: Step, g: TaskGraph, h: TaskGraph)
    requires Live(g) && MovesBy(cfg, log, step, g, h)
    ensures Live(h) && WorkOf(h) == WorkOf(g) - 1
  {
    var round :| Performs(cfg, log, step, g, round) && CoversOnFinish(g, round) && h == Moved(g, round);
    PerformedKeepsLive(cfg, log, step, g, round);
    RoundDoesWork(g, round);
  }

  lemma {:induction false} GraphStepFinishes(cfg: ProtocolConfig, log: Events, step: Step, g: TaskGraph, h: TaskGraph)
    requires Live(g) && (h == g || MovesBy(cfg, log, step, g, h))
    ensures Live(h) && WorkOf(h) + (if h == g then 0 else 1) == WorkOf(g)
  {
    if h != g { MoveDoesWork(cfg, log, step, g, h); }
  }

  lemma {:induction false} NextDoesWork(cfg: ProtocolConfig, run: Run, graphs: nat -> TaskGraph, k: nat)
    requires k > 0 && Keeps(cfg, run, graphs, k) && Live(graphs(k - 1))
    ensures Live(graphs(k))
    ensures WorkOf(graphs(k)) + (if graphs(k) == graphs(k - 1) then 0 else 1) == WorkOf(graphs(k - 1))
  {
    KeepsAt(cfg, run, graphs, k);
    GraphStepFinishes(cfg, run.At(k - 1), run.StepAt(k - 1), graphs(k - 1), graphs(k));
  }

  /**
   * In every run in which units only become ready, are scheduled and complete with covering outputs, the graph stays
   * live and changes at most as often as there was work at the start.
   */
  lemma {:induction false} RunDoesWork(cfg: ProtocolConfig, run: Run, graphs: nat -> TaskGraph, k: nat)
    requires IsRun(cfg, run) && Live(graphs(0)) && Keeps(cfg, run, graphs, k)
    ensures Live(graphs(k)) && Changes(graphs, k) + WorkOf(graphs(k)) == WorkOf(graphs(0))
  {
    if k > 0 {
      KeepsAt(cfg, run, graphs, k);
      RunDoesWork(cfg, run, graphs, k - 1);
      NextDoesWork(cfg, run, graphs, k);
    }
  }

  /** And a round is left exactly until every unit is Completed: such a run never gets stuck before. */
  lemma {:induction false} RunFinishes(cfg: ProtocolConfig, run: Run, graphs: nat -> TaskGraph, k: nat)
    requires IsRun(cfg, run) && Live(graphs(0)) && Keeps(cfg, run, graphs, k)
    ensures Changes(graphs, k) <= WorkOf(graphs(0))
    ensures RelationsOk(graphs(k)) && (Stuck(graphs(k)) <==> Done(graphs(k)))
  {
    RunDoesWork(cfg, run, graphs, k);
    StuckIsDone(graphs(k));
  }

  // ---------------------------------------------------------------- runs with retries

  /** A recovery puts the unit back to Ready. */
  ghost predicate RetriesTo(cfg: ProtocolConfig, log: Events, step: Step, g: TaskGraph, unit: TaskUnit) {
    && step.Recover? && Current(g, step.recover.unit) && unit.state.Ready?
    && step.recover.decision.retryCount == step.recover.unit.lastAttemptOrdinal + 1
    && Reports(RecoverWrites(cfg, log, step.recover), unit)
  }

  lemma {:induction false} RetryMoves(cfg: ProtocolConfig, log: Events, step: Step, g: TaskGraph, unit: TaskUnit)
    requires RetriesTo(cfg, log, step, g, unit)
    ensures unit.unitId in g.units && Restates(g.units[unit.unitId], unit, TaskState.Ready)
    ensures Fuel(unit, cfg.maxRetries) < Fuel(g.units[unit.unitId], cfg.maxRetries)
  {
    var q := step.recover;
    var lease, attempt, recovered := RecoverShape(cfg, log, q);
    LastDraft(RecoveryBatch(q.actionId), RecoveryDrafts(q, lease, attempt, recovered));
    MoveSpends(q.unit, unit, cfg.maxRetries);
  }

  lemma {:induction false} RoundSpends(cfg: ProtocolConfig, log: Events, step: Step, g: TaskGraph, round: Round)
    requires Performs(cfg, log, step, g, round)
    ensures round.unit.unitId in g.units
    ensures Fuel(round.unit, cfg.maxRetries) < Fuel(g.units[round.unit.unitId], cfg.maxRetries)
  {
    match step
    case MakeReady(q) =>
      var d := ReadyWrites(q).value[0].draft;
      assert [One(d)][1..] == [] && AllDrafts([One(d)]) == [d];
      MoveSpends(q.unit, round.unit, cfg.maxRetries);
    case Schedule(q) =>
      var u, _, claim, processing := ScheduleShape(cfg, log, q);
      LastDraft(ScheduleBatch(q.attemptId), ScheduleDrafts(claim, processing, q.now, q.correlationId));
      MoveSpends(g.units[u], processing, cfg.maxRetries);
    case CompleteUnit(q) =>
      var write := CompleteWrites(log, q).value[0];
      LastDraft(write.id, write.drafts);
      MoveSpends(q.unit, round.unit, cfg.maxRetries);
  }

  function FuelOf(units: map<string, TaskUnit>, ids: seq<string>, maxRetries: int): nat {
    if ids == [] then 0
    else (if ids[0] in units then Fuel(units[ids[0]], maxRetries) else 0) + FuelOf(units, ids[1..], maxRetries)
  }

  /** The state changes the units of a graph may still make. */
  function GraphFuel(g: TaskGraph, maxRetries: int): nat { FuelOf(g.units, g.order, maxRetries) }

  lemma {:induction false} FuelDrops(units: map<string, TaskUnit>, ids: seq<string>, unit: TaskUnit, maxRetries: int)
    requires unit.unitId in units && Fuel(unit, maxRetries) < Fuel(units[unit.unitId], maxRetries)
    ensures FuelOf(units[unit.unitId := unit], ids, maxRetries) <= FuelOf(units, ids, maxRetries)
    ensures unit.unitId in ids ==>
      FuelOf(units[unit.unitId := unit], ids, maxRetries) < FuelOf(units, ids, maxRetries)
  {
    if ids != [] { FuelDrops(units, ids[1..], unit, maxRetries); }
  }

  ghost predicate RetriesBy(cfg: ProtocolConfig, log: Events, step: Step, g: TaskGraph, h: TaskGraph) {
    exists unit :: RetriesTo(cfg, log, step, g, unit) && h == ReplaceUnit(g, unit, map[])
  }

  /** As `Keeps`, with failed attempts put back for another. */
  ghost predicate KeepsRetrying(cfg: ProtocolConfig, run: Run, graphs: nat -> TaskGraph, k: nat) {
    forall i: nat {:trigger run.StepAt(i)} :: i < k ==>
      || graphs(i + 1) == graphs(i) || MovesBy(cfg, run.At(i), run.StepAt(i), graphs(i), graphs(i + 1))
      || RetriesBy(cfg, run.At(i), run.StepAt(i), graphs(i), graphs(i + 1))
  }

  lemma {:induction false} RetryingAt(cfg: ProtocolConfig, run: Run, graphs: nat -> TaskGraph, k: nat)
    requires k > 0 && KeepsRetrying(cfg, run, graphs, k)
    ensures KeepsRetrying(cfg, run, graphs, k - 1)
    ensures graphs(k) == graphs(k - 1)
      || MovesBy(cfg, run.At(k - 1), run.StepAt(k - 1), graphs(k - 1), graphs(k))
      || RetriesBy(cfg, run.At(k - 1), run.StepAt(k - 1), graphs(k - 1), graphs(k))
  {
  }

  lemma {:induction false} MoveSpendsFuel(cfg: ProtocolConfig, log: Events, step: Step, g: TaskGraph, h: TaskGraph)
    requires Live(g) && MovesBy(cfg, log, step, g, h)
    ensures Live(h) && GraphFuel(h, cfg.maxRetries) < GraphFuel(g, cfg.maxRetries)
  {
    var round :| Performs(cfg, log, step, g, round) && CoversOnFinish(g, round) && h == Moved(g, round);
    PerformedKeepsLive(cfg, log, step, g, round);
    RoundSpends(cfg, log, step, g, round);
    assert round.unit.unitId in Elements(g.order);
    FuelDrops(g.units, g.order, round.unit, cfg.maxRetries);
  }

  lemma {:induction false} RetrySpendsFuel(cfg: ProtocolConfig, log: Events, step: Step, g: TaskGraph, h: TaskGraph)
    requires Live(g) && RetriesBy(cfg, log, step, g, h)
    ensures Live(h) && GraphFuel(h, cfg.maxRetries) < GraphFuel(g, cfg.maxRetries)
  {
    var unit :| RetriesTo(cfg, log, step, g, unit) && h == ReplaceUnit(g, unit, map[]);
    RetryMoves(cfg, log, step, g, unit);
    EarlyRoundKeepsLive(g, unit, TaskState.Ready);
    assert unit.unitId in Elements(g.order);
    FuelDrops(g.units, g.order, unit, cfg.maxRetries);
  }

  lemma {:induction false} RetryingStepSpends(cfg: ProtocolConfig, log: Events, step: Step, g: TaskGraph, h: TaskGraph)
    requires Live(g) && (h == g || MovesBy(cfg, log, step, g, h) || RetriesBy(cfg, log, step, g, h))
    ensures Live(h) && GraphFuel(h, cfg.maxRetries) + (if h == g then 0 else 1) <= GraphFuel(g, cfg.maxRetries)
  {
    if h != g {
      if MovesBy(cfg, log, step, g, h) { MoveSpendsFuel(cfg, log, step, g, h); }
      else { RetrySpendsFuel(cfg, log, step, g, h); }
    }
  }

  lemma {:induction false} NextSpends(cfg: ProtocolConfig, run: Run, graphs: nat -> TaskGraph, k: nat)
    requires k > 0 && KeepsRetrying(cfg, run, graphs, k) && Live(graphs(k - 1))
    ensures Live(graphs(k))
    ensures GraphFuel(graphs(k), cfg.maxRetries) + (if graphs(k) == graphs(k - 1) then 0 else 1)
      <= GraphFuel(graphs(k - 1), cfg.maxRetries)
  {
    RetryingAt(cfg, run, graphs, k);
    RetryingStepSpends(cfg, run.At(k - 1), run.StepAt(k - 1), graphs(k - 1), graphs(k));
  }

  /**
   * With failed attempts retried, too, the graph stays live and changes only as often as its units' attempts allow:
   * two times for each attempt a unit may still make.
   */
  lemma {:induction false} RetryingRunFinishes(cfg: ProtocolConfig, run: Run, graphs: nat -> TaskGraph, k: nat)
    requires IsRun(cfg, run) && Live(graphs(0)) && KeepsRetrying(cfg, run, graphs, k)
    ensures Live(graphs(k))
    ensures Changes(graphs, k) + GraphFuel(graphs(k), cfg.maxRetries) <= GraphFuel(graphs(0), cfg.maxRetries)
  {
    if k > 0 {
      RetryingAt(cfg, run, graphs, k);
      RetryingRunFinishes(cfg, run, graphs, k - 1);
      NextSpends(cfg, run, graphs, k);
    }
  }

  // ---------------------------------------------------------------- the step that is left

  /** The lease, attempt and correlation of the request are new to the ledger. */
  ghost predicate Unused(log: Events, q: ScheduleRequest) {
    && !HasBatch(log, ScheduleBatch(q.attemptId))
    && forall i :: 0 <= i < |log| ==>
      && log[i].Key() != LeaseCreateKey(q.leaseId)
      && (log[i].Key().AttemptStateKey? ==> log[i].Key().attemptId != q.attemptId)
      && (log[i].Key().UnitStateKey? ==> log[i].Key().tag != Correlation(q.correlationId))
  }

  /** Every ready unit is free, and some client can serve it. */
  ghost predicate CanServe(cfg: ProtocolConfig, log: Events, q: ScheduleRequest)
    requires RelationsOk(q.graph)
  {
    forall u :: IsReady(q.graph, u) ==>
      && (cfg.allowShadowExecution || !HasActiveLease(ActiveCounts(log, q.suppliedActive), u))
      && exists c :: c in q.clients && Capable(c, q.graph.units[u].requiredCapabilities)
  }

  lemma {:induction false} ScheduleIsAppended(log: Events, q: ScheduleRequest, claim: LeaseClaim, processing: TaskUnit)
    requires Unused(log, q) && claim.lease.leaseId == q.leaseId && claim.created.attemptId == q.attemptId
      && claim.running.attemptId == q.attemptId && claim.created.state != claim.running.state
    ensures Commits(log, [Batch(ScheduleBatch(q.attemptId),
                                ScheduleDrafts(claim, processing, q.now, q.correlationId))])
  {
    var drafts := ScheduleDrafts(claim, processing, q.now, q.correlationId);
    forall j | 0 <= j < |drafts| ensures Lookup(log, drafts[j].key).None? { LookupFinds(log, drafts[j].key); }
    assert Lookup(log, drafts[0].key).None?;
    OneBatchAppend(log, ScheduleBatch(q.attemptId), drafts);
  }

  /** Scheduling goes through once some unit can be picked. */
  lemma {:induction false} PickedIsScheduled(cfg: ProtocolConfig, log: Events, q: ScheduleRequest)
    requires q.graph.IsDict() && GraphOk(q.graph)
    requires
      Selected(q.graph, q.clients, cfg.allowShadowExecution, ActiveCounts(log, q.suppliedActive), q.allowed).Some?
    ensures ScheduleWrites(cfg, log, q).Ok?
  {
    SelectedIsLeast(q.graph, q.clients, cfg.allowShadowExecution, ActiveCounts(log, q.suppliedActive), q.allowed);
  }

  lemma {:induction false} SomeUnitIsPicked(cfg: ProtocolConfig, log: Events, q: ScheduleRequest, u: string)
    requires Live(q.graph) && IsReady(q.graph, u) && q.allowed.None? && CanServe(cfg, log, q)
    ensures
      Selected(q.graph, q.clients, cfg.allowShadowExecution, ActiveCounts(log, q.suppliedActive), q.allowed).Some?
  {
    var active := ActiveCounts(log, q.suppliedActive);
    var c :| c in q.clients && Capable(c, q.graph.units[u].requiredCapabilities);
    assert u in Elements(q.graph.order);
    assert EligiblePair(q.graph, q.clients, cfg.allowShadowExecution, active, q.allowed, u, c);
    SelectedIsLeast(q.graph, q.clients, cfg.allowShadowExecution, active, q.allowed);
  }

  lemma {:induction false} ReadyIsScheduled(cfg: ProtocolConfig, log: Events, q: ScheduleRequest, u: string)
    returns (round: Round)
    requires Live(q.graph) && IsReady(q.graph, u) && q.allowed.None? && Unused(log, q) && CanServe(cfg, log, q)
    ensures Performs(cfg, log, Schedule(q), q.graph, round) && Succeeds(log, ScheduleWrites(cfg, log, q))
  {
    SomeUnitIsPicked(cfg, log, q, u);
    PickedIsScheduled(cfg, log, q);
    var _, _, claim, processing := ScheduleShape(cfg, log, q);
    LastDraft(ScheduleBatch(q.attemptId), ScheduleDrafts(claim, processing, q.now, q.correlationId));
    ScheduleIsAppended(log, q, claim, processing);
    round := Start(processing);
  }

  function ReadyRequestOf(q: ScheduleRequest, u: string): ReadyRequest
    requires u in q.graph.units
  {
    ReadyRequest(q.graph.units[u], q.graph, q.now, q.correlationId)
  }

  lemma {:induction false} BlockedIsActivated(cfg: ProtocolConfig, log: Events, q: ScheduleRequest, u: string)
    returns (round: Round)
    requires Live(q.graph) && IsActivatable(q.graph, u) && Unused(log, q)
    ensures Performs(cfg, log, MakeReady(ReadyRequestOf(q, u)), q.graph, round)
    ensures Succeeds(log, ReadyWrites(ReadyRequestOf(q, u)))
  {
    var r := ReadyRequestOf(q, u);
    ReadinessIsActivation(r);
    var d := ReadyWrites(r).value[0].draft;
    LookupFinds(log, d.key);
    OneAppend(log, d);
    assert [One(d)][1..] == [] && AllDrafts([One(d)]) == [d];
    round := Activate(d.payload.unit);
  }

  /**
   * A live graph with units left, none of them in Processing, and a client for each ready one always has a step that
   * succeeds: making a unit Ready, or this request to schedule. It makes a round, so the graph stays live.
   */
  lemma {:induction false} StepIsLeft(cfg: ProtocolConfig, log: Events, q: ScheduleRequest)
    returns (step: Step, round: Round)
    requires Live(q.graph) && Idle(q.graph) && !Done(q.graph)
    requires q.allowed.None? && Unused(log, q) && CanServe(cfg, log, q)
    ensures step == Schedule(q)
      || (round.unit.unitId in q.graph.units && step == MakeReady(ReadyRequestOf(q, round.unit.unitId)))
    ensures Performs(cfg, log, step, q.graph, round) && Succeeds(log, Writes(cfg, log, step))
    ensures Live(Moved(q.graph, round))
  {
    var u := NoDeadlock(q.graph);
    if IsReady(q.graph, u) {
      step := Schedule(q);
      round := ReadyIsScheduled(cfg, log, q, u);
    } else {
      step := MakeReady(ReadyRequestOf(q, u));
      round := BlockedIsActivated(cfg, log, q, u);
      ReadinessIsActivation(step.ready);
    }
    PerformedKeepsLive(cfg, log, step, q.graph, round);
  }

  /** So such a run, retries included, is never stuck while units are left and none of them is being worked on. */
  lemma {:induction false} RunGoesOn(cfg: ProtocolConfig, run: Run, graphs: nat -> TaskGraph, k: nat,
                                     q: ScheduleRequest) returns (step: Step, round: Round)
    requires IsRun(cfg, run) && Live(graphs(0)) && KeepsRetrying(cfg, run, graphs, k)
    requires q.graph == graphs(k) && Idle(q.graph) && !Done(q.graph) && q.allowed.None?
    requires Live(q.graph) ==> Unused(run.At(k), q) && CanServe(cfg, run.At(k), q)
    ensures Performs(cfg, run.At(k), step, graphs(k), round) && Succeeds(run.At(k), Writes(cfg, run.At(k), step))
    ensures Live(Moved(graphs(k), round))
  {
    RetryingRunFinishes(cfg, run, graphs, k);
    step, round := StepIsLeft(cfg, run.At(k), q);
  }
}
