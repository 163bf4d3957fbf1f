/**
 * Inputs on which a guarantee fails, one for each condition the other modules state
 * (src/tokenshare/core/task_graph.py:83-101; src/tokenshare/core/merge_coordinator.py:74-164;
 * src/tokenshare/protocol_engine.py:357-409, 1107-1113, 1555-1637, 1793-1825, 1827-2050).
 */
module Failures {
  import opened Basics
  import opened Objects
  import Order
  import opened Graphs
  import opened Ledger
  import Batches
  import opened Lifecycles
  import opened TaskGraphs
  import opened Expansion
  import opened Merging
  import opened Projections
  import opened Pruning
  import opened Steps
  import opened Runs
  import opened Growth
  import opened Races
  import opened Leasing
  import opened Bindings
  import opened Repeats
  import opened Scenario
  import opened DoublePayment

  // ---------------------------------------------------------------- an expansion whose graph is refused

  /** Child "b" takes the output of "a" that has the empty name. */
  function UnnamedProposal(): Proposal {
    Proposed("", [DependencyEdge("e", DEPENDS_ON_OUTPUT, "a", "b", "", "in")], [], FromParent)
  }

  lemma {:induction false} UnnamedProposalIsOk()
    ensures ProposalOk(UnnamedProposal())
  {
    SpecsAreOk("");
    var p := UnnamedProposal();
    var byKey := SpecsByKey(p.childSpecs);
    var g := ChildGraph(byKey.Keys, p.edges);
    ArrowEdges(byKey.Keys, EdgeArrows(p.edges));
    assert EdgeArrows(p.edges) == [("a", "b")];
    assert ["b", "a"][..1] == ["b"];
    FinishedIsAcyclic(g, ["b", "a"]);
  }

  lemma {:induction false} UnnamedIsAppended(log: Events)
    requires Stage(2, log) && Keyed(log)
    ensures var q := ExpandRequested(UnnamedProposal());
      ExpandWrites(log, q).Ok? && After(log, ExpandWrites(log, q)) != log
  {
    var p := UnnamedProposal();
    UnnamedProposalIsOk();
    var children := ExpandIsWritten(log, p, "");
    ExpandIsPlaced(log, ExpandRequested(p), Expanded(p), children);
  }

  lemma {:induction false} ChildIdsAreNew()
    ensures forall key :: key in SpecKeys(UnnamedProposal().childSpecs) ==> ChildName(key) !in LoneGraph().units
  {
    NamesDiffer();
    assert SpecKeys(UnnamedProposal().childSpecs) == ["a", "b"];
  }

  /** A parent's output is verified and bound, its expansion appended: then the graph built from it is refused. */
  lemma {:induction false} UnnamedOutputBreaksGraph(cfg: ProtocolConfig)
    returns (run: Run, j: nat, x: Expanding, children: seq<TaskUnit>)
    ensures IsRun(cfg, run) && run.Start() == [] && run.StepAt(j) == ExpandUnit(ExpandRequested(UnnamedProposal()))
    ensures run.At(j + 1) != run.At(j) && x.proposal == UnnamedProposal()
    ensures Expandable(LoneGraph(), x, children, [OUTPUT], None) && FreshIds(LoneGraph(), children)
    ensures !GraphOk(ExpandedGraph(LoneGraph(), x, children))
  {
    var q := ExpandRequested(UnnamedProposal());
    run, j := RunThen(cfg, 2, ExpandUnit(q));
    ExecExpand(cfg, run.At(j), q);
    UnnamedIsAppended(run.At(j));
    ChildIdsAreNew();
    x, children := AppendedExpansionKeepsGraph(run.At(j), q);
    assert q.proposal.edges[0] in q.proposal.edges;
  }

  // ---------------------------------------------------------------- two leases on one unit

  const ATTEMPT := "a"

  function LeaseOf(leaseId: string, expiresAt: string): Lease {
    Lease(leaseId, TASK, PARENT, ATTEMPT, "c", Active, "f", NOW, expiresAt, None, 0, "primary", None, None, map[], 0,
          None, ANY)
  }

  /** Two heartbeats, of leases the ledger has never seen. */
  function UnseenHeartbeats(now: string, expiresAt: string): nat -> Step {
    (k: nat) => RenewLease(LeaseOf(if k == 0 then "l" else "m", expiresAt), now, ANY)
  }

  lemma {:induction false} FirstHeartbeat(cfg: ProtocolConfig, now: string, expiresAt: string) returns (log: Events)
    requires cfg.clock.parse(now) < cfg.clock.parse(expiresAt)
    ensures log == After([], HeartbeatWrites(cfg, [], LeaseOf("l", expiresAt), now, ANY))
    ensures ActiveLeases(log, PARENT) == {"l"} && LatestLease(log, "m").None?
  {
    var renewed := Lifecycles.Heartbeat(cfg, LeaseOf("l", expiresAt), now).value;
    var e := Event(1, HeartbeatDraft(renewed, now, ANY), None);
    log := [] + [e];
    RenewedIsRecorded([], renewed, now, ANY);
    assert ActiveLeases([], PARENT) == {};
    LeaseEventEffect([], e, PARENT);
    ProjectionsOfAppend([], e, "m");
  }

  lemma {:induction false} SecondHeartbeat(cfg: ProtocolConfig, log: Events, now: string, expiresAt: string)
    requires cfg.clock.parse(now) < cfg.clock.parse(expiresAt) && Keyed(log)
    requires ActiveLeases(log, PARENT) == {"l"} && LatestLease(log, "m").None?
    ensures ActiveLeases(After(log, HeartbeatWrites(cfg, log, LeaseOf("m", expiresAt), now, ANY)), PARENT) == {"l", "m"}
  {
    var renewed := Lifecycles.Heartbeat(cfg, LeaseOf("m", expiresAt), now).value;
    RenewedIsRecorded(log, renewed, now, ANY);
    LeaseEventEffect(log, Event(|log| + 1, HeartbeatDraft(renewed, now, ANY), None), PARENT);
  }

  /** Two steps from the empty ledger, whatever the configuration: a unit with two active leases. */
  lemma {:induction false} UnseenHeartbeatDoublesLease(cfg: ProtocolConfig, now: string, expiresAt: string)
    returns (run: Run)
    requires cfg.clock.parse(now) < cfg.clock.parse(expiresAt)
    ensures IsRun(cfg, run) && run.Start() == [] && run.steps == UnseenHeartbeats(now, expiresAt)
    ensures |ActiveLeases(run.At(2), PARENT)| == 2
  {
    var steps := UnseenHeartbeats(now, expiresAt);
    run := EveryStepRuns(cfg, [], steps);
    assert run.StepAt(0) == steps(0) && run.StepAt(1) == steps(1);
    var first := FirstHeartbeat(cfg, now, expiresAt);
    ExecRenew(cfg, [], LeaseOf("l", expiresAt), now, ANY);
    RunIsKeyed(cfg, run, 0, 1);
    SecondHeartbeat(cfg, first, now, expiresAt);
    ExecRenew(cfg, first, LeaseOf("m", expiresAt), now, ANY);
  }

  // ---------------------------------------------------------------- a crash between the two calls of a submission

  function RunningAttempt(): Attempt {
    Attempt(ATTEMPT, TASK, PARENT, "l", "c", AttemptState.Running, "primary", NOW, None, None, None, None, None, None,
            None, None, None, None, None, None, None, 0, ANY)
  }

  function SubmittedBy(submittedAt: string): Submission {
    Submission("s", TASK, PARENT, ATTEMPT, "l", "f", submittedAt, map[], None, None, map[], None)
  }

  function ExpiryRequested(expiresAt: string, now: string): RecoverRequest {
    RecoverRequest(RetryDecision(LeaseExpired, true, TaskState.Ready, AttemptState.Superseded, 0), RunningAttempt(),
                   LeaseOf("l", expiresAt), Parent(), "r", now, ANY)
  }

  lemma {:induction false} InTimeIsAccepted(cfg: ProtocolConfig, submittedAt: string, expiresAt: string)
    returns (submitted: Attempt)
    requires cfg.clock.parse(submittedAt) <= cfg.clock.parse(expiresAt)
    ensures var s := SubmittedBy(submittedAt);
      && IsAccepted(cfg, [], s, RunningAttempt(), LeaseOf("l", expiresAt), ANY, submitted)
      && AfterCrash([], s) == [Event(1, SubmissionDraft(s, None), None)]
  {
    var s := SubmittedBy(submittedAt);
    submitted := SubmitAttempt(RunningAttempt(), s).value;
    OneAppend([], SubmissionDraft(s, None));
  }

  /** What the expiry writes. */
  function ExpiryDrafts(expiresAt: string, now: string): seq<Draft> {
    RecoveryDrafts(
      ExpiryRequested(expiresAt, now),
      LeaseOf("l", expiresAt).(state := Expired, terminatedAt := Some(now), terminatedReason := Some("lease_expired")),
      RunningAttempt().(state := AttemptState.Superseded, finishedAt := Some(now)),
      Parent().(state := TaskState.Ready, updatedAt := now))
  }

  lemma {:induction false} ExpiryIsWritten(cfg: ProtocolConfig, log: Events, expiresAt: string, now: string)
    requires cfg.maxRetries >= 0 && cfg.clock.parse(expiresAt) <= cfg.clock.parse(now)
    requires |log| == 1 && log[0].Payload().SubmissionRecorded? && log[0].tag.None?
    ensures RecoverWrites(cfg, log, ExpiryRequested(expiresAt, now))
      == Ok([Batch(RecoveryBatch("r"), ExpiryDrafts(expiresAt, now))])
  {
    var q := ExpiryRequested(expiresAt, now);
    assert log == [] + [log[0]];
    ProjectionsOfAppend([], log[0], "l");
    ProjectionsOfAppend([], log[0], ATTEMPT);
    assert RecoveryFault(cfg, log, q).None?;
    assert RecoveredPair(cfg, q).Ok?;
  }

  lemma {:induction false} ExpiryIsRecorded(log: Events, drafts: seq<Draft>)
    requires |log| == 1 && log[0].Key().SubmissionKey? && log[0].tag.None? && drafts != [] && DistinctKeys(drafts)
    requires forall i :: 0 <= i < |drafts| ==> !drafts[i].key.SubmissionKey?
    ensures Commit(log, [Batch(RecoveryBatch("r"), drafts)]) == log + Stamp(1, RecoveryBatch("r"), drafts)
  {
    forall j | 0 <= j < |drafts| ensures Lookup(log, drafts[j].key).None? { LookupFinds(log, drafts[j].key); }
    NewBatchIsAppended(log, RecoveryBatch("r"), drafts);
  }

  lemma {:induction false} ExpiryCounts(log: Events, more: Events)
    requires more != [] && Expires(more[0], ATTEMPT)
    requires forall i :: 1 <= i < |more| ==> !Accepts(more[i], ATTEMPT) && !Expires(more[i], ATTEMPT)
    ensures Outcomes(log + more, ATTEMPT) == Outcomes(log, ATTEMPT) + 1
  {
    var n := |more| - 1;
    AppendEffect(log + more[..n], more[n], ATTEMPT);
    assert log + more == log + more[..n] + [more[n]];
    if n > 0 { ExpiryCounts(log, more[..n]); } else { assert log + more[..n] == log; }
  }

  lemma {:induction false} ExpiryIsAnOutcome(log: Events, expiresAt: string, now: string)
    requires |log| == 1 && log[0].Key().SubmissionKey? && log[0].tag.None?
    ensures Outcomes(Commit(log, [Batch(RecoveryBatch("r"), ExpiryDrafts(expiresAt, now))]), ATTEMPT)
      == Outcomes(log, ATTEMPT) + 1
  {
    ExpiryIsRecorded(log, ExpiryDrafts(expiresAt, now));
    ExpiryCounts(log, Stamp(1, RecoveryBatch("r"), ExpiryDrafts(expiresAt, now)));
  }

  /**
   * The attempt of a submission whose second event was lost is still open to an expiry: whatever the configuration,
   * a submission in time, the crash and an expiry after the deadline leave an accepted submission and an expired
   * lease of one attempt.
   */
  lemma {:induction false} CrashThenExpiry(cfg: ProtocolConfig, submittedAt: string, expiresAt: string, now: string)
    returns (submitted: Attempt)
    requires cfg.maxRetries >= 0
    requires cfg.clock.parse(submittedAt) <= cfg.clock.parse(expiresAt) <= cfg.clock.parse(now)
    ensures IsAccepted(cfg, [], SubmittedBy(submittedAt), RunningAttempt(), LeaseOf("l", expiresAt), ANY, submitted)
    ensures var crashed := AfterCrash([], SubmittedBy(submittedAt));
      Outcomes(After(crashed, RecoverWrites(cfg, crashed, ExpiryRequested(expiresAt, now))), ATTEMPT) == 2
  {
    submitted := InTimeIsAccepted(cfg, submittedAt, expiresAt);
    var crashed := AfterCrash([], SubmittedBy(submittedAt));
    AppendEffect([], crashed[0], ATTEMPT);
    assert crashed == [] + [crashed[0]];
    ExpiryIsWritten(cfg, crashed, expiresAt, now);
    ExpiryIsAnOutcome(crashed, expiresAt, now);
  }

  // ---------------------------------------------------------------- a merge input no ledger holds

  lemma {:induction false} NoLinksYet(log: Events)
    requires Stage(3, log) && Keyed(log)
    ensures LinksGrounded(log)
  {
    forall i | 0 <= i < |log| ensures !log[i].Payload().MergeTaskLinked? {
      assert KeyFits(log[i].draft) && PlacedAt(log[i], i);
    }
  }

  lemma {:induction false} LinkIsAppended(log: Events, drafts: seq<Draft>)
    requires Placed(log, 3) && drafts == LinkDrafts()
    ensures Commit(log, [Batch(MergeTaskBatch(PLAN), drafts)]) != log
  {
    BatchIsAppended(log, 3, MergeTaskBatch(PLAN), drafts);
  }

  lemma {:induction false} NotOwn(log: Events)
    requires |log| == 10 && |ExpansionEvents()| == 6
    ensures !PresentsOwn(log, MergeTaskRequested())
  {
    var q, slot := MergeTaskRequested(), Plan().requiredSlots[0];
    ExpansionIsShown(ExpansionEvents());
    var byUnit := CanonicalByUnit(q.canonicalEvents);
    assert q.canonicalEvents[..0] == [] && CanonicalByUnit(q.canonicalEvents[..0]) == map[];
    assert byUnit == map[][Child() := ChildBound()];
    assert slot in Plan().requiredSlots && Wanted(slot, None) && !OwnOutput(log, byUnit[Child()], OUTPUT);
  }

  /** The merge task is asked for before the child's output is bound, with a canonical event made up for it. */
  lemma {:induction false} MadeUpInputIsLinked(cfg: ProtocolConfig) returns (run: Run, j: nat)
    ensures IsRun(cfg, run) && run.Start() == []
    ensures |ExpansionEvents()| == 6 && run.StepAt(j) == CreateMergeTask(MergeTaskRequested())
    ensures ChildBound() !in run.At(j + 1) && !LinksGrounded(run.At(j + 1))
  {
    ExpansionSize();
    var q := MergeTaskRequested();
    run, j := RunThen(cfg, 3, CreateMergeTask(q));
    ExecMergeTask(cfg, run.At(j), q);
    NoLinksYet(run.At(j));
    MergeTaskIsWritten(run.At(j));
    LinkIsAppended(run.At(j), LinkDrafts());
    NotOwn(run.At(j));
    MergeTaskKeepsLinks(run.At(j), q);
    NotBoundByThen(run.At(j), LinkDrafts());
  }

  lemma {:induction false} NotBoundByThen(log: Events, drafts: seq<Draft>)
    requires Placed(log, 3) && Keyed(log) && drafts == LinkDrafts()
    ensures ChildBound() !in Commit(log, [Batch(MergeTaskBatch(PLAN), drafts)])
  {
    BatchIsAppended(log, 3, MergeTaskBatch(PLAN), drafts);
    assert forall i :: 0 <= i < |log| ==> log[i].seqNo == i + 1;
  }

  // ---------------------------------------------------------------- a pruning asked at another time

  /** The child that never ran. */
  function Unstarted(): TaskUnit {
    TaskUnit(ChildName("b"), TASK, Some(PARENT), 1, "work", TaskState.Ready, map[], map[], [], NOW, NOW, -1)
  }

  function PruningRequested(now: string): PruneRequest {
    PruneRequest(PARENT, 28, [Unstarted()], PruningPolicy("q", 7), true, now)
  }

  /** The ledger does not protect the unit from pruning. */
  ghost predicate Unprotected(log: Events, unitId: string) {
    unitId !in CanonicalUnitIds(log) && unitId !in SettledUnitIds(log)
  }

  lemma {:induction false} UnstartedIsBelow(units: seq<TaskUnit>)
    requires units == [Unstarted()]
    ensures UniqueUnits(units) == Ok(units) && Order.Sort(units, ByUnitId) == units
    ensures Descendants(units, TASK, PARENT, UnitMap(units)) == units
  {
    assert units[..0] == [] && units[1..] == [] && [] + [units[0]] == units;
    assert UnitWithId([], Unstarted().unitId).None?;
    assert Ancestor(UnitMap(units), Unstarted().parentUnitId, 0) == Some(PARENT);
  }

  lemma {:induction false} UnstartedIsCancelled(log: Events, units: seq<TaskUnit>)
    requires Unprotected(log, ChildName("b")) && units == [Unstarted()]
    ensures CandidatesFor(log, TASK, PARENT, units) == Ok(Candidates(units, 0))
  {
    UnstartedIsBelow(units);
    assert units[..0] == [] && [] + [units[0]] == units;
    assert CancellableOf(units, CanonicalUnitIds(log), SettledUnitIds(log)) == units;
  }

  lemma {:induction false} NewPruning(log: Events, q: PruneRequest, parent: TaskUnit, c: Candidates)
    requires CompletedParent(log, q.parentUnitId, q.completionSeq) == Ok(parent) && q.policyDeclared
    requires PolicyRecorded(log, q.policy, parent.taskId, q.parentUnitId)
    requires CandidatesFor(log, parent.taskId, q.parentUnitId, q.candidates) == Ok(c) && c.cancellable != []
    requires ExistingPruning(log, q.parentUnitId, q.completionSeq) == Ok(None)
    ensures PruneWrites(log, q) == Ok([Batch(PruningBatch(q.parentUnitId, q.completionSeq),
                                             PruneDrafts(q, parent.taskId, c))])
  {
  }

  lemma {:induction false} UnstartedIsUnprotected(log: Events)
    requires Placed(log, 13) && KeysFit(log) && OnlyMergePaid(log)
    ensures Unprotected(log, ChildName("b"))
  {
    NamesDiffer();
    forall e | e in log && e.Payload().CanonicalBound? ensures e.Payload().selection.unitId != ChildName("b") {
      var i :| 0 <= i < |log| && log[i] == e;
      assert KeyFits(log[i].draft) && PlacedAt(log[i], i);
    }
    forall e | e in log && e.Payload().ContributionChanged? && e.Payload().contribution.state.Settled?
      ensures e.Payload().contribution.unitId != ChildName("b")
    {
      var i :| 0 <= i < |log| && log[i] == e;
    }
  }

  lemma {:induction false} NothingPrunedYet(log: Events)
    requires Placed(log, 13) && KeysFit(log)
    ensures ExistingPruning(log, PARENT, 28) == Ok(None)
  {
    NewBatch(log, 13, PruningBatch(PARENT, 28));
    NewKey(log, 13, PrunedKey(PARENT, 28));
    forall i | 0 <= i < |log| ensures !IsPruneMarker(log[i], PARENT, 28) { assert KeyFits(log[i].draft); }
    Batches.NothingMatches(log, PruneMarkerTest(PARENT, 28));
  }

  lemma {:induction false} PlanIsFound(log: Events)
    requires Planned(log)
    ensures PolicyRecorded(log, PruningPolicy("q", 7), TASK, PARENT)
  {
    ExpansionSize();
    ExpansionIsShown(ExpansionEvents());
    PlanIsOk();
    assert log[6] == log[4..10][2];
  }

  function PruningDrafts(now: string): seq<Draft> {
    PruneDrafts(PruningRequested(now), TASK, Candidates([Unstarted()], 0))
  }

  lemma {:induction false} PruningIsWritten(log: Events, now: string)
    requires Placed(log, 13) && KeysFit(log) && Planned(log) && ParentCompleted(log) && OnlyMergePaid(log)
    ensures PruneWrites(log, PruningRequested(now)) == Ok([Batch(PruningBatch(PARENT, 28), PruningDrafts(now))])
  {
    UnstartedIsUnprotected(log);
    UnstartedIsCancelled(log, [Unstarted()]);
    NothingPrunedYet(log);
    PlanIsFound(log);
    NewPruning(log, PruningRequested(now), ParentDone(), Candidates([Unstarted()], 0));
  }

  lemma {:induction false} PruningIsAppended(log: Events, now: string)
    requires Placed(log, 13) && Unprotected(log, ChildName("b"))
    ensures var next := Commit(log, [Batch(PruningBatch(PARENT, 28), PruningDrafts(now))]);
      next != log && Unprotected(next, ChildName("b"))
  {
    NamesDiffer();
    var drafts := PruningDrafts(now);
    assert |drafts| == 2 && drafts[0] == CancelDraft(Unstarted(), PruningRequested(now));
    BatchIsAppended(log, 13, PruningBatch(PARENT, 28), drafts);
  }

  /** What is known when the run asks again. */
  lemma {:induction false} PrunesUnstarted(log: Events, now: string)
    requires Stage(13, log) && Keyed(log)
    ensures var q := PruningRequested(now); var next := After(log, PruneWrites(log, q));
      && next != log && CancelledBy(log, q) == [Unstarted()] && Unprotected(next, ChildName("b"))
  {
    PruningIsWritten(log, now);
    UnstartedIsUnprotected(log);
    UnstartedIsCancelled(log, [Unstarted()]);
    PruningIsAppended(log, now);
  }

  lemma {:induction false} AskedTwice(cfg: ProtocolConfig, run: Run, j: nat, q: PruneRequest, again: PruneRequest)
    requires IsRun(cfg, run) && Keyed(run.Start()) && run.StepAt(j) == Prune(q) && run.At(j + 1) != run.At(j)
    requires Spared(CancelledBy(run.At(j), q), CanonicalUnitIds(run.At(j + 1)), SettledUnitIds(run.At(j + 1)))
    requires q.policyDeclared && again == q.(now := again.now) && again.now != q.now
    ensures PruneWrites(run.At(j + 1), q) == Ok([]) && PruneWrites(run.At(j + 1), again).Err?
  {
    PruningAskedAgain(cfg, run, j, j + 1, q, q);
    PruningAskedAgain(cfg, run, j, j + 1, q, again);
  }

  /** Once the parent is completed its unstarted child is pruned, and at once the same pruning is asked for again. */
  lemma {:induction false} PruningAtAnotherTime(cfg: ProtocolConfig, now: string, later: string)
    returns (run: Run, j: nat)
    requires now != later
    ensures IsRun(cfg, run) && run.Start() == [] && run.StepAt(j) == Prune(PruningRequested(now))
    ensures run.At(j + 1) != run.At(j) && PruneWrites(run.At(j + 1), PruningRequested(now)) == Ok([])
    ensures PruneWrites(run.At(j + 1), PruningRequested(later)).Err?
  {
    var q := PruningRequested(now);
    run, j := RunThen(cfg, 13, Prune(q));
    ExecPrune(cfg, run.At(j), q);
    PrunesUnstarted(run.At(j), now);
    AskedTwice(cfg, run, j, q, PruningRequested(later));
  }
}
