/**
 * A run of protocol steps from the empty ledger: a parent is expanded, one of its children becomes canonical, the
 * merge task made from it resolves the parent's output. What each step is given, and what the ledger holds after it
 * (src/tokenshare/protocol_engine.py:411-661, 888-1163; src/tokenshare/core/merge_coordinator.py:74-164).
 */
module Scenario {
  import opened Basics
  import opened Objects
  import Order
  import opened Graphs
  import opened Ledger
  import opened TaskGraphs
  import opened Verification
  import opened Expansion
  import opened Plans
  import opened Merging
  import opened Contributions
  import opened Steps
  import opened Runs

  // ---------------------------------------------------------------- names

  /** Texts that play no part. */
  const ANY := "-"
  const NOW := "2026-01-01T12:00:00Z"
  const TASK := "t"
  const PARENT := "u"
  const PLAN := "p"
  const EXPANSION := "e"
  const DIGEST := "h"
  const RECORD := "m"
  const OUTPUT := "y"
  const EXPECTED := "x"
  const SLOT := "k"

  function EveryChar(): char -> bool { (c: char) => true }

  /** The unit id of a child of the parent. */
  function ChildName(key: string): string { ChildUnitId(EveryChar(), DIGEST, PARENT, key) }

  /** The child whose output the merge takes. */
  function Child(): string { ChildName("a") }

  /** The merge unit of the plan, whose output resolves the parent's. */
  function MergeUnit(): string { MergeUnitId(PLAN) }

  lemma {:induction false} NamesDiffer()
    ensures |PARENT| == 1 && |Child()| == |ChildName("b")| == 10 && |MergeUnit()| == 12
    ensures Child() != ChildName("b")
  {
    assert Sanitize(EveryChar(), "a")[0] == 'a' && Sanitize(EveryChar(), "b")[0] == 'b';
    ChildIdsCollide(EveryChar(), DIGEST, PARENT, "a", "b");
  }

  // ---------------------------------------------------------------- which step writes which key

  /** The step that verifies the output of this unit. */
  function VerifyRank(unitId: string): nat {
    if unitId == PARENT then 0 else if unitId == Child() then 3 else if unitId == MergeUnit() then 6 else 100
  }

  function SettleRank(root: RootCompletion): nat { if root.rootUnitId == MergeUnit() then 11 else 13 }

  function UnitRank(unitId: string): nat {
    if unitId == MergeUnit() then 9 else if unitId == PARENT then 12 else 14
  }

  /** The step of the run that writes events with this key. */
  function Rank(key: Key): nat {
    match key
    case VerificationKey(submissionId, _) => VerifyRank(submissionId)
    case AttemptStateKey(attemptId, _, after, _) => VerifyRank(attemptId) + if after.Canonical? then 1 else 0
    case CanonicalKey(_, unitId) => VerifyRank(unitId) + 1
    case DecisionKey(scope) => if scope == EXPANSION then 2 else 9
    case ProposalKey(_, _) => 2
    case MergePlanKey(_, _, _) => 2
    case TaskExpandedKey(_) => 2
    case RelationKey(_) => 2
    case UnitCreateKey(unitId) => if unitId == MergeUnit() then 5 else 2
    case MergeLinkKey(_) => 5
    case MergeRecordKey(_, _, _) => 8
    case ResolvedKey(_, _) => 8
    case UnitStateKey(unitId, _, _, _) => UnitRank(unitId)
    case ContributionCreateKey(_, _) => 10
    case ContributionSettledKey(_, root) => SettleRank(root)
    case SettlementKey(root) => SettleRank(root)
    case ContributionEligibleKey(_, _) => 12
    case PrunedKey(_, _) => 14
    case _ => 100
  }

  function BatchRank(id: BatchId): nat {
    match id
    case ExpansionBatch(_) => 2
    case MergeTaskBatch(_) => 5
    case MergeResolutionBatch(_) => 8
    case CompletionBatch(_) => 9
    case SettlementBatch(root) => SettleRank(root)
    case ParentCompletionBatch(_, _) => 12
    case PruningBatch(_, _) => 14
    case _ => 100
  }

  /** How many events the first `k` steps write. */
  function Written(k: nat): nat {
    if k <= 2 then 2 * k
    else if k <= 10 then 2 * k + 4
    else if k <= 15 then 2 * k + 3
    else 33
  }

  predicate PlacedAt(e: Event, i: nat) {
    var k := Rank(e.Key());
    Written(k) <= i < Written(k + 1) && (e.tag.Some? ==> BatchRank(e.tag.value.id) == k)
  }

  /** The ledger has the length it has after `k` steps, and every event stands where its key says. */
  ghost predicate Placed(log: Events, k: nat) {
    |log| == Written(k) && forall i :: 0 <= i < |log| ==> PlacedAt(log[i], i)
  }

  lemma {:induction false} NewKey(log: Events, k: nat, key: Key)
    requires Placed(log, k) && Rank(key) >= k
    ensures forall i :: 0 <= i < |log| ==> log[i].Key() != key
    ensures Lookup(log, key).None?
  {
    LookupFinds(log, key);
  }

  lemma {:induction false} NewBatch(log: Events, k: nat, id: BatchId)
    requires Placed(log, k) && BatchRank(id) >= k
    ensures !HasBatch(log, id)
  {
  }

  /** Events of step `k`, as many as it writes, are placed after those of the steps before. */
  lemma {:induction false} NextArePlaced(log: Events, k: nat, more: Events)
    requires Placed(log, k) && Written(k + 1) == Written(k) + |more|
    requires forall i :: 0 <= i < |more| ==>
      Rank(more[i].Key()) == k && (more[i].tag.Some? ==> BatchRank(more[i].tag.value.id) == k)
    ensures Placed(log + more, k + 1)
  {
    forall i | 0 <= i < |log + more| ensures PlacedAt((log + more)[i], i) {
      if i < |log| { assert (log + more)[i] == log[i]; } else { assert (log + more)[i] == more[i - |log|]; }
    }
  }

  lemma {:induction false} OneIsPlaced(log: Events, k: nat, d: Draft)
    requires Placed(log, k) && Rank(d.key) == k && Written(k + 1) == Written(k) + 1
    ensures Commit(log, [One(d)]) == log + [Event(|log| + 1, d, None)]
    ensures Placed(log + [Event(|log| + 1, d, None)], k + 1)
  {
    NewKey(log, k, d.key);
    OneAppend(log, d);
    NextArePlaced(log, k, [Event(|log| + 1, d, None)]);
  }

  function PairEvents(base: nat, d: Draft, e: Draft): Events { [Event(base + 1, d, None), Event(base + 2, e, None)] }

  lemma {:induction false} PairIsAppended(log: Events, d: Draft, e: Draft)
    requires Lookup(log, d.key).None? && Lookup(log, e.key).None? && d.key != e.key
    ensures Commit(log, [One(d), One(e)]) == log + PairEvents(|log|, d, e)
  {
    var mid := log + [Event(|log| + 1, d, None)];
    TwoAppends(log, d, e);
    assert mid[..|mid| - 1] == log;
    OneAppend(mid, e);
    assert mid + [Event(|mid| + 1, e, None)] == log + PairEvents(|log|, d, e);
  }

  lemma {:induction false} PairIsPlaced(log: Events, k: nat, d: Draft, e: Draft)
    requires Placed(log, k) && Rank(d.key) == Rank(e.key) == k && d.key != e.key && Written(k + 1) == Written(k) + 2
    ensures Commit(log, [One(d), One(e)]) == log + PairEvents(|log|, d, e)
    ensures Placed(log + PairEvents(|log|, d, e), k + 1)
  {
    NewKey(log, k, d.key);
    NewKey(log, k, e.key);
    PairIsAppended(log, d, e);
    NextArePlaced(log, k, PairEvents(|log|, d, e));
  }

  lemma {:induction false} BatchIsAppended(log: Events, k: nat, id: BatchId, drafts: seq<Draft>)
    requires Placed(log, k) && BatchRank(id) >= k && drafts != [] && DistinctKeys(drafts)
    requires forall i :: 0 <= i < |drafts| ==> Rank(drafts[i].key) >= k
    ensures Commit(log, [Batch(id, drafts)]) == log + Stamp(|log|, id, drafts)
  {
    forall i | 0 <= i < |drafts| ensures Lookup(log, drafts[i].key).None? { NewKey(log, k, drafts[i].key); }
    NewBatch(log, k, id);
    NewBatchIsAppended(log, id, drafts);
  }

  lemma {:induction false} BatchIsPlaced(log: Events, k: nat, id: BatchId, drafts: seq<Draft>)
    requires Placed(log, k) && BatchRank(id) == k && drafts != [] && DistinctKeys(drafts)
    requires forall i :: 0 <= i < |drafts| ==> Rank(drafts[i].key) == k
    ensures Commit(log, [Batch(id, drafts)]) == log + Stamp(|log|, id, drafts)
    ensures Written(k + 1) == Written(k) + |drafts| ==> Placed(log + Stamp(|log|, id, drafts), k + 1)
  {
    BatchIsAppended(log, k, id, drafts);
    if Written(k + 1) == Written(k) + |drafts| { NextArePlaced(log, k, Stamp(|log|, id, drafts)); }
  }

  // ---------------------------------------------------------------- verifying and binding a unit's output

  function Artifact(): ArtifactRef {
    ArtifactRef("f", CANONICAL_OUTPUT, ANY, "h", 0, ANY, ANY, ANY, map[], map[], NOW, ANY)
  }

  function Outputs(): OutputRefs { map[OUTPUT := Artifact()] }

  /** The attempt, its submission and its report carry the id of their unit. */
  function AttemptIn(unitId: string, state: AttemptState): Attempt {
    Attempt(unitId, TASK, unitId, "l", "c", state, "primary", NOW, None, None, None, None, None, None, None, None,
            None, None, None, None, None, 0, ANY)
  }

  function Layers(): map<VerificationLayer, LayerStatus> {
    map[SchemaCheck := LayerPassed, ArtifactIntegrityCheck := LayerPassed, RequiredOutputCoverageCheck := LayerPassed,
        EvidenceReferenceCheck := LayerPassed, PluginDomainCheck := LayerPassed, AuditCheck := LayerPassed]
  }

  function Report(unitId: string): VerificationReport {
    VerificationReport(unitId, TASK, unitId, unitId, unitId, 1, Outputs(), Outputs(), [OUTPUT], "v", Passed, true,
                       Layers(), NOW)
  }

  function Reported(unitId: string, seqNo: int): Event { Event(seqNo, VerificationDraft(Report(unitId)), None) }

  function VerifiedAttempt(unitId: string): Attempt {
    AttemptIn(unitId, AttemptState.Verified).(finishedAt := Some(NOW))
  }

  lemma {:induction false} LayersPass()
    ensures AllLayersPassed(Layers()) && HasAllLayers(Layers())
  {
    forall layer: VerificationLayer ensures layer in Layers() && Layers()[layer].LayerPassed? {
      match layer
      case SchemaCheck =>
      case ArtifactIntegrityCheck =>
      case RequiredOutputCoverageCheck =>
      case EvidenceReferenceCheck =>
      case PluginDomainCheck =>
      case AuditCheck =>
    }
  }

  lemma {:induction false} VerifyIsWritten(unitId: string)
    ensures VerifyWrites(Report(unitId), AttemptIn(unitId, AttemptState.Submitted), ANY)
      == Ok([One(VerificationDraft(Report(unitId))),
             One(VerifiedDraft(VerifiedAttempt(unitId), Report(unitId), ANY))])
  {
    LayersPass();
    var report, attempt := Report(unitId), AttemptIn(unitId, AttemptState.Submitted);
    assert ValidateReport(report, attempt) == Ok(report);
    assert VerifyAttempt(attempt, report) == Ok(VerifiedAttempt(unitId));
  }

  /** The report on the unit stands at `base`. */
  ghost predicate VerifiedAt(log: Events, unitId: string, base: nat) {
    base < |log| && log[base] == Reported(unitId, base + 1)
  }

  lemma {:induction false} IsVerified(log: Events, k: nat, unitId: string)
    requires Placed(log, k) && VerifyRank(unitId) == k && Written(k + 1) == Written(k) + 2
    ensures var next := After(log, VerifyWrites(Report(unitId), AttemptIn(unitId, AttemptState.Submitted), ANY));
      log <= next && Placed(next, k + 1) && VerifiedAt(next, unitId, |log|)
  {
    VerifyIsWritten(unitId);
    PairIsPlaced(log, k, VerificationDraft(Report(unitId)),
                 VerifiedDraft(VerifiedAttempt(unitId), Report(unitId), ANY));
  }

  function Selection(unitId: string, seqNo: int): CanonicalSelection {
    CanonicalSelection(SelectionId(TASK, unitId), TASK, unitId, unitId, seqNo, unitId, 1, unitId, Outputs(), Outputs(),
                       [unitId], NOW)
  }

  function BindRequested(unitId: string, seqNo: int): BindRequest {
    BindRequest(TASK, unitId, [Reported(unitId, seqNo)], map[unitId := VerifiedAttempt(unitId)], NOW, ANY)
  }

  lemma {:induction false} SelectsReport(unitId: string, seqNo: int)
    ensures SelectFirst([Reported(unitId, seqNo)], TASK, unitId, NOW) == Ok(Selection(unitId, seqNo))
  {
    var presented := [Reported(unitId, seqNo)];
    LayersPass();
    assert Candidate(presented[0], TASK, unitId);
    assert presented[..0] == [];
    assert Verification.Candidates(presented, TASK, unitId) == presented;
    SortedSingle(presented, BySeqNo);
    assert ReportIds(presented) == [unitId];
  }

  lemma {:induction false} SortedSingle<T>(xs: seq<T>, le: (T, T) -> bool)
    requires |xs| == 1
    ensures Order.Sort(xs, le) == xs
  {
    assert xs[1..] == [];
  }

  function CanonicalOne(unitId: string, seqNo: int): Attempt {
    VerifiedAttempt(unitId).(
      state := AttemptState.Canonical,
      metadata := Some(map[] + map["canonical_selection_id" := Str(Selection(unitId, seqNo).selectionId),
                                   "canonical_output_bundle_digest" := Digest(Outputs())]))
  }

  /** The unit's output became canonical at `base`, by an attempt of client "c". */
  ghost predicate BoundAt(log: Events, unitId: string, base: nat) {
    && base + 1 < |log| && log[base] == Event(base + 1, CanonicalDraft(Selection(unitId, base - 1), NOW), None)
    && log[base + 1].Payload().AttemptChanged?
    && log[base + 1].Payload().attempt.attemptId == unitId && log[base + 1].Payload().attempt.clientId == "c"
  }

  lemma {:induction false} NotYetBound(log: Events, k: nat, unitId: string)
    requires Placed(log, k) && KeysFit(log) && VerifyRank(unitId) + 1 == k
    ensures ExistingCanonical(log, TASK, unitId).None?
  {
    NewKey(log, k, CanonicalKey(TASK, unitId));
    ExistingCanonicalFinds(log, TASK, unitId);
    forall e | e in log ensures !IsCanonicalFor(e, TASK, unitId) {
      var i :| 0 <= i < |log| && log[i] == e;
      assert KeyFits(log[i].draft);
    }
  }

  lemma {:induction false} BindIsWritten(log: Events, k: nat, unitId: string, seqNo: int)
    requires Placed(log, k) && KeysFit(log) && VerifyRank(unitId) + 1 == k
    requires seqNo == |log| - 1 && seqNo > 0 && VerifiedAt(log, unitId, seqNo - 1)
    ensures BindWrites(log, BindRequested(unitId, seqNo)) == Ok([One(BindPair(unitId, seqNo).0),
                                                                 One(BindPair(unitId, seqNo).1)])
  {
    SelectsReport(unitId, seqNo);
    NotYetBound(log, k, unitId);
    BecomesCanonical(unitId, seqNo);
    assert AllRecordedIn(log, BindRequested(unitId, seqNo).presented);
  }

  lemma {:induction false} BecomesCanonical(unitId: string, seqNo: int)
    ensures CanonicalAttempt(VerifiedAttempt(unitId), Selection(unitId, seqNo), NOW)
      == Ok(CanonicalOne(unitId, seqNo))
  {
  }

  function BindPair(unitId: string, seqNo: int): (Draft, Draft) {
    var s := Selection(unitId, seqNo);
    (CanonicalDraft(s, NOW), CanonicalAttemptDraft(CanonicalOne(unitId, seqNo), s, ANY, NOW))
  }

  lemma {:induction false} BindPairIs(unitId: string, seqNo: int, k: nat) returns (d: Draft, e: Draft)
    requires VerifyRank(unitId) + 1 == k
    ensures BindPair(unitId, seqNo) == (d, e)
    ensures d == CanonicalDraft(Selection(unitId, seqNo), NOW) && e.payload.AttemptChanged?
      && e.payload.attempt.attemptId == unitId && e.payload.attempt.clientId == "c"
    ensures Rank(d.key) == Rank(e.key) == k && d.key != e.key
  {
    d, e := BindPair(unitId, seqNo).0, BindPair(unitId, seqNo).1;
  }

  lemma {:induction false} PairBinds(log: Events, unitId: string, d: Draft, e: Draft)
    requires |log| > 0 && d == CanonicalDraft(Selection(unitId, |log| - 1), NOW) && e.payload.AttemptChanged?
      && e.payload.attempt.attemptId == unitId && e.payload.attempt.clientId == "c"
    ensures BoundAt(log + PairEvents(|log|, d, e), unitId, |log|)
  {
  }

  lemma {:induction false} IsBound(log: Events, k: nat, unitId: string)
    requires Placed(log, k) && KeysFit(log) && VerifyRank(unitId) + 1 == k && Written(k + 1) == Written(k) + 2
    requires |log| >= 2 && VerifiedAt(log, unitId, |log| - 2)
    ensures var next := After(log, BindWrites(log, BindRequested(unitId, |log| - 1)));
      log <= next && Placed(next, k + 1) && BoundAt(next, unitId, |log|)
  {
    BindIsWritten(log, k, unitId, |log| - 1);
    var d, e := BindPairIs(unitId, |log| - 1, k);
    PairIsPlaced(log, k, d, e);
    PairBinds(log, unitId, d, e);
  }

  lemma {:induction false} FirstSelection(log: Events, id: string, i: nat)
    requires i < |log| && log[i].Payload().CanonicalBound? && log[i].Payload().selection.selectionId == id
    requires forall j :: 0 <= j < i && log[j].Payload().CanonicalBound? ==> log[j].Payload().selection.selectionId != id
    ensures SelectionEvent(log, id) == Some(log[i])
  {
    if i > 0 { FirstSelection(log[1..], id, i - 1); }
  }

  // ---------------------------------------------------------------- expanding the parent

  function Parent(): TaskUnit {
    TaskUnit(PARENT, TASK, None, 0, "work", TaskState.Processing, map[], map[], [], NOW, NOW, -1)
  }

  function LoneGraph(): TaskGraph { TaskGraph(TASK, [PARENT], map[PARENT := Parent()], [], map[], None) }

  lemma {:induction false} LoneGraphIsOk()
    ensures LoneGraph().IsDict() && GraphOk(LoneGraph())
  {
    var g := LoneGraph();
    SuccessorEdges(g.units.Keys, g.relations);
    FinishedIsAcyclic(Successors(g.units.Keys, g.relations), [PARENT]);
  }

  /** The parent's output is merged from the output of child "a". */
  function Plan(): MergePlan {
    MergePlan(PLAN, TASK, PARENT, EXPANSION, [RequiredSlot(SLOT, "a", Child(), OUTPUT, true, BLOCK_MERGE)],
              [OutputMapping(OUTPUT, MERGE_PLAN_OUTPUT, [SLOT])])
  }

  lemma {:induction false} PlanIsOk()
    ensures PlanOk(Plan())
  {
    assert SlotKeys(Plan().requiredSlots)[0] == SLOT;
  }

  function Spec(key: string, output: string): ChildSpec {
    ChildSpec(key, "work", [], [output], {output}, {}, [], 1.0)
  }

  /** Children "a" and "b", each with this output. */
  function Proposed(output: string, edges: seq<DependencyEdge>, slots: seq<MergeSlot>, from: Resolution): Proposal {
    Proposal([Spec("a", output), Spec("b", output)], edges, [ExpectedOutput(OUTPUT, true, from)], slots,
             PROMOTION_GUARDS)
  }

  function MergedProposal(): Proposal {
    Proposed(OUTPUT, [], [MergeSlot(SLOT, "a", OUTPUT, true, BLOCK_MERGE)], FromMergeSlot(Some(SLOT)))
  }

  lemma {:induction false} SpecsAreOk(output: string)
    ensures var specs := [Spec("a", output), Spec("b", output)];
      SpecsOk(specs) && SpecsByKey(specs) == map["a" := specs[0], "b" := specs[1]]
  {
    var specs := [Spec("a", output), Spec("b", output)];
    assert specs[..1] == [specs[0]] && specs[..1][..0] == [];
    assert SpecKeys(specs) == ["a", "b"] && "a" != "b";
    SpecIsOk("a", output);
    SpecIsOk("b", output);
    assert SpecsByKey(specs[..1]) == map["a" := specs[0]];
  }

  lemma {:induction false} SpecIsOk(key: string, output: string)
    requires key != ""
    ensures SpecOk(Spec(key, output))
  {
  }

  lemma {:induction false} MergedProposalIsOk()
    ensures ProposalOk(MergedProposal())
  {
    SpecsAreOk(OUTPUT);
    var p := MergedProposal();
    var byKey := SpecsByKey(p.childSpecs);
    ArrowEdges(byKey.Keys, EdgeArrows(p.edges));
    FinishedIsAcyclic(ChildGraph(byKey.Keys, p.edges), ["b", "a"]);
    assert SlotIds(p.mergeSlots)[0] == SLOT;
  }

  function Decided(): ExpansionDecision {
    ExpansionDecision(EXPANSION, TASK, PARENT, SelectionId(TASK, PARENT), Outputs(), EXPANSION, Expand, NOW)
  }

  function ExpandRequested(p: Proposal): ExpandRequest {
    ExpandRequest(Decided(), Parent(), LoneGraph(), p, ANY, DIGEST, Plan(), EveryChar(), {"work"}, [OUTPUT], None,
                  true)
  }

  function Expanded(p: Proposal): Expanding { ExpandingOf(ExpandRequested(p), Selection(PARENT, 1)) }

  lemma {:induction false} ParentIsSelected(log: Events)
    requires Placed(log, 2) && KeysFit(log) && BoundAt(log, PARENT, 2)
    ensures DecisionSelection(log, Decided()) == Ok(Selection(PARENT, 1))
  {
    forall j | 0 <= j < 2 ensures !log[j].Payload().CanonicalBound? { assert KeyFits(log[j].draft); }
    FirstSelection(log, SelectionId(TASK, PARENT), 2);
  }

  lemma {:induction false} ChildrenAreBuilt(p: Proposal, output: string) returns (children: seq<TaskUnit>)
    requires p.childSpecs == [Spec("a", output), Spec("b", output)]
    ensures ChildUnits(Expanded(p), p.childSpecs) == Ok(children)
    ensures UnitIds(children) == [Child(), ChildName("b")]
  {
    var x, specs := Expanded(p), p.childSpecs;
    assert specs[..1] == [specs[0]] && specs[..1][..0] == [];
    assert ChildUnits(x, specs[..1]).Ok?;
    children := ChildUnits(x, specs).value;
    ChildUnitAt(x, specs, 0);
    ChildUnitAt(x, specs, 1);
  }

  lemma {:induction false} ExpandPasses(log: Events, q: ExpandRequest, s: CanonicalSelection, children: seq<TaskUnit>)
    requires q.graph.IsDict() && GraphOk(q.graph) && ProposalOk(q.proposal) && PlanOk(q.plan)
    requires q.decision.action.Expand? && DecisionMatches(q.decision, q.parent)
    requires DecisionSelection(log, q.decision) == Ok(s) && Current(q.graph, q.parent)
    requires q.documentsOk && UnitTypesAllowed(q.proposal, q.allowedUnitTypes)
    requires CheckLimits(q.proposal, q.graph.config, q.parent.depth, |q.graph.units|, q.parentOutputs,
                         q.strategyChildren).Ok?
    requires ChildUnits(ExpandingOf(q, s), q.proposal.childSpecs) == Ok(children)
    requires SlotsNameChildren(q.plan, ExpandingOf(q, s))
    ensures ExpandWrites(log, q)
      == Ok([Batch(ExpansionBatch(q.decision.decisionId), ExpandDrafts(q, ExpandingOf(q, s), children))])
  {
  }

  lemma {:induction false} ProposedPasses(p: Proposal, output: string)
    requires p.childSpecs == [Spec("a", output), Spec("b", output)]
    requires |p.expectedOutputs| == 1 && p.expectedOutputs[0].outputName == OUTPUT && p.expectedOutputs[0].required
    ensures CheckLimits(p, None, 0, 1, [OUTPUT], None).Ok? && UnitTypesAllowed(p, {"work"})
    ensures SlotsNameChildren(Plan(), Expanded(p))
  {
    assert p.expectedOutputs[0] in p.expectedOutputs && SpecKeys(p.childSpecs)[0] == "a";
  }

  lemma {:induction false} ExpandIsWritten(log: Events, p: Proposal, output: string) returns (children: seq<TaskUnit>)
    requires Placed(log, 2) && KeysFit(log) && BoundAt(log, PARENT, 2) && ProposalOk(p)
    requires p.childSpecs == [Spec("a", output), Spec("b", output)]
    requires |p.expectedOutputs| == 1 && p.expectedOutputs[0].outputName == OUTPUT && p.expectedOutputs[0].required
    ensures ChildUnits(Expanded(p), p.childSpecs) == Ok(children)
    ensures UnitIds(children) == [Child(), ChildName("b")]
    ensures ExpandWrites(log, ExpandRequested(p))
      == Ok([Batch(ExpansionBatch(EXPANSION), ExpandDrafts(ExpandRequested(p), Expanded(p), children))])
  {
    LoneGraphIsOk();
    PlanIsOk();
    ParentIsSelected(log);
    ProposedPasses(p, output);
    children := ChildrenAreBuilt(p, output);
    ExpandPasses(log, ExpandRequested(p), Selection(PARENT, 1), children);
  }

  lemma {:induction false} ExpandKeys(q: ExpandRequest, x: Expanding, children: seq<TaskUnit>)
    requires q.decision.scope == EXPANSION && |x.proposal.edges| <= 1
    requires |children| == 2 && children[0].unitId != children[1].unitId
    requires children[0].unitId != MergeUnit() && children[1].unitId != MergeUnit()
    ensures var drafts := ExpandDrafts(q, x, children);
      && DistinctKeys(drafts) && |drafts| == 6 + |x.proposal.edges|
      && forall i :: 0 <= i < |drafts| ==> Rank(drafts[i].key) == 2
  {
    ExpandKeyAt(q, x, children);
    LaidOutKeys(ExpandDrafts(q, x, children), children[0].unitId, children[1].unitId);
  }

  lemma {:induction false} LaidOutKeys(drafts: seq<Draft>, a: string, b: string)
    requires a != b && 6 <= |drafts| <= 7 && LaidOut(drafts, a, b) && a != MergeUnit() && b != MergeUnit()
    requires drafts[1].key == DecisionKey(EXPANSION)
    ensures DistinctKeys(drafts) && forall i :: 0 <= i < |drafts| ==> Rank(drafts[i].key) == 2
  {
  }

  /** The keys of an expansion of two children and at most one edge, in order. */
  ghost predicate LaidOut(drafts: seq<Draft>, a: string, b: string)
    requires 6 <= |drafts| <= 7
  {
    && drafts[0].key.ProposalKey? && drafts[1].key.DecisionKey? && drafts[2].key.MergePlanKey?
    && drafts[3].key == UnitCreateKey(a) && drafts[4].key == UnitCreateKey(b)
    && (|drafts| == 7 ==> drafts[5].key.RelationKey?) && drafts[|drafts| - 1].key.TaskExpandedKey?
  }

  lemma {:induction false} ExpandKeyAt(q: ExpandRequest, x: Expanding, children: seq<TaskUnit>)
    requires |x.proposal.edges| <= 1 && |children| == 2
    ensures var drafts := ExpandDrafts(q, x, children);
      && |drafts| == 6 + |x.proposal.edges| && LaidOut(drafts, children[0].unitId, children[1].unitId)
      && drafts[1].key == DecisionKey(q.decision.scope)
  {
  }

  function Children(p: Proposal): seq<TaskUnit> {
    match ChildUnits(Expanded(p), p.childSpecs)
    case Ok(children) => children
    case Err(_) => []
  }

  /** The expansion batch as the ledger holds it. */
  ghost function ExpansionEvents(): Events {
    var p := MergedProposal();
    Stamp(4, ExpansionBatch(EXPANSION), ExpandDrafts(ExpandRequested(p), Expanded(p), Children(p)))
  }

  ghost predicate Planned(log: Events) {
    |log| >= 10 && log[4..10] == ExpansionEvents()
  }

  lemma {:induction false} ExpandIsPlaced(log: Events, q: ExpandRequest, x: Expanding, children: seq<TaskUnit>)
    requires Placed(log, 2) && q.decision.scope == EXPANSION && |x.proposal.edges| <= 1
    requires UnitIds(children) == [Child(), ChildName("b")]
    ensures var drafts := ExpandDrafts(q, x, children); var id := ExpansionBatch(q.decision.decisionId);
      && Commit(log, [Batch(id, drafts)]) == log + Stamp(|log|, id, drafts) && drafts != []
      && (x.proposal.edges == [] ==> Placed(log + Stamp(|log|, id, drafts), 3) && |drafts| == 6)
  {
    NamesDiffer();
    assert children[0].unitId == UnitIds(children)[0] && children[1].unitId == UnitIds(children)[1];
    ExpandKeys(q, x, children);
    BatchIsPlaced(log, 2, ExpansionBatch(q.decision.decisionId), ExpandDrafts(q, x, children));
  }

  lemma {:induction false} ExpansionIsPlanned(log: Events, children: seq<TaskUnit>)
    requires |log| == 4 && |children| == 2
    requires ChildUnits(Expanded(MergedProposal()), MergedProposal().childSpecs) == Ok(children)
    ensures var p := MergedProposal();
      Planned(log + Stamp(4, ExpansionBatch(EXPANSION), ExpandDrafts(ExpandRequested(p), Expanded(p), children)))
  {
    var p := MergedProposal();
    var more := Stamp(4, ExpansionBatch(EXPANSION), ExpandDrafts(ExpandRequested(p), Expanded(p), children));
    assert (log + more)[4..10] == more;
  }

  lemma {:induction false} IsExpanded(log: Events)
    requires Placed(log, 2) && KeysFit(log) && BoundAt(log, PARENT, 2)
    ensures var next := After(log, ExpandWrites(log, ExpandRequested(MergedProposal())));
      log <= next && Placed(next, 3) && Planned(next)
  {
    var p := MergedProposal();
    MergedProposalIsOk();
    var children := ExpandIsWritten(log, p, OUTPUT);
    assert |UnitIds(children)| == 2;
    ExpandIsPlaced(log, ExpandRequested(p), Expanded(p), children);
    ExpansionIsPlanned(log, children);
  }

  // ---------------------------------------------------------------- the merge task

  lemma {:induction false} ExpansionIsShown(events: Events)
    requires events == ExpansionEvents() && |events| == 6
    ensures events[2].Payload() == MergePlanRecorded(Plan())
    ensures ExpansionVisible(ViewOf(map[ExpansionBatch(EXPANSION) := BatchView(events, true)], events[2]))
  {
  }

  lemma {:induction false} ExpansionSize()
    ensures |ExpansionEvents()| == 6
  {
    var p := MergedProposal();
    var children := ChildrenAreBuilt(p, OUTPUT);
    assert |UnitIds(children)| == |children|;
  }

  /** The child's output as the ledger bound it. */
  function ChildBound(): Event { Event(13, CanonicalDraft(Selection(Child(), 11), NOW), None) }

  /** The plan event, its batch and the canonical event are the ledger's own. */
  ghost function MergeTaskRequested(): MergeTaskRequest
    requires |ExpansionEvents()| == 6
  {
    MergeTaskRequest(ExpansionEvents()[2], map[ExpansionBatch(EXPANSION) := BatchView(ExpansionEvents(), true)],
                     [ChildBound()], None, LoneGraph(), Artifact(), NOW)
  }

  /** The engine's own loop over plan events issues this request. */
  lemma {:induction false} MergeTaskIsIssued() returns (inputs: MergeTaskInputs)
    ensures |ExpansionEvents()| == 6
    ensures MergeTaskSteps(inputs, [ExpansionEvents()[2]]) == [CreateMergeTask(MergeTaskRequested())]
  {
    ExpansionSize();
    ExpansionIsShown(ExpansionEvents());
    inputs := MergeTaskInputs(map[ExpansionBatch(EXPANSION) := BatchView(ExpansionEvents(), true)], [ChildBound()],
                              None, LoneGraph(), (planId: string) => Artifact(), NOW);
    assert [ExpansionEvents()[2]][..0] == [];
  }

  /** What one canonical event gives the one slot of a plan. */
  function OneBinding(slot: RequiredSlot, e: Event): SlotBinding
    requires SlotReady(slot, map[slot.childUnitId := e])
  {
    BindingOf(slot, map[slot.childUnitId := e])
  }

  /** A plan of one slot, and the canonical event of its child. */
  lemma {:induction false} OneSlotMerges(log: Events, q: MergeTaskRequest, plan: MergePlan, slot: RequiredSlot,
                                         e: Event)
    requires q.selected.None? && q.planEvent.Payload() == MergePlanRecorded(plan) && PlanOk(plan)
    requires ExpansionVisible(ViewOf(q.views, q.planEvent)) && plan.parentUnitId in q.graph.units
    requires plan.requiredSlots == [slot] && q.canonicalEvents == [e] && e.Payload().CanonicalBound?
      && e.Payload().selection.unitId == slot.childUnitId && SlotReady(slot, map[slot.childUnitId := e])
    ensures MergeTaskWrites(log, q)
      == Ok([Batch(MergeTaskBatch(plan.mergePlanId),
                   MergeTaskDrafts(plan, [OneBinding(slot, e)], q.graph.units[plan.parentUnitId].depth, q.bundleRef,
                                   q.now))])
  {
    OneCanonical(q.canonicalEvents, e);
    WantedMembers(plan.requiredSlots, None);
    OneIsListed(slot, e);
    MergePasses(log, q, plan, map[slot.childUnitId := e]);
  }

  lemma {:induction false} OneCanonical(events: Events, e: Event)
    requires events == [e] && e.Payload().CanonicalBound?
    ensures CanonicalByUnit(events) == map[e.Payload().selection.unitId := e]
  {
    assert events[..0] == [] && CanonicalByUnit(events[..0]) == map[];
    assert CanonicalByUnit(events) == map[][e.Payload().selection.unitId := e];
  }

  lemma {:induction false} OneIsListed(slot: RequiredSlot, e: Event)
    requires SlotReady(slot, map[slot.childUnitId := e])
    ensures BindingList([slot], map[slot.childUnitId := e]) == [OneBinding(slot, e)]
  {
    assert [slot][..0] == [];
  }

  /** Without a selection every slot is bound. */
  lemma {:induction false} MergePasses(log: Events, q: MergeTaskRequest, plan: MergePlan, byUnit: map<string, Event>)
    requires q.selected.None? && q.planEvent.Payload() == MergePlanRecorded(plan) && PlanOk(plan)
    requires ExpansionVisible(ViewOf(q.views, q.planEvent)) && plan.parentUnitId in q.graph.units
    requires CanonicalByUnit(q.canonicalEvents) == byUnit
    requires forall s :: s in plan.requiredSlots ==> SlotReady(s, byUnit)
    ensures MergeTaskWrites(log, q)
      == Ok([Batch(MergeTaskBatch(plan.mergePlanId),
                   MergeTaskDrafts(plan, BindingList(plan.requiredSlots, byUnit),
                                   q.graph.units[plan.parentUnitId].depth, q.bundleRef, q.now))])
  {
    WantedMembers(plan.requiredSlots, None);
  }

  function TheBinding(): SlotBinding {
    SlotBinding(SLOT, Child(), OUTPUT, SelectionId(TASK, Child()), 13, Artifact(), Outputs(), Child(), Child())
  }

  function Link(): MergeTaskLink { MergeLinkOf(Plan(), [TheBinding()]) }

  function LinkDrafts(): seq<Draft> { MergeTaskDrafts(Plan(), [TheBinding()], 0, Artifact(), NOW) }

  lemma {:induction false} MergeTaskIsWritten(log: Events)
    ensures |ExpansionEvents()| == 6
    ensures MergeTaskWrites(log, MergeTaskRequested()) == Ok([Batch(MergeTaskBatch(PLAN), LinkDrafts())])
  {
    ExpansionSize();
    ExpansionIsShown(ExpansionEvents());
    PlanIsOk();
    var slot := Plan().requiredSlots[0];
    OneSlotMerges(log, MergeTaskRequested(), Plan(), slot, ChildBound());
    assert OneBinding(slot, ChildBound()) == TheBinding();
  }

  ghost predicate Linked(log: Events) {
    |log| > 15 && log[15].Payload() == MergeTaskLinked(Link())
  }

  lemma {:induction false} LinkIsPlaced(log: Events, drafts: seq<Draft>)
    requires Placed(log, 5) && drafts == LinkDrafts()
    ensures Commit(log, [Batch(MergeTaskBatch(PLAN), drafts)]) == log + Stamp(|log|, MergeTaskBatch(PLAN), drafts)
    ensures Placed(log + Stamp(|log|, MergeTaskBatch(PLAN), drafts), 6)
    ensures Linked(log + Stamp(|log|, MergeTaskBatch(PLAN), drafts))
  {
    BatchIsPlaced(log, 5, MergeTaskBatch(PLAN), drafts);
  }

  lemma {:induction false} IsLinked(log: Events)
    requires Placed(log, 5)
    ensures |ExpansionEvents()| == 6
    ensures var next := After(log, MergeTaskWrites(log, MergeTaskRequested()));
      log <= next && Placed(next, 6) && Linked(next)
  {
    MergeTaskIsWritten(log);
    LinkIsPlaced(log, LinkDrafts());
  }

  // ---------------------------------------------------------------- resolving the parent's output

  function Record(): MergeRecord {
    MergeRecord(RECORD, TASK, PARENT, PLAN, MergeUnit(), Link().linkId, Link().bundle, Link().bindings,
                SelectionId(TASK, MergeUnit()), 19, MergeUnit(), 17, MergeUnit(), 1, MergeUnit(), Outputs(), Outputs(),
                Plan().parentOutputMapping)
  }

  function Resolution(): OutputResolution {
    OutputResolution(TASK, PARENT, EXPECTED, OUTPUT, RECORD, PLAN, MergeUnit(), SelectionId(TASK, MergeUnit()),
                     Artifact(), "h")
  }

  function ResolvePair(): (Draft, Draft) {
    (Draft(MergeRecordKey(PLAN, MergeUnit(), SelectionId(TASK, MergeUnit())), MergeRecorded(Record()), NOW),
     ResolutionDraft(Resolution(), Record(), NOW))
  }

  lemma {:induction false} CanonicalFound(log: Events, record: MergeRecord, i: nat)
    requires KeysUnique(log) && KeysFit(log) && i < |log|
    requires IsMergeCanonical(log[i], record) && log[i].seqNo == record.canonicalSeq
    ensures MergeUnitCanonical(log, record) == Ok(log[i])
  {
    if i > 0 {
      assert KeyFits(log[0].draft) && KeyFits(log[i].draft);
      CanonicalFound(log[1..], record, i - 1);
    }
  }

  lemma {:induction false} LinkFound(log: Events, record: MergeRecord, i: nat)
    requires KeysUnique(log) && KeysFit(log) && i < |log| && log[i].Payload().MergeTaskLinked?
    requires log[i].Payload().link.mergePlanId == record.mergePlanId && log[i].Payload().link.linkId == record.linkId
    ensures LinkOfPlan(log, record) == Ok(log[i].Payload().link)
  {
    if i > 0 {
      assert KeyFits(log[0].draft) && KeyFits(log[i].draft);
      LinkFound(log[1..], record, i - 1);
    }
  }

  lemma {:induction false} NothingResolved(log: Events)
    requires Placed(log, 8) && KeysFit(log)
    ensures !HasTornResolution(log, Record()) && !HasOtherRecord(log, Record())
  {
    NewBatch(log, 8, MergeResolutionBatch(RECORD));
    forall e | e in log ensures !e.Payload().MergeRecorded? && !e.InBatch(MergeResolutionBatch(RECORD)) {
      var i :| 0 <= i < |log| && log[i] == e;
      assert KeyFits(log[i].draft) && PlacedAt(log[i], i);
    }
  }

  lemma {:induction false} RecordFits()
    ensures BundleMatches(Record()) && RecordMatchesLink(Record(), Link())
    ensures RecordMatchesSelection(Record(), Selection(MergeUnit(), 17))
  {
  }

  lemma {:induction false} ResolutionNames()
    ensures ResolvedNames([Resolution()]) == MappedOutputs(Record().mappingDigest)
    ensures ResolutionFits(Resolution(), Record())
  {
    var mapping := Plan().parentOutputMapping;
    assert ResolvedNames([Resolution()]) == {OUTPUT};
    assert mapping[0] in mapping;
    assert MappedOutputs(mapping) == {OUTPUT};
  }

  lemma {:induction false} ResolvePasses(log: Events, record: MergeRecord, rs: seq<OutputResolution>, canonical: Event,
                                         link: MergeTaskLink)
    requires !HasTornResolution(log, record) && !HasOtherRecord(log, record)
    requires MergeUnitCanonical(log, record) == Ok(canonical) && canonical.Payload().CanonicalBound?
    requires LinkOfPlan(log, record) == Ok(link) && BundleMatches(record) && RecordMatchesLink(record, link)
    requires RecordMatchesSelection(record, canonical.Payload().selection)
    requires |rs| == 1 && ResolutionFits(rs[0], record) && ResolvedNames(rs) == MappedOutputs(record.mappingDigest)
    ensures ResolveWrites(log, record, rs, NOW)
      == Ok([Batch(MergeResolutionBatch(record.recordId), ResolutionDrafts(record, rs, NOW))])
  {
  }

  lemma {:induction false} ResolveIsWritten(log: Events)
    requires Placed(log, 8) && Keyed(log) && Linked(log) && BoundAt(log, MergeUnit(), 18)
    ensures ResolveWrites(log, Record(), [Resolution()], NOW)
      == Ok([Batch(MergeResolutionBatch(RECORD), [ResolvePair().0, ResolvePair().1])])
  {
    NothingResolved(log);
    CanonicalFound(log, Record(), 18);
    LinkFound(log, Record(), 15);
    RecordFits();
    ResolutionNames();
    ResolvePasses(log, Record(), [Resolution()], log[18], Link());
    assert ResolutionDrafts(Record(), [Resolution()], NOW) == [ResolvePair().0, ResolvePair().1];
  }

  function ResolveBatch(): Events {
    [Event(21, ResolvePair().0, Some(BatchTag(MergeResolutionBatch(RECORD), 1, 2))),
     Event(22, ResolvePair().1, Some(BatchTag(MergeResolutionBatch(RECORD), 2, 2)))]
  }

  ghost predicate Resolved(log: Events) {
    |log| > 21 && log[20] == ResolveBatch()[0] && log[21] == ResolveBatch()[1]
  }

  lemma {:induction false} ResolveIsPlaced(log: Events, d: Draft, e: Draft)
    requires Placed(log, 8) && (d, e) == ResolvePair()
    ensures Commit(log, [Batch(MergeResolutionBatch(RECORD), [d, e])])
      == log + Stamp(20, MergeResolutionBatch(RECORD), [d, e])
    ensures Placed(log + Stamp(20, MergeResolutionBatch(RECORD), [d, e]), 9)
    ensures Resolved(log + Stamp(20, MergeResolutionBatch(RECORD), [d, e]))
  {
    BatchIsPlaced(log, 8, MergeResolutionBatch(RECORD), [d, e]);
  }

  lemma {:induction false} IsResolved(log: Events)
    requires Placed(log, 8) && Keyed(log) && Linked(log) && BoundAt(log, MergeUnit(), 18)
    ensures var next := After(log, ResolveWrites(log, Record(), [Resolution()], NOW));
      log <= next && Placed(next, 9) && Resolved(next)
  {
    ResolveIsWritten(log);
    ResolveIsPlaced(log, ResolvePair().0, ResolvePair().1);
  }
}
