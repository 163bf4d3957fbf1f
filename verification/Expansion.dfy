/**
 * Decomposition proposals (src/tokenshare/core/expansion.py) and the child graph the engine builds
 * from an accepted one (src/tokenshare/protocol_engine.py:1106-1114, 3094-3209, 4770-4795).
 */
module Expansion {
  import opened Basics
  import opened Objects
  import opened Graphs
  import opened TaskGraphs

  datatype InputBinding =
    | ParentOutput(outputName: string)
    | ArtifactInput(artifact: Option<ArtifactRef>)
    | ConstantInput
    | DependencyOutput
    | ChildOutput
    | UnknownBinding

  datatype ChildSpec = ChildSpec(
    childKey: string,
    unitType: string,
    inputBindings: seq<(string, InputBinding)>,
    requiredOutputs: seq<string>,
    contractNames: set<string>,
    payloadKeys: set<string>,
    requiredCapabilities: seq<(string, Json)>,
    weight: real)

  datatype DependencyEdge = DependencyEdge(
    edgeKey: string,
    relationType: string,
    sourceKey: string,
    targetKey: string,
    sourceOutput: string,
    targetInput: string)

  datatype MergeSlot = MergeSlot(
    slotId: string,
    childKey: string,
    childOutput: string,
    required: bool,
    missingPolicy: string)

  /** Where an expected output is to come from; None is a missing field. */
  datatype Resolution =
    | FromParent
    | FromChild(childKey: Option<string>, childOutput: Option<string>)
    | FromMergeSlot(slotId: Option<string>)
    | FromElsewhere

  datatype ExpectedOutput = ExpectedOutput(outputName: string, required: bool, resolution: Resolution)

  datatype Proposal = Proposal(
    childSpecs: seq<ChildSpec>,
    edges: seq<DependencyEdge>,
    expectedOutputs: seq<ExpectedOutput>,
    mergeSlots: seq<MergeSlot>,
    guardsPassed: set<string>)

  const AUTHORITATIVE_KEYS: set<string> := {
    "state", "initial_state", "desired_state", "task_state", "attempt_state", "resolution_status",
    "canonical_output_refs", "canonical_outputs_by_unit_id", "canonical_selection_id",
    "canonical_output_bundle_digest", "expected_output_refs", "merge_readiness"
  }

  const PROMOTION_GUARDS: set<string> := {
    "typed_io_checked", "independently_schedulable_checked", "validator_policy_checked", "output_contract_checked",
    "no_freeform_thought_checked", "max_depth_checked", "max_children_checked"
  }

  // ---------------------------------------------------------------- child specs

  predicate SpecOk(spec: ChildSpec) {
    && |spec.childKey| > 0
    && |spec.requiredOutputs| > 0
    && (forall name :: name in spec.requiredOutputs ==> name in spec.contractNames)
    && spec.payloadKeys !! AUTHORITATIVE_KEYS
    && spec.weight > 0.0
  }

  function SpecKeys(specs: seq<ChildSpec>): seq<string> {
    seq(|specs|, i requires 0 <= i < |specs| => specs[i].childKey)
  }

  ghost predicate SpecsOk(specs: seq<ChildSpec>) {
    (forall i :: 0 <= i < |specs| ==> SpecOk(specs[i])) && Distinct(SpecKeys(specs))
  }

  function SpecsByKey(specs: seq<ChildSpec>): map<string, ChildSpec> {
    if specs == [] then map[]
    else
      var last := specs[|specs| - 1];
      SpecsByKey(specs[..|specs| - 1])[last.childKey := last]
  }

  lemma {:induction false} SpecKeysGrow(specs: seq<ChildSpec>, n: nat)
    requires n < |specs|
    ensures SpecKeys(specs[..n + 1]) == SpecKeys(specs[..n]) + [specs[n].childKey]
    ensures Distinct(SpecKeys(specs)) ==> Distinct(SpecKeys(specs[..n])) && specs[n].childKey !in SpecKeys(specs[..n])
  {
    if Distinct(SpecKeys(specs)) {
      forall i | 0 <= i < n ensures SpecKeys(specs[..n])[i] != specs[n].childKey {
        assert SpecKeys(specs)[i] != SpecKeys(specs)[n];
      }
      forall i, j | 0 <= i < j < n ensures SpecKeys(specs[..n])[i] != SpecKeys(specs[..n])[j] {
        assert SpecKeys(specs)[i] != SpecKeys(specs)[j];
      }
    }
  }

  lemma {:induction false} SpecsByKeyFinds(specs: seq<ChildSpec>)
    requires Distinct(SpecKeys(specs))
    ensures SpecsByKey(specs).Keys == Elements(SpecKeys(specs))
    ensures forall s :: s in specs ==> s.childKey in SpecsByKey(specs) && SpecsByKey(specs)[s.childKey] == s
  {
    if specs != [] {
      var n := |specs| - 1;
      SpecKeysGrow(specs, n);
      assert specs[..n + 1] == specs;
      SpecsByKeyFinds(specs[..n]);
      forall s | s in specs ensures s.childKey in SpecsByKey(specs) && SpecsByKey(specs)[s.childKey] == s {
        if s != specs[n] {
          var i :| 0 <= i < |specs| && specs[i] == s;
          assert specs[..n][i] == s && SpecKeys(specs[..n])[i] == s.childKey;
        }
      }
    }
  }

  method ValidateChildSpecs(specs: seq<ChildSpec>) returns (r: Result<map<string, ChildSpec>>)
    ensures r.Ok? <==> SpecsOk(specs)
    ensures r.Ok? ==> r.value == SpecsByKey(specs)
  {
    var byKey: map<string, ChildSpec> := map[];
    for i := 0 to |specs|
      invariant forall j :: 0 <= j < i ==> SpecOk(specs[j])
      invariant Distinct(SpecKeys(specs[..i]))
      invariant byKey == SpecsByKey(specs[..i]) && byKey.Keys == Elements(SpecKeys(specs[..i]))
    {
      var spec := specs[i];
      assert SpecKeys(specs[..i + 1]) == SpecKeys(specs[..i]) + [spec.childKey];
      assert specs[..i + 1][..i] == specs[..i];
      if spec.childKey in byKey {
        RepeatedKey(specs, i);
        return Err(DuplicateChildKey);
      }
      if !SpecOk(spec) { return Err(MalformedChildSpec); }
      byKey := byKey[spec.childKey := spec];
    }
    assert specs[..|specs|] == specs;
    r := Ok(byKey);
  }

  lemma {:induction false} RepeatedKey(specs: seq<ChildSpec>, i: nat)
    requires i < |specs| && specs[i].childKey in SpecKeys(specs[..i])
    ensures !SpecsOk(specs)
  {
    var j :| 0 <= j < i && SpecKeys(specs[..i])[j] == specs[i].childKey;
    assert SpecKeys(specs)[j] == SpecKeys(specs)[i];
  }

  // ---------------------------------------------------------------- dependency edges

  function EdgeKeys(edges: seq<DependencyEdge>): seq<string> {
    seq(|edges|, i requires 0 <= i < |edges| => edges[i].edgeKey)
  }

  function EdgeTargets(edges: seq<DependencyEdge>): seq<(string, string)> {
    seq(|edges|, i requires 0 <= i < |edges| => (edges[i].targetKey, edges[i].targetInput))
  }

  function EdgeArrows(edges: seq<DependencyEdge>): seq<(string, string)> {
    seq(|edges|, i requires 0 <= i < |edges| => (edges[i].sourceKey, edges[i].targetKey))
  }

  function ChildGraph(keys: set<string>, edges: seq<DependencyEdge>): Adjacency<string> {
    FromArrows(keys, EdgeArrows(edges))
  }

  /** The inputs the child's own bindings already feed. */
  predicate BoundByChild(byKey: map<string, ChildSpec>, target: (string, string)) {
    target.0 in byKey && exists b :: b in byKey[target.0].inputBindings && b.0 == target.1
  }

  predicate EdgeOk(edge: DependencyEdge, byKey: map<string, ChildSpec>) {
    && |edge.edgeKey| > 0
    && edge.relationType == DEPENDS_ON_OUTPUT
    && edge.sourceKey in byKey && edge.targetKey in byKey
    && edge.sourceOutput in byKey[edge.sourceKey].requiredOutputs
    && |edge.targetInput| > 0
    && !BoundByChild(byKey, (edge.targetKey, edge.targetInput))
  }

  /** Checked edges, pairwise distinct in keys and in targets. */
  ghost predicate EdgesSeparate(edges: seq<DependencyEdge>, byKey: map<string, ChildSpec>) {
    && (forall i :: 0 <= i < |edges| ==> EdgeOk(edges[i], byKey))
    && Distinct(EdgeKeys(edges)) && Distinct(EdgeTargets(edges))
  }

  ghost predicate EdgesOk(edges: seq<DependencyEdge>, byKey: map<string, ChildSpec>) {
    EdgesSeparate(edges, byKey) && Acyclic(ChildGraph(byKey.Keys, edges))
  }

  lemma {:induction false} EdgesGrow(edges: seq<DependencyEdge>, n: nat)
    requires n < |edges|
    ensures EdgeKeys(edges[..n + 1]) == EdgeKeys(edges[..n]) + [edges[n].edgeKey]
    ensures EdgeTargets(edges[..n + 1]) == EdgeTargets(edges[..n]) + [(edges[n].targetKey, edges[n].targetInput)]
    ensures EdgeArrows(edges[..n + 1]) == EdgeArrows(edges[..n]) + [(edges[n].sourceKey, edges[n].targetKey)]
  {
  }

  predicate NewEdge(edge: DependencyEdge, seenKeys: set<string>, seenTargets: set<(string, string)>) {
    edge.edgeKey !in seenKeys && (edge.targetKey, edge.targetInput) !in seenTargets
  }

  lemma {:induction false} EdgesSeparateGrow(edges: seq<DependencyEdge>, byKey: map<string, ChildSpec>, n: nat)
    requires n < |edges|
    ensures EdgesSeparate(edges[..n + 1], byKey) <==>
      && EdgesSeparate(edges[..n], byKey) && EdgeOk(edges[n], byKey)
      && NewEdge(edges[n], Elements(EdgeKeys(edges[..n])), Elements(EdgeTargets(edges[..n])))
  {
    EdgesGrow(edges, n);
    OneMore(EdgeKeys(edges[..n]), edges[n].edgeKey);
    OneMore(EdgeTargets(edges[..n]), (edges[n].targetKey, edges[n].targetInput));
    var longer := edges[..n + 1];
    assert longer[n] == edges[n];
    assert forall i :: 0 <= i < n ==> longer[i] == edges[..n][i];
  }

  lemma {:induction false} EdgesSeparatePrefix(edges: seq<DependencyEdge>, byKey: map<string, ChildSpec>, n: nat)
    requires n <= |edges| && EdgesSeparate(edges, byKey)
    ensures EdgesSeparate(edges[..n], byKey)
    decreases |edges| - n
  {
    if n == |edges| {
      assert edges[..n] == edges;
    } else {
      EdgesSeparatePrefix(edges, byKey, n + 1);
      EdgesSeparateGrow(edges, byKey, n);
    }
  }

  lemma {:induction false} OutEdgesGrow(keys: set<string>, edges: seq<DependencyEdge>, n: nat, out: Adjacency<string>)
    requires n < |edges| && out == ChildGraph(keys, edges[..n]) && edges[n].sourceKey in keys
    ensures out[edges[n].sourceKey := out[edges[n].sourceKey] + [edges[n].targetKey]]
      == ChildGraph(keys, edges[..n + 1])
  {
    EdgesGrow(edges, n);
    var arrows := EdgeArrows(edges[..n + 1]);
    assert arrows[..|arrows| - 1] == EdgeArrows(edges[..n]);
  }

  /** The edge loop: each edge is checked and filed under its source. */
  method CollectChildEdges(edges: seq<DependencyEdge>, byKey: map<string, ChildSpec>)
    returns (r: Result<Adjacency<string>>)
    ensures r.Ok? <==> EdgesSeparate(edges, byKey)
    ensures r.Ok? ==> r.value == ChildGraph(byKey.Keys, edges)
  {
    var seenKeys: set<string> := {};
    var seenTargets: set<(string, string)> := {};
    var outEdges: Adjacency<string> := map k | k in byKey :: [];
    for i := 0 to |edges|
      invariant EdgesSeparate(edges[..i], byKey)
      invariant seenKeys == Elements(EdgeKeys(edges[..i]))
      invariant seenTargets == Elements(EdgeTargets(edges[..i]))
      invariant outEdges == ChildGraph(byKey.Keys, edges[..i])
    {
      var edge := edges[i];
      EdgesSeparateGrow(edges, byKey, i);
      if !NewEdge(edge, seenKeys, seenTargets) || !EdgeOk(edge, byKey) {
        if EdgesSeparate(edges, byKey) { EdgesSeparatePrefix(edges, byKey, i + 1); }
        return Err(MalformedEdge);
      }
      EdgesGrow(edges, i);
      OneMore(EdgeKeys(edges[..i]), edge.edgeKey);
      OneMore(EdgeTargets(edges[..i]), (edge.targetKey, edge.targetInput));
      OutEdgesGrow(byKey.Keys, edges, i, outEdges);
      seenKeys := seenKeys + {edge.edgeKey};
      seenTargets := seenTargets + {(edge.targetKey, edge.targetInput)};
      outEdges := outEdges[edge.sourceKey := outEdges[edge.sourceKey] + [edge.targetKey]];
    }
    assert edges[..|edges|] == edges;
    r := Ok(outEdges);
  }

  ghost predicate ChildrenOk(p: Proposal) {
    SpecsOk(p.childSpecs) && EdgesOk(p.edges, SpecsByKey(p.childSpecs))
  }

  // ---------------------------------------------------------------- merge slots, expected outputs and guards

  function SlotIds(slots: seq<MergeSlot>): seq<string> {
    seq(|slots|, i requires 0 <= i < |slots| => slots[i].slotId)
  }

  function ExpectedNames(outputs: seq<ExpectedOutput>): seq<string> {
    seq(|outputs|, i requires 0 <= i < |outputs| => outputs[i].outputName)
  }

  predicate Declares(byKey: map<string, ChildSpec>, key: string, output: string) {
    key in byKey && output in byKey[key].requiredOutputs
  }

  predicate MergeSlotOk(slot: MergeSlot, byKey: map<string, ChildSpec>) {
    && |slot.slotId| > 0 && slot.required && slot.missingPolicy == BLOCK_MERGE
    && Declares(byKey, slot.childKey, slot.childOutput)
  }

  predicate MergeSlotsOk(slots: seq<MergeSlot>, byKey: map<string, ChildSpec>) {
    (forall s :: s in slots ==> MergeSlotOk(s, byKey)) && Distinct(SlotIds(slots))
  }

  predicate ExpectedOutputOk(e: ExpectedOutput, byKey: map<string, ChildSpec>, slotIds: set<string>) {
    match e.resolution
    case FromParent => true
    case FromChild(key, output) => key.Some? && output.Some? && Declares(byKey, key.value, output.value)
    case FromMergeSlot(id) => id.Some? && id.value in slotIds
    case FromElsewhere => false
  }

  predicate ExpectedOutputsOk(outputs: seq<ExpectedOutput>, byKey: map<string, ChildSpec>, slotIds: set<string>) {
    && outputs != [] && (forall e :: e in outputs ==> ExpectedOutputOk(e, byKey, slotIds))
    && Distinct(ExpectedNames(outputs))
  }

  method ValidateMergeSlots(slots: seq<MergeSlot>, byKey: map<string, ChildSpec>) returns (r: Result<set<string>>)
    ensures r.Ok? <==> MergeSlotsOk(slots, byKey)
    ensures r.Ok? ==> r.value == Elements(SlotIds(slots))
  {
    var seen: set<string> := {};
    for i := 0 to |slots|
      invariant forall j :: 0 <= j < i ==> MergeSlotOk(slots[j], byKey)
      invariant Distinct(SlotIds(slots)[..i]) && seen == Elements(SlotIds(slots)[..i])
    {
      assert SlotIds(slots)[..i + 1] == SlotIds(slots)[..i] + [slots[i].slotId];
      OneMore(SlotIds(slots)[..i], slots[i].slotId);
      if !MergeSlotOk(slots[i], byKey) || slots[i].slotId in seen {
        assert slots[i] in slots;
        if slots[i].slotId in seen { RepeatInPrefix(SlotIds(slots), i + 1); }
        return Err(MalformedMergeSlot);
      }
      seen := seen + {slots[i].slotId};
    }
    assert SlotIds(slots)[..|slots|] == SlotIds(slots);
    r := Ok(seen);
  }

  method ValidateExpectedOutputs(outputs: seq<ExpectedOutput>, byKey: map<string, ChildSpec>, slotIds: set<string>)
    returns (r: Result<()>)
    ensures r.Ok? <==> ExpectedOutputsOk(outputs, byKey, slotIds)
  {
    if outputs == [] { return Err(MalformedExpectedOutput); }
    var seen: set<string> := {};
    for i := 0 to |outputs|
      invariant forall j :: 0 <= j < i ==> ExpectedOutputOk(outputs[j], byKey, slotIds)
      invariant Distinct(ExpectedNames(outputs)[..i]) && seen == Elements(ExpectedNames(outputs)[..i])
    {
      var name := outputs[i].outputName;
      assert ExpectedNames(outputs)[..i + 1] == ExpectedNames(outputs)[..i] + [name];
      OneMore(ExpectedNames(outputs)[..i], name);
      if name in seen || !ExpectedOutputOk(outputs[i], byKey, slotIds) {
        assert outputs[i] in outputs;
        if name in seen { RepeatInPrefix(ExpectedNames(outputs), i + 1); }
        return Err(MalformedExpectedOutput);
      }
      seen := seen + {name};
    }
    assert ExpectedNames(outputs)[..|outputs|] == ExpectedNames(outputs);
    r := Ok(());
  }

  ghost predicate ProposalOk(p: Proposal) {
    && ChildrenOk(p) && MergeSlotsOk(p.mergeSlots, SpecsByKey(p.childSpecs))
    && ExpectedOutputsOk(p.expectedOutputs, SpecsByKey(p.childSpecs), Elements(SlotIds(p.mergeSlots)))
    && PROMOTION_GUARDS <= p.guardsPassed
  }

  /** `DecompositionProposal.__post_init__`, validator by validator, cycle search included. */
  method ValidateProposal(p: Proposal) returns (r: Result<()>)
    ensures r.Ok? <==> ProposalOk(p)
  {
    var byKey :- ValidateChildSpecs(p.childSpecs);
    var outEdges :- CollectChildEdges(p.edges, byKey);
    SpecsByKeyFinds(p.childSpecs);
    EndsAreChildren(p.edges, byKey);
    var acyclic := IsAcyclic(outEdges, SpecKeys(p.childSpecs));
    if !acyclic { return Err(GraphHasCycle); }
    var slotIds :- ValidateMergeSlots(p.mergeSlots, byKey);
    var _ :- ValidateExpectedOutputs(p.expectedOutputs, byKey, slotIds);
    r := if PROMOTION_GUARDS <= p.guardsPassed then Ok(()) else Err(PromotionGuardFailed);
  }

  lemma {:induction false} EndsAreChildren(edges: seq<DependencyEdge>, byKey: map<string, ChildSpec>)
    requires forall i :: 0 <= i < |edges| ==> EdgeOk(edges[i], byKey)
    ensures Closed(ChildGraph(byKey.Keys, edges))
  {
    ArrowEdges(byKey.Keys, EdgeArrows(edges));
  }

  // ---------------------------------------------------------------- limits

  /** Depth, child and unit limits of a graph, defaults included. */
  function Limits(config: Option<ProtocolConfig>): (int, int, int) {
    if config.Some? then (config.value.maxDepth, config.value.maxChildrenPerUnit, config.value.maxTotalUnits)
    else (8, 16, 1000)
  }

  function Min(a: int, b: int): int {
    if b < a then b else a
  }

  predicate IsExpected(p: Proposal, name: string) {
    exists e :: e in p.expectedOutputs && e.required && e.outputName == name
  }

  function CheckLimits(p: Proposal, config: Option<ProtocolConfig>, parentDepth: int, unitCount: int,
                       parentOutputs: seq<string>, strategyChildren: Option<int>): Result<()>
  {
    var (maxDepth, maxChildren, maxUnits) := Limits(config);
    var children := |p.childSpecs|;
    :- Check(children <= if strategyChildren.Some? then Min(maxChildren, strategyChildren.value) else maxChildren,
             TooManyChildren);
    :- Check(parentDepth + 1 <= maxDepth, TooDeep);
    :- Check(unitCount + children <= maxUnits, TooManyUnits);
    :- Check(forall name :: name in parentOutputs ==> IsExpected(p, name),
             OutputsNotCovered);
    Ok(())
  }

  // ---------------------------------------------------------------- unit ids

  function Sanitize(alnum: char -> bool, text: string): string {
    seq(|text|, i requires 0 <= i < |text| => if alnum(text[i]) || text[i] == '_' then text[i] else '_')
  }

  function WithoutDigestPrefix(digest: string): string {
    if "sha256:" <= digest then digest[7..] else digest
  }

  function ChildUnitId(alnum: char -> bool, digest: string, parentId: string, key: string): string {
    "unit_" + Sanitize(alnum, parentId) + "_" + Sanitize(alnum, WithoutDigestPrefix(digest)) + "_"
      + Sanitize(alnum, key)
  }

  function RelationId(alnum: char -> bool, digest: string, edge: DependencyEdge): string {
    "relation_" + Sanitize(alnum, WithoutDigestPrefix(digest)) + "_" + Sanitize(alnum, edge.sourceKey) + "_"
    + Sanitize(alnum, edge.targetKey) + "_" + Sanitize(alnum, edge.sourceOutput) + "_"
      + Sanitize(alnum, edge.targetInput)
  }

  /** Two children of one expansion share a unit id exactly when sanitizing makes their keys equal. */
  lemma {:induction false} ChildIdsCollide(alnum: char -> bool, digest: string, parentId: string, a: string, b: string)
    ensures ChildUnitId(alnum, digest, parentId, a) == ChildUnitId(alnum, digest, parentId, b)
      <==> Sanitize(alnum, a) == Sanitize(alnum, b)
  {
    var prefix := "unit_" + Sanitize(alnum, parentId) + "_" + Sanitize(alnum, WithoutDigestPrefix(digest)) + "_";
    var x, y := ChildUnitId(alnum, digest, parentId, a), ChildUnitId(alnum, digest, parentId, b);
    assert x[|prefix|..] == Sanitize(alnum, a) && x[..|prefix|] == prefix;
    assert y[|prefix|..] == Sanitize(alnum, b) && y[..|prefix|] == prefix;
  }

  /** Distinct keys do not give distinct ids: "a-b" and "a_b" collide under any parent and proposal. */
  lemma {:induction false} DistinctKeysMayCollide(alnum: char -> bool, digest: string, parentId: string)
    requires !alnum('-')
    ensures "a-b" != "a_b" && ChildUnitId(alnum, digest, parentId, "a-b") == ChildUnitId(alnum, digest, parentId, "a_b")
  {
    var x, y := Sanitize(alnum, "a-b"), Sanitize(alnum, "a_b");
    assert "a-b"[1] == '-' && "a_b"[1] == '_';
    assert x[0] == y[0] && x[1] == y[1] && x[2] == y[2];
    assert x == y;
    ChildIdsCollide(alnum, digest, parentId, "a-b", "a_b");
  }

  // ---------------------------------------------------------------- child units

  /** What an accepted expansion builds its children from. */
  datatype Expanding = Expanding(
    alnum: char -> bool,
    taskId: string,
    parent: TaskUnit,
    proposal: Proposal,
    proposalDigest: string,
    parentOutputs: OutputRefs,
    decidedAt: string)

  function ChildInputRefs(bindings: seq<(string, InputBinding)>, parentOutputs: OutputRefs): Result<OutputRefs> {
    if bindings == [] then Ok(map[])
    else
      var before :- ChildInputRefs(bindings[..|bindings| - 1], parentOutputs);
      var (name, binding) := bindings[|bindings| - 1];
      match binding
      case ParentOutput(output) =>
        if output in parentOutputs then Ok(before[name := parentOutputs[output]])
        else Err(ParentOutputMissing)
      case ArtifactInput(artifact) =>
        if artifact.Some? then Ok(before[name := artifact.value]) else Err(ArtifactRefMissing)
      case UnknownBinding => Err(UnknownBindingKind)
      case _ => Ok(before)
  }

  predicate HasIncoming(p: Proposal, key: string) {
    exists e :: e in p.edges && e.targetKey == key && e.relationType == DEPENDS_ON_OUTPUT
  }

  function BindingsState(bindings: seq<(string, InputBinding)>, parentOutputs: OutputRefs): Result<TaskState> {
    if bindings == [] then Ok(TaskState.Ready)
    else match bindings[0].1
      case ParentOutput(output) =>
        if output in parentOutputs then BindingsState(bindings[1..], parentOutputs)
        else Err(ParentOutputMissing)
      case ArtifactInput(_) => BindingsState(bindings[1..], parentOutputs)
      case ConstantInput => BindingsState(bindings[1..], parentOutputs)
      case _ => Ok(TaskState.Blocked)
  }

  function ChildInitialState(p: Proposal, spec: ChildSpec, parentOutputs: OutputRefs): Result<TaskState> {
    if HasIncoming(p, spec.childKey) then Ok(TaskState.Blocked)
    else BindingsState(spec.inputBindings, parentOutputs)
  }

  function ChildUnit(x: Expanding, spec: ChildSpec): Result<TaskUnit> {
    var inputs :- ChildInputRefs(spec.inputBindings, x.parentOutputs);
    var state :- ChildInitialState(x.proposal, spec, x.parentOutputs);
    Ok(TaskUnit(ChildUnitId(x.alnum, x.proposalDigest, x.parent.unitId, spec.childKey), x.taskId, Some(x.parent.unitId),
                x.parent.depth + 1, spec.unitType, state, inputs, map[], spec.requiredCapabilities, x.decidedAt,
                  x.decidedAt, -1))
  }

  function ChildUnits(x: Expanding, specs: seq<ChildSpec>): (r: Result<seq<TaskUnit>>)
    ensures r.Ok? ==> |r.value| == |specs|
  {
    if specs == [] then Ok([])
    else
      var before :- ChildUnits(x, specs[..|specs| - 1]);
      var unit :- ChildUnit(x, specs[|specs| - 1]);
      Ok(before + [unit])
  }

  lemma {:induction false} ChildUnitAt(x: Expanding, specs: seq<ChildSpec>, i: nat)
    requires ChildUnits(x, specs).Ok? && i < |specs|
    ensures ChildUnit(x, specs[i]) == Ok(ChildUnits(x, specs).value[i])
  {
    if i < |specs| - 1 { ChildUnitAt(x, specs[..|specs| - 1], i); }
  }

  lemma {:induction false} FailedChild(x: Expanding, specs: seq<ChildSpec>, i: nat)
    requires i < |specs| && ChildUnits(x, specs[..i + 1]).Err?
    ensures ChildUnits(x, specs) == ChildUnits(x, specs[..i + 1])
  {
    if i < |specs| - 1 {
      assert specs[..|specs| - 1][..i + 1] == specs[..i + 1];
      FailedChild(x, specs[..|specs| - 1], i);
    } else {
      assert specs[..i + 1] == specs;
    }
  }

  method BuildChildUnits(x: Expanding) returns (r: Result<seq<TaskUnit>>)
    ensures r == ChildUnits(x, x.proposal.childSpecs)
  {
    var specs := x.proposal.childSpecs;
    var units: seq<TaskUnit> := [];
    for i := 0 to |specs|
      invariant ChildUnits(x, specs[..i]) == Ok(units)
    {
      assert specs[..i + 1][..i] == specs[..i];
      var unit := ChildUnit(x, specs[i]);
      if unit.Err? {
        FailedChild(x, specs, i);
        return Err(unit.error);
      }
      units := units + [unit.value];
    }
    assert specs[..|specs|] == specs;
    r := Ok(units);
  }

  function ChildRelation(x: Expanding, edge: DependencyEdge): TaskRelation {
    TaskRelation(RelationId(x.alnum, x.proposalDigest, edge), x.taskId, edge.relationType,
                 ChildUnitId(x.alnum, x.proposalDigest, x.parent.unitId, edge.sourceKey),
                 ChildUnitId(x.alnum, x.proposalDigest, x.parent.unitId, edge.targetKey),
                 Some(edge.sourceOutput), Some(edge.targetInput))
  }

  function ChildRelations(x: Expanding): seq<TaskRelation> {
    seq(|x.proposal.edges|, i requires 0 <= i < |x.proposal.edges| => ChildRelation(x, x.proposal.edges[i]))
  }

  function UnitIds(units: seq<TaskUnit>): seq<string> {
    seq(|units|, i requires 0 <= i < |units| => units[i].unitId)
  }

  function AddUnits(units: map<string, TaskUnit>, added: seq<TaskUnit>): map<string, TaskUnit> {
    if added == [] then units
    else
      var last := added[|added| - 1];
      AddUnits(units, added[..|added| - 1])[last.unitId := last]
  }

  /** The graph the engine builds after the expansion batch is appended. */
  function ExpandedGraph(g: TaskGraph, x: Expanding, children: seq<TaskUnit>): TaskGraph {
    g.(order := g.order + UnitIds(children),
       units := AddUnits(g.units, children),
       relations := g.relations + ChildRelations(x))
  }

  // ---------------------------------------------------------------- expansion keeps the graph valid

  /** What the engine has checked by the time it builds the expanded graph. */
  ghost predicate Expandable(g: TaskGraph, x: Expanding, children: seq<TaskUnit>,
                             parentOutputs: seq<string>, strategyChildren: Option<int>) {
    && g.IsDict() && GraphOk(g) && ProposalOk(x.proposal)
    && x.parent.unitId in g.units && g.units[x.parent.unitId].taskId == x.parent.taskId && x.taskId == x.parent.taskId
    && CheckLimits(x.proposal, g.config, x.parent.depth, |g.units|, parentOutputs, strategyChildren).Ok?
    && ChildUnits(x, x.proposal.childSpecs) == Ok(children)
  }

  /** Child ids are new to the graph and differ from one another. */
  ghost predicate FreshIds(g: TaskGraph, children: seq<TaskUnit>) {
    Distinct(UnitIds(children)) && forall id :: id in UnitIds(children) ==> id !in g.units
  }

  lemma {:induction false} UnitIdsGrow(added: seq<TaskUnit>, n: nat)
    requires n < |added| && Distinct(UnitIds(added))
    ensures UnitIds(added[..n + 1]) == UnitIds(added[..n]) + [added[n].unitId]
    ensures Distinct(UnitIds(added[..n])) && added[n].unitId !in UnitIds(added[..n])
  {
    forall i | 0 <= i < n ensures UnitIds(added[..n])[i] != added[n].unitId {
      assert UnitIds(added)[i] != UnitIds(added)[n];
    }
    forall i, j | 0 <= i < j < n ensures UnitIds(added[..n])[i] != UnitIds(added[..n])[j] {
      assert UnitIds(added)[i] != UnitIds(added)[j];
    }
  }

  lemma {:induction false} AddedKey(units: map<string, TaskUnit>, added: seq<TaskUnit>, id: string)
    ensures id in AddUnits(units, added) <==> id in units || id in UnitIds(added)
  {
    if added != [] {
      var n := |added| - 1;
      AddedKey(units, added[..n], id);
      assert UnitIds(added) == UnitIds(added[..n]) + [added[n].unitId];
    }
  }

  lemma {:induction false} OneMoreKey<V>(m: map<string, V>, key: string, value: V)
    requires key !in m
    ensures |m[key := value]| == |m| + 1
  {
    assert m[key := value].Keys == m.Keys + {key};
    assert |m[key := value].Keys| == |m.Keys| + 1;
  }

  lemma {:induction false} AddedCount(units: map<string, TaskUnit>, added: seq<TaskUnit>)
    requires Distinct(UnitIds(added)) && forall id :: id in UnitIds(added) ==> id !in units
    ensures |AddUnits(units, added)| == |units| + |added|
  {
    if added != [] {
      var n := |added| - 1;
      UnitIdsGrow(added, n);
      assert added[..n + 1] == added;
      AddedCount(units, added[..n]);
      AddedKey(units, added[..n], added[n].unitId);
      OneMoreKey(AddUnits(units, added[..n]), added[n].unitId, added[n]);
    }
  }

  lemma {:induction false} AddedUnit(units: map<string, TaskUnit>, added: seq<TaskUnit>, id: string)
    requires Distinct(UnitIds(added)) && id in AddUnits(units, added)
    ensures id in UnitIds(added) ==>
      exists i :: 0 <= i < |added| && AddUnits(units, added)[id] == added[i] && added[i].unitId == id
    ensures id !in UnitIds(added) ==> id in units && AddUnits(units, added)[id] == units[id]
  {
    if added != [] {
      var n := |added| - 1;
      UnitIdsGrow(added, n);
      assert added[..n + 1] == added;
      if id != added[n].unitId {
        AddedUnit(units, added[..n], id);
        if id in UnitIds(added[..n]) {
          var i :| 0 <= i < n && AddUnits(units, added[..n])[id] == added[..n][i] && added[..n][i].unitId == id;
          assert added[i].unitId == id;
        }
      }
    }
  }

  lemma {:induction false} DistinctAppend(xs: seq<string>, ys: seq<string>)
    requires Distinct(xs) && Distinct(ys) && forall y :: y in ys ==> y !in xs
    ensures Distinct(xs + ys)
  {
    forall i, j | 0 <= i < |xs| && 0 <= j < |ys| ensures xs[i] != ys[j] {
      assert ys[j] in ys;
    }
  }

  lemma {:induction false} ExpandedIsDict(g: TaskGraph, x: Expanding, children: seq<TaskUnit>)
    requires g.IsDict() && FreshIds(g, children)
    ensures ExpandedGraph(g, x, children).IsDict()
  {
    var ids := UnitIds(children);
    assert forall id :: id in g.units <==> id in g.order by {
      assert forall id :: id in Elements(g.order) <==> id in g.order;
    }
    DistinctAppend(g.order, ids);
    forall id ensures id in g.order + ids <==> id in AddUnits(g.units, children) {
      AddedKey(g.units, children, id);
    }
  }

  lemma {:induction false} ChildFits(x: Expanding, children: seq<TaskUnit>, i: nat)
    requires ChildUnits(x, x.proposal.childSpecs) == Ok(children) && i < |children|
    ensures children[i].taskId == x.taskId && children[i].depth == x.parent.depth + 1
  {
    ChildUnitAt(x, x.proposal.childSpecs, i);
  }

  lemma {:induction false} ExpandedUnitOk(g: TaskGraph, x: Expanding, children: seq<TaskUnit>, id: string)
    requires ChildUnits(x, x.proposal.childSpecs) == Ok(children) && Distinct(UnitIds(children))
    requires id in AddUnits(g.units, children)
    ensures var unit := AddUnits(g.units, children)[id];
      || (id in g.units && unit == g.units[id])
      || (unit.unitId == id && unit.taskId == x.taskId && unit.depth == x.parent.depth + 1)
  {
    AddedUnit(g.units, children, id);
    if id in UnitIds(children) {
      var i :| 0 <= i < |children| && AddUnits(g.units, children)[id] == children[i] && children[i].unitId == id;
      ChildFits(x, children, i);
    }
  }

  lemma {:induction false} ExpandedUnitsOk(g: TaskGraph, x: Expanding, children: seq<TaskUnit>,
                        parentOutputs: seq<string>, strategyChildren: Option<int>)
    requires Expandable(g, x, children, parentOutputs, strategyChildren) && FreshIds(g, children)
    ensures UnitsOk(ExpandedGraph(g, x, children))
  {
    var h := ExpandedGraph(g, x, children);
    AddedCount(g.units, children);
    forall id | id in h.units
      ensures h.units[id].unitId == id && h.units[id].taskId == g.taskId
      ensures g.config.Some? ==> h.units[id].depth <= g.config.value.maxDepth
    {
      ExpandedUnitOk(g, x, children, id);
    }
    AddedKey(g.units, children, x.parent.unitId);
  }

  ghost predicate EdgesNamed(p: Proposal) {
    forall e :: e in p.edges ==> |e.sourceOutput| > 0
  }

  /** The children's ids, back to their keys. */
  ghost function KeyOfId(x: Expanding): map<string, string> {
    map id | id in ChildIds(x) :: KeyFor(x, id)
  }

  ghost function ChildIds(x: Expanding): set<string> {
    set k | k in SpecKeys(x.proposal.childSpecs) :: ChildUnitId(x.alnum, x.proposalDigest, x.parent.unitId, k)
  }

  ghost function KeyFor(x: Expanding, id: string): string
    requires id in ChildIds(x)
  {
    var k :| k in SpecKeys(x.proposal.childSpecs) && ChildUnitId(x.alnum, x.proposalDigest, x.parent.unitId, k) == id;
    k
  }

  lemma {:induction false} ChildIdAt(x: Expanding, children: seq<TaskUnit>, i: nat)
    requires ChildUnits(x, x.proposal.childSpecs) == Ok(children) && i < |children|
    ensures UnitIds(children)[i] == ChildUnitId(x.alnum, x.proposalDigest, x.parent.unitId,
                                                SpecKeys(x.proposal.childSpecs)[i])
  {
    ChildUnitAt(x, x.proposal.childSpecs, i);
  }

  lemma {:induction false} IdsAreChildIds(x: Expanding, children: seq<TaskUnit>)
    requires ChildUnits(x, x.proposal.childSpecs) == Ok(children)
    ensures Elements(UnitIds(children)) == ChildIds(x)
  {
    var keys := SpecKeys(x.proposal.childSpecs);
    forall id ensures id in UnitIds(children) <==> id in ChildIds(x) {
      if id in UnitIds(children) {
        var i :| 0 <= i < |children| && UnitIds(children)[i] == id;
        ChildIdAt(x, children, i);
        assert keys[i] in keys;
      }
      if id in ChildIds(x) {
        var k :| k in keys && ChildUnitId(x.alnum, x.proposalDigest, x.parent.unitId, k) == id;
        var i :| 0 <= i < |keys| && keys[i] == k;
        ChildIdAt(x, children, i);
      }
    }
  }

  /** With distinct ids, keys and ids determine each other. */
  lemma {:induction false} KeyOfChildId(x: Expanding, children: seq<TaskUnit>, key: string)
    requires ChildUnits(x, x.proposal.childSpecs) == Ok(children) && Distinct(UnitIds(children))
    requires key in SpecKeys(x.proposal.childSpecs)
    ensures var id := ChildUnitId(x.alnum, x.proposalDigest, x.parent.unitId, key);
            id in ChildIds(x) && KeyFor(x, id) == key
  {
    var keys := SpecKeys(x.proposal.childSpecs);
    var id := ChildUnitId(x.alnum, x.proposalDigest, x.parent.unitId, key);
    assert id in ChildIds(x);
    var k := KeyFor(x, id);
    var i :| 0 <= i < |keys| && keys[i] == key;
    var j :| 0 <= j < |keys| && keys[j] == k;
    ChildIdAt(x, children, i);
    ChildIdAt(x, children, j);
  }

  lemma {:induction false} ChildIdIsAdded(g: TaskGraph, x: Expanding, children: seq<TaskUnit>, key: string)
    requires ChildrenOk(x.proposal) && ChildUnits(x, x.proposal.childSpecs) == Ok(children)
    requires key in SpecsByKey(x.proposal.childSpecs)
    ensures key in SpecKeys(x.proposal.childSpecs)
    ensures ChildUnitId(x.alnum, x.proposalDigest, x.parent.unitId, key) in UnitIds(children)
    ensures ChildUnitId(x.alnum, x.proposalDigest, x.parent.unitId, key) in ExpandedGraph(g, x, children).units
  {
    var keys := SpecKeys(x.proposal.childSpecs);
    SpecsByKeyFinds(x.proposal.childSpecs);
    assert key in Elements(keys);
    var i :| 0 <= i < |keys| && keys[i] == key;
    ChildIdAt(x, children, i);
    AddedKey(g.units, children, UnitIds(children)[i]);
  }

  lemma {:induction false} ChildRelationOk(g: TaskGraph, x: Expanding, children: seq<TaskUnit>, i: nat)
    requires ChildrenOk(x.proposal) && ChildUnits(x, x.proposal.childSpecs) == Ok(children)
    requires i < |x.proposal.edges| && x.taskId == g.taskId
    ensures RelationOk(ChildRelations(x)[i], g.taskId, ExpandedGraph(g, x, children).units.Keys)
      <==> |x.proposal.edges[i].sourceOutput| > 0
  {
    var edge := x.proposal.edges[i];
    assert EdgeOk(edge, SpecsByKey(x.proposal.childSpecs));
    var r := ChildRelations(x)[i];
    assert r == ChildRelation(x, edge);
    ChildIdIsAdded(g, x, children, edge.sourceKey);
    ChildIdIsAdded(g, x, children, edge.targetKey);
    assert r.sourceUnitId in ExpandedGraph(g, x, children).units
      && r.targetUnitId in ExpandedGraph(g, x, children).units;
  }

  /** Injective ids keep the children's input bindings apart. */
  lemma {:induction false} ChildTargetsDiffer(x: Expanding, children: seq<TaskUnit>, i: nat, j: nat)
    requires ChildrenOk(x.proposal) && ChildUnits(x, x.proposal.childSpecs) == Ok(children)
    requires Distinct(UnitIds(children)) && i < j < |x.proposal.edges|
    ensures (ChildRelations(x)[i].targetUnitId, ChildRelations(x)[i].targetInputName)
      != (ChildRelations(x)[j].targetUnitId, ChildRelations(x)[j].targetInputName)
  {
    ChildRelationMapsBack(x, children, i);
    ChildRelationMapsBack(x, children, j);
    assert EdgeTargets(x.proposal.edges)[i] != EdgeTargets(x.proposal.edges)[j];
  }

  lemma {:induction false} OldAndChildTargets(g: TaskGraph, x: Expanding, children: seq<TaskUnit>, i: nat, j: nat)
    requires RelationsOk(g) && ChildrenOk(x.proposal) && ChildUnits(x, x.proposal.childSpecs) == Ok(children)
    requires FreshIds(g, children) && i < |g.relations| && j < |x.proposal.edges|
    ensures g.relations[i].targetUnitId != ChildRelations(x)[j].targetUnitId
  {
    var edge := x.proposal.edges[j];
    assert EdgeOk(edge, SpecsByKey(x.proposal.childSpecs));
    ChildIdIsAdded(g, x, children, edge.targetKey);
    assert RelationOk(g.relations[i], g.taskId, g.units.Keys);
  }

  lemma {:induction false} ExpandedTargetsDiffer(g: TaskGraph, x: Expanding, children: seq<TaskUnit>, i: nat, j: nat)
    requires RelationsOk(g) && ChildrenOk(x.proposal) && ChildUnits(x, x.proposal.childSpecs) == Ok(children)
    requires FreshIds(g, children) && i < j < |g.relations| + |x.proposal.edges|
    ensures var all := g.relations + ChildRelations(x);
      IsDependency(all[i]) && IsDependency(all[j]) ==>
        (all[i].targetUnitId, all[i].targetInputName) != (all[j].targetUnitId, all[j].targetInputName)
  {
    var n := |g.relations|;
    if i >= n {
      ChildTargetsDiffer(x, children, i - n, j - n);
    } else if j >= n {
      OldAndChildTargets(g, x, children, i, j - n);
    }
  }

  lemma {:induction false} ExpandedTargetsUnique(g: TaskGraph, x: Expanding, children: seq<TaskUnit>)
    requires RelationsOk(g) && ChildrenOk(x.proposal) && ChildUnits(x, x.proposal.childSpecs) == Ok(children)
    requires FreshIds(g, children)
    ensures TargetsUnique(g.relations + ChildRelations(x))
  {
    var all := g.relations + ChildRelations(x);
    forall i, j | 0 <= i < j < |all| && IsDependency(all[i]) && IsDependency(all[j])
      ensures (all[i].targetUnitId, all[i].targetInputName) != (all[j].targetUnitId, all[j].targetInputName)
    {
      ExpandedTargetsDiffer(g, x, children, i, j);
    }
  }

  lemma {:induction false} OldRelationOk(g: TaskGraph, x: Expanding, children: seq<TaskUnit>, i: nat)
    requires RelationsOk(g) && i < |g.relations|
    ensures RelationOk(g.relations[i], g.taskId, ExpandedGraph(g, x, children).units.Keys)
  {
    AddedKey(g.units, children, g.relations[i].sourceUnitId);
    AddedKey(g.units, children, g.relations[i].targetUnitId);
  }

  lemma {:induction false} ExpandedRelationsOk(g: TaskGraph, x: Expanding, children: seq<TaskUnit>)
    requires RelationsOk(g) && ChildrenOk(x.proposal) && ChildUnits(x, x.proposal.childSpecs) == Ok(children)
    requires FreshIds(g, children) && x.taskId == g.taskId
    ensures RelationsOk(ExpandedGraph(g, x, children)) <==> EdgesNamed(x.proposal)
  {
    var h, n := ExpandedGraph(g, x, children), |g.relations|;
    ExpandedTargetsUnique(g, x, children);
    if EdgesNamed(x.proposal) {
      forall i | 0 <= i < |h.relations| ensures RelationOk(h.relations[i], h.taskId, h.units.Keys) {
        if i < n { OldRelationOk(g, x, children, i); } else { ChildRelationOk(g, x, children, i - n); }
      }
    }
    if RelationsOk(h) {
      forall e | e in x.proposal.edges ensures |e.sourceOutput| > 0 {
        var i :| 0 <= i < |x.proposal.edges| && x.proposal.edges[i] == e;
        assert h.relations[n + i] == ChildRelations(x)[i];
        ChildRelationOk(g, x, children, i);
      }
    }
  }

  lemma {:induction false} EdgeKeysAreChildren(p: Proposal, i: nat)
    requires ChildrenOk(p) && i < |p.edges|
    ensures p.edges[i].sourceKey in SpecKeys(p.childSpecs) && p.edges[i].targetKey in SpecKeys(p.childSpecs)
  {
    assert EdgeOk(p.edges[i], SpecsByKey(p.childSpecs));
    SpecsByKeyFinds(p.childSpecs);
    assert p.edges[i].sourceKey in Elements(SpecKeys(p.childSpecs))
      && p.edges[i].targetKey in Elements(SpecKeys(p.childSpecs));
  }

  lemma {:induction false} ChildRelationMapsBack(x: Expanding, children: seq<TaskUnit>, i: nat)
    requires ChildrenOk(x.proposal) && ChildUnits(x, x.proposal.childSpecs) == Ok(children)
    requires Distinct(UnitIds(children)) && i < |x.proposal.edges|
    ensures var r := ChildRelations(x)[i];
      && r.sourceUnitId in KeyOfId(x) && r.targetUnitId in KeyOfId(x)
      && KeyOfId(x)[r.sourceUnitId] == x.proposal.edges[i].sourceKey
      && KeyOfId(x)[r.targetUnitId] == x.proposal.edges[i].targetKey
  {
    EdgeKeysAreChildren(x.proposal, i);
    KeyOfChildId(x, children, x.proposal.edges[i].sourceKey);
    KeyOfChildId(x, children, x.proposal.edges[i].targetKey);
  }

  /** The children's own graph is a renaming of the proposal's acyclic one. */
  lemma {:induction false} ChildGraphAcyclic(x: Expanding, children: seq<TaskUnit>)
    requires ChildrenOk(x.proposal) && ChildUnits(x, x.proposal.childSpecs) == Ok(children)
    requires Distinct(UnitIds(children))
    ensures Acyclic(Successors(ChildIds(x), ChildRelations(x))) && Closed(Successors(ChildIds(x), ChildRelations(x)))
  {
    var byKey := SpecsByKey(x.proposal.childSpecs);
    var g, h := ChildGraph(byKey.Keys, x.proposal.edges), Successors(ChildIds(x), ChildRelations(x));
    SuccessorEdges(ChildIds(x), ChildRelations(x));
    ArrowEdges(byKey.Keys, EdgeArrows(x.proposal.edges));
    forall a, b | Edge(h, a, b)
      ensures a in KeyOfId(x) && b in KeyOfId(x) && Edge(g, KeyOfId(x)[a], KeyOfId(x)[b])
    {
      var r :| r in ChildRelations(x) && r.sourceUnitId == a && r.targetUnitId == b;
      var i :| 0 <= i < |x.proposal.edges| && ChildRelations(x)[i] == r;
      var edge := x.proposal.edges[i];
      assert EdgeOk(edge, byKey);
      ChildRelationMapsBack(x, children, i);
      assert EdgeArrows(x.proposal.edges)[i] == (edge.sourceKey, edge.targetKey);
    }
    MappedIsAcyclic(h, g, KeyOfId(x));
  }

  lemma {:induction false} ExpandedAcyclic(g: TaskGraph, x: Expanding, children: seq<TaskUnit>)
    requires GraphOk(g) && ChildrenOk(x.proposal) && ChildUnits(x, x.proposal.childSpecs) == Ok(children)
    requires FreshIds(g, children)
    ensures var h := ExpandedGraph(g, x, children); Acyclic(Successors(h.units.Keys, h.relations))
  {
    var h := ExpandedGraph(g, x, children);
    var all := Successors(h.units.Keys, h.relations);
    var before, added := Successors(g.units.Keys, g.relations), Successors(ChildIds(x), ChildRelations(x));
    SuccessorEdges(h.units.Keys, h.relations);
    SuccessorEdges(g.units.Keys, g.relations);
    SuccessorEdges(ChildIds(x), ChildRelations(x));
    ChildGraphAcyclic(x, children);
    IdsAreChildIds(x, children);
    assert before.Keys !! added.Keys by {
      assert forall id :: id in ChildIds(x) <==> id in Elements(UnitIds(children));
    }
    forall a, b | Edge(all, a, b) ensures Edge(before, a, b) || Edge(added, a, b) {
      var r :| r in h.relations && r.sourceUnitId == a && r.targetUnitId == b;
      if r in ChildRelations(x) {
        ChildRelationSource(x, r);
      } else {
        assert r in g.relations;
      }
    }
    UnionIsAcyclic(all, before, added);
  }

  lemma {:induction false} ChildRelationSource(x: Expanding, r: TaskRelation)
    requires ChildrenOk(x.proposal) && r in ChildRelations(x)
    ensures r.sourceUnitId in ChildIds(x)
  {
    var i :| 0 <= i < |x.proposal.edges| && ChildRelations(x)[i] == r;
    EdgeKeysAreChildren(x.proposal, i);
  }

  /**
   * Expansion keeps the graph valid. When the document checks have passed and the child ids are new
   * and distinct, the graph built after the batch is on record is accepted exactly when every
   * dependency edge names its source output: `required_outputs` may list the empty name, which only
   * the graph refuses.
   */
  lemma {:induction false} ExpansionKeepsGraph(g: TaskGraph, x: Expanding, children: seq<TaskUnit>,
                            parentOutputs: seq<string>, strategyChildren: Option<int>)
    requires Expandable(g, x, children, parentOutputs, strategyChildren) && FreshIds(g, children)
    ensures ExpandedGraph(g, x, children).IsDict()
    ensures GraphOk(ExpandedGraph(g, x, children)) <==> EdgesNamed(x.proposal)
  {
    ExpandedIsDict(g, x, children);
    ExpandedUnitsOk(g, x, children, parentOutputs, strategyChildren);
    ExpandedRelationsOk(g, x, children);
    ExpandedAcyclic(g, x, children);
  }

  lemma {:induction false} ExpandedChild(units: map<string, TaskUnit>, children: seq<TaskUnit>, i: nat)
    requires Distinct(UnitIds(children)) && i < |children|
    ensures children[i].unitId in AddUnits(units, children)
    ensures AddUnits(units, children)[children[i].unitId] == children[i]
  {
    var n := |children| - 1;
    if i < n {
      UnitIdsGrow(children, n);
      assert UnitIds(children)[i] != UnitIds(children)[n];
      ExpandedChild(units, children[..n], i);
    }
  }

  /** No dependency edge leads to a child that starts Ready. */
  lemma {:induction false} NothingEntersReady(x: Expanding, children: seq<TaskUnit>, i: nat, j: nat)
    requires ChildrenOk(x.proposal) && ChildUnits(x, x.proposal.childSpecs) == Ok(children)
      && Distinct(UnitIds(children))
    requires i < |children| && children[i].state == TaskState.Ready && j < |x.proposal.edges|
    ensures ChildRelations(x)[j].targetUnitId != children[i].unitId
  {
    var edge, key := x.proposal.edges[j], SpecKeys(x.proposal.childSpecs)[i];
    EdgeKeysAreChildren(x.proposal, j);
    assert EdgeOk(edge, SpecsByKey(x.proposal.childSpecs));
    ChildUnitAt(x, x.proposal.childSpecs, i);
    KeyOfChildId(x, children, key);
    KeyOfChildId(x, children, edge.targetKey);
    if edge.targetKey == key { assert HasIncoming(x.proposal, key); }
  }

  lemma {:induction false} NothingEntersInGraph(g: TaskGraph, x: Expanding, children: seq<TaskUnit>, i: nat, j: nat)
    requires RelationsOk(g) && ChildrenOk(x.proposal) && ChildUnits(x, x.proposal.childSpecs) == Ok(children)
    requires FreshIds(g, children) && i < |children| && children[i].state == TaskState.Ready
    requires j < |g.relations + ChildRelations(x)|
    ensures (g.relations + ChildRelations(x))[j].targetUnitId != children[i].unitId
  {
    if j < |g.relations| {
      assert RelationOk(g.relations[j], g.taskId, g.units.Keys);
      assert UnitIds(children)[i] == children[i].unitId;
    } else {
      NothingEntersReady(x, children, i, j - |g.relations|);
    }
  }

  lemma {:induction false} UnenteredIsSatisfied(g: TaskGraph, id: string)
    requires RelationsOk(g) && forall j :: 0 <= j < |g.relations| ==> g.relations[j].targetUnitId != id
    ensures Satisfied(g, id)
  {
  }

  /** A child that starts Ready can be scheduled at once: nothing in the expanded graph holds it back. */
  lemma {:induction false} ReadyChildrenCanRun(g: TaskGraph, x: Expanding, children: seq<TaskUnit>, i: nat,
                            parentOutputs: seq<string>, strategyChildren: Option<int>)
    requires Expandable(g, x, children, parentOutputs, strategyChildren) && FreshIds(g, children)
    requires EdgesNamed(x.proposal) && i < |children| && children[i].state == TaskState.Ready
    ensures RelationsOk(ExpandedGraph(g, x, children)) && IsReady(ExpandedGraph(g, x, children), children[i].unitId)
  {
    var h, id := ExpandedGraph(g, x, children), children[i].unitId;
    ExpandedRelationsOk(g, x, children);
    ExpandedChild(g.units, children, i);
    forall j | 0 <= j < |h.relations| ensures h.relations[j].targetUnitId != id {
      NothingEntersInGraph(g, x, children, i, j);
    }
    UnenteredIsSatisfied(h, id);
  }
}
