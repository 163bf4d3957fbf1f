/** The unit graph (src/tokenshare/core/task_graph.py): what its constructor accepts, and which units can move. */
module TaskGraphs {
  import opened Basics
  import opened Objects
  import opened Graphs

  /** `order` is the insertion order of the `units` dict. */
  datatype TaskGraph = TaskGraph(
    taskId: string,
    order: seq<string>,
    units: map<string, TaskUnit>,
    relations: seq<TaskRelation>,
    canonicalOutputs: map<string, OutputRefs>,
    config: Option<ProtocolConfig>)
  {
    /** `order` and `units` are one dict. */
    ghost predicate IsDict() {
      Distinct(order) && Elements(order) == units.Keys
    }
  }

  function Leaving(relations: seq<TaskRelation>, unitId: string): seq<TaskRelation> {
    if relations == [] then []
    else
      var before := Leaving(relations[..|relations| - 1], unitId);
      var last := relations[|relations| - 1];
      if last.sourceUnitId == unitId then before + [last] else before
  }

  function Entering(relations: seq<TaskRelation>, unitId: string): seq<TaskRelation> {
    if relations == [] then []
    else
      var before := Entering(relations[..|relations| - 1], unitId);
      var last := relations[|relations| - 1];
      if last.targetUnitId == unitId then before + [last] else before
  }

  lemma {:induction false} LeavingMembers(relations: seq<TaskRelation>, unitId: string)
    ensures forall r :: r in Leaving(relations, unitId) <==> r in relations && r.sourceUnitId == unitId
  {
    if relations != [] {
      LeavingMembers(relations[..|relations| - 1], unitId);
      assert relations == relations[..|relations| - 1] + [relations[|relations| - 1]];
    }
  }

  lemma {:induction false} EnteringMembers(relations: seq<TaskRelation>, unitId: string)
    ensures forall r :: r in Entering(relations, unitId) <==> r in relations && r.targetUnitId == unitId
  {
    if relations != [] {
      EnteringMembers(relations[..|relations| - 1], unitId);
      assert relations == relations[..|relations| - 1] + [relations[|relations| - 1]];
    }
  }

  function Targets(relations: seq<TaskRelation>): seq<string> {
    seq(|relations|, i requires 0 <= i < |relations| => relations[i].targetUnitId)
  }

  /** Successor lists of the unit graph; relations of every type count. */
  ghost function Successors(ids: set<string>, relations: seq<TaskRelation>): Adjacency<string> {
    map u | u in ids :: Targets(Leaving(relations, u))
  }

  lemma {:induction false} SuccessorEdges(ids: set<string>, relations: seq<TaskRelation>)
    ensures forall a, b :: Edge(Successors(ids, relations), a, b) <==>
      a in ids && exists r :: r in relations && r.sourceUnitId == a && r.targetUnitId == b
  {
    var g := Successors(ids, relations);
    forall a, b
      ensures Edge(g, a, b) <==>
        a in ids && exists r :: r in relations && r.sourceUnitId == a && r.targetUnitId == b
    {
      LeavingMembers(relations, a);
      var out := Leaving(relations, a);
      if Edge(g, a, b) {
        var i :| 0 <= i < |out| && Targets(out)[i] == b;
        assert out[i] in relations && out[i].sourceUnitId == a && out[i].targetUnitId == b;
      }
      if a in ids {
        if r :| r in relations && r.sourceUnitId == a && r.targetUnitId == b {
          assert r in out;
          var i :| 0 <= i < |out| && out[i] == r;
          assert Targets(out)[i] == b;
        }
      }
    }
  }

  // ---------------------------------------------------------------- what the constructor accepts

  ghost predicate UnitsOk(g: TaskGraph) {
    && (forall id :: id in g.units ==> g.units[id].unitId == id && g.units[id].taskId == g.taskId)
    && (g.config.Some? ==>
      && |g.units| <= g.config.value.maxTotalUnits
      && (g.units == map[] ==> 0 <= g.config.value.maxDepth)
      && (forall id :: id in g.units ==> g.units[id].depth <= g.config.value.maxDepth))
  }

  predicate IsDependency(r: TaskRelation) {
    r.relationType == DEPENDS_ON_OUTPUT
  }

  predicate RelationOk(r: TaskRelation, taskId: string, ids: set<string>) {
    && r.taskId == taskId
    && r.sourceUnitId in ids
    && r.targetUnitId in ids
    && (IsDependency(r) ==> r.sourceOutputName.GetOr("") != "" && r.targetInputName.GetOr("") != "")
  }

  /** No two dependencies feed one input of one unit. */
  ghost predicate TargetsUnique(relations: seq<TaskRelation>) {
    forall i, j :: 0 <= i < j < |relations| && IsDependency(relations[i]) && IsDependency(relations[j]) ==>
      (relations[i].targetUnitId, relations[i].targetInputName)
        != (relations[j].targetUnitId, relations[j].targetInputName)
  }

  ghost predicate RelationsOk(g: TaskGraph) {
    && (forall i :: 0 <= i < |g.relations| ==> RelationOk(g.relations[i], g.taskId, g.units.Keys))
    && TargetsUnique(g.relations)
  }

  ghost predicate GraphOk(g: TaskGraph) {
    UnitsOk(g) && RelationsOk(g) && Acyclic(Successors(g.units.Keys, g.relations))
  }

  /** The deepest unit among the first `n`, 0 when there are none. */
  ghost predicate IsMaxDepth(g: TaskGraph, n: nat, depth: int)
    requires n <= |g.order| && g.IsDict()
  {
    DictMembers(g);
    if n == 0 then depth == 0
    else
      && (forall j :: 0 <= j < n ==> g.units[g.order[j]].depth <= depth)
      && (exists j :: 0 <= j < n && g.units[g.order[j]].depth == depth)
  }

  lemma {:induction false} DictMembers(g: TaskGraph)
    requires g.IsDict()
    ensures forall i :: 0 <= i < |g.order| ==> g.order[i] in g.units
    ensures forall id :: id in g.units ==> id in g.order
  {
    assert forall id :: id in g.units <==> id in Elements(g.order);
  }

  method ValidateUnits(g: TaskGraph) returns (r: Result<()>)
    requires g.IsDict()
    ensures r.Ok? <==> UnitsOk(g)
  {
    var maxDepth := 0;
    DictMembers(g);
    for i := 0 to |g.order|
      invariant forall j :: 0 <= j < i ==>
        g.units[g.order[j]].unitId == g.order[j] && g.units[g.order[j]].taskId == g.taskId
      invariant IsMaxDepth(g, i, maxDepth)
    {
      var unit := g.units[g.order[i]];
      if g.order[i] != unit.unitId { return Err(WrongUnitKey); }
      if unit.taskId != g.taskId { return Err(OtherTask); }
      if i == 0 || unit.depth > maxDepth { maxDepth := unit.depth; }
    }
    if g.config.None? { return Ok(()); }
    if |g.units| > g.config.value.maxTotalUnits { return Err(TooManyUnits); }
    if maxDepth > g.config.value.maxDepth { return Err(TooDeep); }
    r := Ok(());
  }

  predicate NamesItsEnds(r: TaskRelation) {
    r.sourceOutputName.GetOr("") != "" && r.targetInputName.GetOr("") != ""
  }

  /** The edge lists the constructor fills, for the first `n` relations. */
  ghost predicate EdgeLists(g: TaskGraph, n: nat,
                            outEdges: map<string, seq<TaskRelation>>, inEdges: map<string, seq<TaskRelation>>)
    requires n <= |g.relations|
  {
    && outEdges.Keys == g.units.Keys && inEdges.Keys == g.units.Keys
    && (forall u :: u in g.units ==> outEdges[u] == Leaving(g.relations[..n], u))
    && (forall u :: u in g.units ==> inEdges[u] == Entering(g.relations[..n], u))
  }

  lemma {:induction false} EdgeListsGrow(g: TaskGraph, n: nat,
                      outEdges: map<string, seq<TaskRelation>>, inEdges: map<string, seq<TaskRelation>>)
    requires n < |g.relations| && EdgeLists(g, n, outEdges, inEdges)
    requires g.relations[n].sourceUnitId in g.units && g.relations[n].targetUnitId in g.units
    ensures var r := g.relations[n];
            EdgeLists(g, n + 1, outEdges[r.sourceUnitId := outEdges[r.sourceUnitId] + [r]],
                      inEdges[r.targetUnitId := inEdges[r.targetUnitId] + [r]])
  {
    assert g.relations[..n + 1][..n] == g.relations[..n];
  }

  ghost function TargetKeys(relations: seq<TaskRelation>): set<(string, Option<string>)> {
    set r | r in relations && IsDependency(r) :: (r.targetUnitId, r.targetInputName)
  }

  lemma {:induction false} TargetsUniqueGrows(relations: seq<TaskRelation>, r: TaskRelation)
    requires TargetsUnique(relations)
    ensures TargetsUnique(relations + [r]) <==>
      (IsDependency(r) ==> (r.targetUnitId, r.targetInputName) !in TargetKeys(relations))
    ensures TargetKeys(relations + [r]) == TargetKeys(relations) + TargetKey(r)
  {
    var longer := relations + [r];
    assert forall x :: x in longer <==> x in relations || x == r;
    if IsDependency(r) && (r.targetUnitId, r.targetInputName) in TargetKeys(relations) {
      var q :| q in relations && IsDependency(q)
        && (q.targetUnitId, q.targetInputName) == (r.targetUnitId, r.targetInputName);
      var k :| 0 <= k < |relations| && relations[k] == q;
      assert longer[k] == q && longer[|relations|] == r;
    } else {
      forall i, j | 0 <= i < j < |longer| && IsDependency(longer[i]) && IsDependency(longer[j])
        ensures (longer[i].targetUnitId, longer[i].targetInputName)
          != (longer[j].targetUnitId, longer[j].targetInputName)
      {
        assert longer[i] in relations;
        assert (longer[i].targetUnitId, longer[i].targetInputName) in TargetKeys(relations);
      }
    }
  }

  lemma {:induction false} TargetsUniquePrefix(relations: seq<TaskRelation>, n: nat)
    requires n <= |relations| && TargetsUnique(relations)
    ensures TargetsUnique(relations[..n])
  {
  }

  function TargetKey(r: TaskRelation): set<(string, Option<string>)> {
    if IsDependency(r) then {(r.targetUnitId, r.targetInputName)} else {}
  }

  /** `_validate_relation`: one relation against the inputs already bound. */
  method ValidateRelation(g: TaskGraph, relation: TaskRelation, seen: set<(string, Option<string>)>)
    returns (r: Result<set<(string, Option<string>)>>)
    ensures r.Ok? <==> RelationOk(relation, g.taskId, g.units.Keys) && TargetKey(relation) !! seen
    ensures r.Ok? ==> r.value == seen + TargetKey(relation)
  {
    if relation.taskId != g.taskId { return Err(OtherTask); }
    if relation.sourceUnitId !in g.units { return Err(UnknownUnit); }
    if relation.targetUnitId !in g.units { return Err(UnknownUnit); }
    if !IsDependency(relation) { return Ok(seen); }
    if !NamesItsEnds(relation) { return Err(UnnamedDependency); }
    var target := (relation.targetUnitId, relation.targetInputName);
    if target in seen { return Err(InputBoundTwice); }
    r := Ok(seen + {target});
  }

  /** The relation loop of the constructor: validates each relation and files it under its ends. */
  method CollectEdges(g: TaskGraph)
    returns (r: Result<(map<string, seq<TaskRelation>>, map<string, seq<TaskRelation>>)>)
    ensures r.Ok? <==> RelationsOk(g)
    ensures r.Ok? ==> EdgeLists(g, |g.relations|, r.value.0, r.value.1)
  {
    var outEdges: map<string, seq<TaskRelation>> := map u | u in g.units :: [];
    var inEdges: map<string, seq<TaskRelation>> := map u | u in g.units :: [];
    var seen: set<(string, Option<string>)> := {};
    for i := 0 to |g.relations|
      invariant EdgeLists(g, i, outEdges, inEdges)
      invariant forall j :: 0 <= j < i ==> RelationOk(g.relations[j], g.taskId, g.units.Keys)
      invariant TargetsUnique(g.relations[..i]) && seen == TargetKeys(g.relations[..i])
    {
      var relation := g.relations[i];
      assert g.relations[..i + 1] == g.relations[..i] + [relation];
      TargetsUniqueGrows(g.relations[..i], relation);
      var checked := ValidateRelation(g, relation, seen);
      if checked.Err? {
        RejectedRelation(g, i);
        return Err(checked.error);
      }
      seen := checked.value;
      EdgeListsGrow(g, i, outEdges, inEdges);
      outEdges := outEdges[relation.sourceUnitId := outEdges[relation.sourceUnitId] + [relation]];
      inEdges := inEdges[relation.targetUnitId := inEdges[relation.targetUnitId] + [relation]];
    }
    assert g.relations[..|g.relations|] == g.relations;
    r := Ok((outEdges, inEdges));
  }

  lemma {:induction false} RejectedRelation(g: TaskGraph, i: nat)
    requires i < |g.relations|
    requires !RelationOk(g.relations[i], g.taskId, g.units.Keys) || !TargetsUnique(g.relations[..i + 1])
    ensures !RelationsOk(g)
  {
    if TargetsUnique(g.relations) { TargetsUniquePrefix(g.relations, i + 1); }
  }

  /** The constructor: succeeds exactly on the graphs `GraphOk` describes, with their edge lists. */
  method BuildEdges(g: TaskGraph)
    returns (r: Result<(map<string, seq<TaskRelation>>, map<string, seq<TaskRelation>>)>)
    requires g.IsDict()
    ensures r.Ok? <==> GraphOk(g)
    ensures r.Ok? ==> EdgeLists(g, |g.relations|, r.value.0, r.value.1)
  {
    var unitsChecked := ValidateUnits(g);
    if unitsChecked.Err? { return Err(unitsChecked.error); }
    r := CollectEdges(g);
    if r.Err? { return; }
    var outEdges := r.value.0;
    var successors := map u | u in g.units :: Targets(outEdges[u]);
    assert successors == Successors(g.units.Keys, g.relations) by {
      assert g.relations[..|g.relations|] == g.relations;
    }
    assert Closed(successors) by {
      SuccessorEdges(g.units.Keys, g.relations);
    }
    var acyclic := IsAcyclic(successors, g.order);
    if !acyclic { return Err(GraphHasCycle); }
  }

  // ---------------------------------------------------------------- units that can move

  /** Outputs a unit offers: the graph's override, else the unit's own canonical outputs. */
  function SourceOutputs(g: TaskGraph, unitId: string): OutputRefs
    requires unitId in g.units
  {
    if unitId in g.canonicalOutputs then g.canonicalOutputs[unitId] else g.units[unitId].canonicalOutputRefs
  }

  predicate Supplied(g: TaskGraph, r: TaskRelation)
    requires r.sourceUnitId in g.units
  {
    IsDependency(r) ==> r.sourceOutputName.Some? && r.sourceOutputName.value in SourceOutputs(g, r.sourceUnitId)
  }

  /** Every dependency of the unit is available. */
  ghost predicate Satisfied(g: TaskGraph, unitId: string)
    requires RelationsOk(g)
  {
    forall r :: r in g.relations && r.targetUnitId == unitId ==> Supplied(g, r)
  }

  method DependenciesAreSatisfied(g: TaskGraph, unitId: string) returns (satisfied: bool)
    requires RelationsOk(g)
    ensures satisfied <==> Satisfied(g, unitId)
  {
    var entering := Entering(g.relations, unitId);
    EnteringMembers(g.relations, unitId);
    for i := 0 to |entering|
      invariant forall j :: 0 <= j < i ==> Supplied(g, entering[j])
    {
      assert entering[i] in g.relations;
      if IsDependency(entering[i]) && !Supplied(g, entering[i]) { return false; }
    }
    satisfied := true;
  }

  /** The units in `ids`, in order, that are in `state` and have their dependencies. */
  ghost function Movable(g: TaskGraph, state: TaskState, ids: seq<string>): seq<string>
    requires RelationsOk(g)
  {
    if ids == [] then []
    else
      var before := Movable(g, state, ids[..|ids| - 1]);
      var last := ids[|ids| - 1];
      if last in g.units && g.units[last].state == state && Satisfied(g, last) then before + [last] else before
  }

  lemma {:induction false} MovableMembers(g: TaskGraph, state: TaskState, ids: seq<string>)
    requires RelationsOk(g)
    ensures forall u :: u in Movable(g, state, ids) <==>
      u in ids && u in g.units && g.units[u].state == state && Satisfied(g, u)
  {
    if ids != [] {
      MovableMembers(g, state, ids[..|ids| - 1]);
      assert ids == ids[..|ids| - 1] + [ids[|ids| - 1]];
    }
  }

  method UnitsInState(g: TaskGraph, state: TaskState) returns (ids: seq<string>)
    requires g.IsDict() && RelationsOk(g)
    ensures ids == Movable(g, state, g.order)
  {
    ids := [];
    for i := 0 to |g.order|
      invariant ids == Movable(g, state, g.order[..i])
    {
      assert g.order[..i + 1][..i] == g.order[..i];
      assert g.order[i] in Elements(g.order);
      if g.units[g.order[i]].state == state {
        var satisfied := DependenciesAreSatisfied(g, g.order[i]);
        if satisfied { ids := ids + [g.order[i]]; }
      }
    }
    assert g.order[..|g.order|] == g.order;
  }

  ghost predicate IsReady(g: TaskGraph, u: string)
    requires RelationsOk(g)
  {
    u in g.units && g.units[u].state == TaskState.Ready && Satisfied(g, u)
  }

  ghost predicate IsActivatable(g: TaskGraph, u: string)
    requires RelationsOk(g)
  {
    u in g.units && g.units[u].state == TaskState.Blocked && Satisfied(g, u)
  }

  // ---------------------------------------------------------------- freedom from deadlock

  ghost predicate Working(g: TaskGraph) {
    forall u :: u in g.units ==> StateWork(g.units[u].state) > 0 || g.units[u].state == TaskState.Completed
  }

  /** Completed units offer every output a relation leaving them names. */
  ghost predicate CompletedSupply(g: TaskGraph)
    requires RelationsOk(g)
  {
    forall r :: r in g.relations && g.units[r.sourceUnitId].state == TaskState.Completed ==> Supplied(g, r)
  }

  ghost predicate Live(g: TaskGraph) {
    GraphOk(g) && g.IsDict() && Working(g) && CompletedSupply(g)
  }

  ghost predicate Done(g: TaskGraph) {
    forall u :: u in g.units ==> g.units[u].state == TaskState.Completed
  }

  ghost predicate Idle(g: TaskGraph) {
    forall u :: u in g.units ==> g.units[u].state != TaskState.Processing
  }

  /** While no unit is Processing and one is not Completed, some unit is ready or activatable. */
  lemma {:induction false} NoDeadlock(g: TaskGraph) returns (u: string)
    requires Live(g) && Idle(g) && !Done(g)
    ensures IsReady(g, u) || IsActivatable(g, u)
  {
    var open := set x | x in g.units && g.units[x].state != TaskState.Completed;
    var successors := Successors(g.units.Keys, g.relations);
    var missing :| missing in g.units && g.units[missing].state != TaskState.Completed;
    assert missing in open;
    u := SourceExists(successors, open);
    SuccessorEdges(g.units.Keys, g.relations);
    forall r | r in g.relations && r.targetUnitId == u ensures Supplied(g, r) {
      assert Edge(successors, r.sourceUnitId, u);
      assert r.sourceUnitId !in open;
    }
  }

  // ---------------------------------------------------------------- rounds

  /** `_replace_graph_unit`: the coordinator's graph after a step has recorded a new snapshot of one of its units. */
  function ReplaceUnit(g: TaskGraph, unit: TaskUnit, refs: OutputRefs): TaskGraph {
    g.(units := g.units[unit.unitId := unit],
       canonicalOutputs := if refs != map[] then g.canonicalOutputs[unit.unitId := refs] else g.canonicalOutputs)
  }

  /** `unit` is `was` in another state, perhaps with another update time and attempt ordinal. */
  predicate Restates(was: TaskUnit, unit: TaskUnit, state: TaskState) {
    unit == was.(state := state, updatedAt := unit.updatedAt, lastAttemptOrdinal := unit.lastAttemptOrdinal)
  }

  /** One unit made Ready, taken up, or completed with canonical outputs. */
  datatype Round = Activate(unit: TaskUnit) | Start(unit: TaskUnit) | Finish(unit: TaskUnit, outputs: OutputRefs)

  function Moved(g: TaskGraph, round: Round): TaskGraph {
    ReplaceUnit(g, round.unit, if round.Finish? then round.outputs else map[])
  }

  /** The outputs `outputs` cover every dependency leaving `u`. */
  ghost predicate Covers(g: TaskGraph, u: string, outputs: OutputRefs) {
    forall r :: r in g.relations && r.sourceUnitId == u && IsDependency(r) ==>
      r.sourceOutputName.Some? && r.sourceOutputName.value in outputs
  }

  predicate InState(g: TaskGraph, u: string, state: TaskState) {
    u in g.units && g.units[u].state == state
  }

  ghost predicate IsRound(g: TaskGraph, round: Round)
    requires RelationsOk(g)
  {
    var u := round.unit.unitId;
    match round
    case Activate(unit) => IsActivatable(g, u) && Restates(g.units[u], unit, TaskState.Ready)
    case Start(unit) => IsReady(g, u) && Restates(g.units[u], unit, TaskState.Processing)
    case Finish(unit, _) =>
      && InState(g, u, TaskState.Processing) && Restates(g.units[u], unit, TaskState.Completed)
      && Covers(g, u, SourceOutputs(Moved(g, round), u))
  }

  function StateWork(state: TaskState): nat {
    match state
    case Blocked => 3
    case Ready => 2
    case Processing => 1
    case _ => 0
  }

  /** Rounds still to do: three for a Blocked unit, two for a Ready one, one for one in Processing. */
  function Work(units: map<string, TaskUnit>, ids: seq<string>): nat {
    if ids == [] then 0
    else (if ids[0] in units then StateWork(units[ids[0]].state) else 0) + Work(units, ids[1..])
  }

  function WorkOf(g: TaskGraph): nat { Work(g.units, g.order) }

  lemma {:induction false} WorkDrops(units: map<string, TaskUnit>, ids: seq<string>, unit: TaskUnit)
    requires unit.unitId in units && Distinct(ids) && StateWork(unit.state) + 1 == StateWork(units[unit.unitId].state)
    ensures Work(units[unit.unitId := unit], ids) == Work(units, ids) - (if unit.unitId in ids then 1 else 0)
  {
    if ids != [] {
      WorkDrops(units, ids[1..], unit);
      assert unit.unitId in ids <==> unit.unitId == ids[0] || unit.unitId in ids[1..];
      if unit.unitId == ids[0] { assert unit.unitId !in ids[1..]; }
    }
  }

  lemma {:induction false} ReplaceKeepsUnits(g: TaskGraph, unit: TaskUnit, refs: OutputRefs, state: TaskState)
    requires UnitsOk(g) && unit.unitId in g.units && Restates(g.units[unit.unitId], unit, state)
    ensures UnitsOk(ReplaceUnit(g, unit, refs)) && ReplaceUnit(g, unit, refs).units.Keys == g.units.Keys
  {
    var h := ReplaceUnit(g, unit, refs);
    assert h.units.Keys == g.units.Keys;
    assert |h.units| == |h.units.Keys| == |g.units.Keys| == |g.units|;
  }

  lemma {:induction false} ReplaceKeepsGraph(g: TaskGraph, unit: TaskUnit, refs: OutputRefs, state: TaskState)
    requires GraphOk(g) && g.IsDict() && unit.unitId in g.units && Restates(g.units[unit.unitId], unit, state)
    ensures GraphOk(ReplaceUnit(g, unit, refs)) && ReplaceUnit(g, unit, refs).IsDict()
  {
    ReplaceKeepsUnits(g, unit, refs, state);
  }

  lemma {:induction false} ReplaceKeepsWorking(g: TaskGraph, unit: TaskUnit, refs: OutputRefs)
    requires Working(g) && (StateWork(unit.state) > 0 || unit.state == TaskState.Completed)
    ensures Working(ReplaceUnit(g, unit, refs))
  {
  }

  lemma {:induction false} EarlySupply(g: TaskGraph, unit: TaskUnit)
    requires RelationsOk(g) && RelationsOk(ReplaceUnit(g, unit, map[])) && unit.state != TaskState.Completed
    ensures CompletedSupply(g) ==> CompletedSupply(ReplaceUnit(g, unit, map[]))
  {
    var h := ReplaceUnit(g, unit, map[]);
    if CompletedSupply(g) {
      forall r | r in h.relations && h.units[r.sourceUnitId].state == TaskState.Completed ensures Supplied(h, r) {
        assert Supplied(g, r);
      }
    }
  }

  lemma {:induction false} FinishSupply(g: TaskGraph, h: TaskGraph, unit: TaskUnit, outputs: OutputRefs)
    requires RelationsOk(g) && h == ReplaceUnit(g, unit, outputs) && RelationsOk(h)
    requires CompletedSupply(g) && unit.state == TaskState.Completed
    ensures CompletedSupply(h) <==> Covers(g, unit.unitId, SourceOutputs(h, unit.unitId))
  {
    forall r | r in h.relations && h.units[r.sourceUnitId].state == TaskState.Completed
      ensures r.sourceUnitId != unit.unitId ==> Supplied(h, r)
    {
      if r.sourceUnitId != unit.unitId { assert Supplied(g, r); }
    }
    if CompletedSupply(h) {
      forall r | r in g.relations && r.sourceUnitId == unit.unitId && IsDependency(r)
        ensures r.sourceOutputName.Some? && r.sourceOutputName.value in SourceOutputs(h, unit.unitId)
      {
        assert Supplied(h, r);
      }
    }
  }

  /** Completing a unit keeps the graph live exactly when its outputs cover the dependencies leaving it. */
  lemma {:induction false} CompletionKeepsLive(g: TaskGraph, unit: TaskUnit, outputs: OutputRefs)
    requires Live(g) && InState(g, unit.unitId, TaskState.Processing)
    requires Restates(g.units[unit.unitId], unit, TaskState.Completed)
    ensures Live(Moved(g, Finish(unit, outputs))) <==> IsRound(g, Finish(unit, outputs))
  {
    ReplaceKeepsGraph(g, unit, outputs, TaskState.Completed);
    ReplaceKeepsWorking(g, unit, outputs);
    FinishSupply(g, ReplaceUnit(g, unit, outputs), unit, outputs);
  }

  lemma {:induction false} EarlyRoundKeepsLive(g: TaskGraph, unit: TaskUnit, state: TaskState)
    requires Live(g) && unit.unitId in g.units && Restates(g.units[unit.unitId], unit, state) && StateWork(state) > 0
    ensures Live(ReplaceUnit(g, unit, map[]))
  {
    ReplaceKeepsGraph(g, unit, map[], state);
    ReplaceKeepsWorking(g, unit, map[]);
    EarlySupply(g, unit);
  }

  /** Every allowed round keeps the graph live. */
  lemma {:induction false} RoundKeepsLive(g: TaskGraph, round: Round)
    requires Live(g) && IsRound(g, round)
    ensures Live(Moved(g, round))
  {
    match round
    case Activate(unit) => EarlyRoundKeepsLive(g, unit, TaskState.Ready);
    case Start(unit) => EarlyRoundKeepsLive(g, unit, TaskState.Processing);
    case Finish(unit, outputs) => CompletionKeepsLive(g, unit, outputs);
  }

  /** Every allowed round does one unit of the work left. */
  lemma {:induction false} RoundDoesWork(g: TaskGraph, round: Round)
    requires RelationsOk(g) && g.IsDict() && IsRound(g, round)
    ensures WorkOf(Moved(g, round)) == WorkOf(g) - 1
  {
    assert round.unit.unitId in Elements(g.order);
    WorkDrops(g.units, g.order, round.unit);
  }

  function SomeRef(): ArtifactRef {
    ArtifactRef("", "", "", "", 0, "", "", "", map[], map[], "", "")
  }

  lemma {:induction false} CoveringOutputs(g: TaskGraph, u: string) returns (outputs: OutputRefs)
    requires RelationsOk(g)
    ensures Covers(g, u, outputs) && outputs != map[]
  {
    var names := set r | r in g.relations && r.sourceOutputName.Some? :: r.sourceOutputName.value;
    outputs := map n | n in names + {""} :: SomeRef();
    assert "" in outputs;
    forall r | r in g.relations && r.sourceUnitId == u && IsDependency(r)
      ensures r.sourceOutputName.Some? && r.sourceOutputName.value in outputs
    {
      var i :| 0 <= i < |g.relations| && g.relations[i] == r;
      assert RelationOk(g.relations[i], g.taskId, g.units.Keys);
    }
  }

  /** A live graph that is not done can always make another round. */
  lemma {:induction false} CanMove(g: TaskGraph) returns (round: Round)
    requires Live(g) && !Done(g)
    ensures IsRound(g, round)
  {
    if Idle(g) {
      var u := NoDeadlock(g);
      var unit := g.units[u];
      round := if IsActivatable(g, u) then Activate(unit.(state := TaskState.Ready))
               else Start(unit.(state := TaskState.Processing));
    } else {
      var u :| u in g.units && g.units[u].state == TaskState.Processing;
      var outputs := CoveringOutputs(g, u);
      round := Finish(g.units[u].(state := TaskState.Completed), outputs);
    }
  }

  ghost predicate Stuck(g: TaskGraph)
    requires RelationsOk(g)
  {
    forall round :: !IsRound(g, round)
  }

  lemma {:induction false} StuckIsDone(g: TaskGraph)
    requires Live(g)
    ensures Stuck(g) <==> Done(g)
  {
    if !Done(g) { var round := CanMove(g); }
  }

  function AfterRounds(g: TaskGraph, rounds: seq<Round>): TaskGraph
    decreases rounds
  {
    if rounds == [] then g else AfterRounds(Moved(g, rounds[0]), rounds[1..])
  }

  /** Each round is allowed on the graph it meets. */
  ghost predicate AreRounds(g: TaskGraph, rounds: seq<Round>)
    decreases rounds
  {
    rounds == [] || (RelationsOk(g) && IsRound(g, rounds[0]) && AreRounds(Moved(g, rounds[0]), rounds[1..]))
  }

  /**
   * Every run of rounds keeps the graph live and spends one unit of work a round, so no run is longer than the
   * work there is; a run that cannot go on has completed every unit, and only such a run.
   */
  lemma {:induction false} RoundsFinish(g: TaskGraph, rounds: seq<Round>)
    requires Live(g) && AreRounds(g, rounds)
    ensures Live(AfterRounds(g, rounds)) && |rounds| + WorkOf(AfterRounds(g, rounds)) == WorkOf(g)
    ensures Stuck(AfterRounds(g, rounds)) <==> Done(AfterRounds(g, rounds))
    decreases rounds
  {
    if rounds == [] {
      StuckIsDone(g);
    } else {
      RoundKeepsLive(g, rounds[0]);
      RoundDoesWork(g, rounds[0]);
      RoundsFinish(Moved(g, rounds[0]), rounds[1..]);
    }
  }
}
