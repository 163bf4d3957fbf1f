/**
 * Cancelling the unfinished work below a completed parent
 * (src/tokenshare/protocol_engine.py:1555-1637, 4255-4272, 4410-4758).
 */
module Pruning {
  import opened Basics
  import opened Objects
  import opened Order
  import opened Ledger
  import opened Batches
  import opened Lifecycles
  import opened Plans

  // ---------------------------------------------------------------- the ancestor walk

  function NonEmpty(id: Option<string>): Option<string> {
    if id.Some? && id.value == "" then None else id
  }

  /** The parent recorded for `id` among the candidates. */
  function ParentOf(units: map<string, TaskUnit>, id: string): Option<string> {
    if id in units then NonEmpty(units[id].parentUnitId) else None
  }

  /** The n-th ancestor above `start`, following parent links inside the candidate set. */
  ghost function Ancestor(units: map<string, TaskUnit>, start: Option<string>, n: nat): Option<string> {
    if n == 0 then NonEmpty(start)
    else
      var below := Ancestor(units, start, n - 1);
      if below.None? then None else ParentOf(units, below.value)
  }

  /** `target` is a proper ancestor, reachable inside the candidate set. */
  ghost predicate Below(units: map<string, TaskUnit>, start: Option<string>, target: string) {
    exists n: nat :: Ancestor(units, start, n) == Some(target)
  }

  lemma {:induction false} NoneAbove(units: map<string, TaskUnit>, start: Option<string>, n: nat, k: nat)
    requires Ancestor(units, start, n).None? && n <= k
    ensures Ancestor(units, start, k).None?
    decreases k
  {
    if n < k { NoneAbove(units, start, n, k - 1); }
  }

  /** Once the walk repeats, it only ever repeats. */
  lemma {:induction false} WalkRepeats(units: map<string, TaskUnit>, start: Option<string>, m: nat, n: nat, k: nat)
    returns (j: nat)
    requires m < n && Ancestor(units, start, m) == Ancestor(units, start, n)
    ensures j < n && Ancestor(units, start, k) == Ancestor(units, start, j)
    decreases k
  {
    if k < n {
      j := k;
    } else {
      SamePeriod(units, start, m, n, k - n);
      j := WalkRepeats(units, start, m, n, k - (n - m));
    }
  }

  lemma {:induction false} SamePeriod(units: map<string, TaskUnit>, start: Option<string>, m: nat, n: nat, d: nat)
    requires m < n && Ancestor(units, start, m) == Ancestor(units, start, n)
    ensures Ancestor(units, start, n + d) == Ancestor(units, start, m + d)
  {
    if d > 0 { SamePeriod(units, start, m, n, d - 1); }
  }

  lemma {:induction false} WalkEnded(units: map<string, TaskUnit>, start: Option<string>, n: nat, target: string)
    requires Ancestor(units, start, n).None? && forall k :: 0 <= k < n ==> Ancestor(units, start, k) != Some(target)
    ensures !Below(units, start, target)
  {
    forall k: nat ensures Ancestor(units, start, k) != Some(target) {
      if k >= n { NoneAbove(units, start, n, k); }
    }
  }

  lemma {:induction false} WalkCycled(units: map<string, TaskUnit>, start: Option<string>, m: nat, n: nat,
                                      target: string)
    requires m < n && Ancestor(units, start, m) == Ancestor(units, start, n)
    requires forall k :: 0 <= k < n ==> Ancestor(units, start, k) != Some(target)
    ensures !Below(units, start, target)
  {
    forall k: nat ensures Ancestor(units, start, k) != Some(target) {
      var j := WalkRepeats(units, start, m, n, k);
    }
  }

  /** `_is_descendant_unit`: the walk ends even when parent links form a cycle. */
  method IsDescendant(unit: TaskUnit, target: string, units: map<string, TaskUnit>) returns (below: bool)
    ensures below <==> Below(units, unit.parentUnitId, target)
  {
    var current := NonEmpty(unit.parentUnitId);
    var seen: set<string> := {};
    ghost var n: nat := 0;
    while current.Some?
      invariant current == Ancestor(units, unit.parentUnitId, n)
      invariant forall id :: id in seen ==> exists k :: 0 <= k < n && Ancestor(units, unit.parentUnitId, k) == Some(id)
      invariant forall k :: 0 <= k < n ==> Ancestor(units, unit.parentUnitId, k) != Some(target)
      decreases units.Keys - seen, current.Some?
    {
      if current.value == target { return true; }
      if current.value in seen {
        ghost var k :| 0 <= k < n && Ancestor(units, unit.parentUnitId, k) == Some(current.value);
        WalkCycled(units, unit.parentUnitId, k, n, target);
        return false;
      }
      seen := seen + {current.value};
      n := n + 1;
      if current.value !in units {
        WalkEnded(units, unit.parentUnitId, n, target);
        return false;
      }
      current := NonEmpty(units[current.value].parentUnitId);
    }
    WalkEnded(units, unit.parentUnitId, n, target);
    below := false;
  }

  // ---------------------------------------------------------------- candidates

  function UnitWithId(units: seq<TaskUnit>, id: string): Option<TaskUnit> {
    if units == [] then None
    else if units[0].unitId == id then Some(units[0])
    else UnitWithId(units[1..], id)
  }

  /** The candidates, one for each id; two different ones under one id raise. */
  function UniqueUnits(units: seq<TaskUnit>): Result<seq<TaskUnit>> {
    if units == [] then Ok([])
    else
      var before :- UniqueUnits(units[..|units| - 1]);
      var last := units[|units| - 1];
      match UnitWithId(before, last.unitId)
      case None => Ok(before + [last])
      case Some(same) => if same == last then Ok(before) else Err(CandidateConflict)
  }

  lemma {:induction false} UnitConflictStays(units: seq<TaskUnit>, n: nat)
    requires n <= |units| && UniqueUnits(units[..n]).Err?
    ensures UniqueUnits(units) == UniqueUnits(units[..n])
  {
    if n == |units| {
      assert units[..n] == units;
    } else {
      assert units[..|units| - 1][..n] == units[..n];
      UnitConflictStays(units[..|units| - 1], n);
    }
  }

  method CollectUnits(units: seq<TaskUnit>) returns (r: Result<seq<TaskUnit>>)
    ensures r == UniqueUnits(units)
  {
    var kept: seq<TaskUnit> := [];
    for i := 0 to |units|
      invariant UniqueUnits(units[..i]) == Ok(kept)
    {
      assert units[..i + 1][..i] == units[..i];
      var same := UnitWithId(kept, units[i].unitId);
      if same.None? {
        kept := kept + [units[i]];
      } else if same.value != units[i] {
        UnitConflictStays(units, i + 1);
        return Err(CandidateConflict);
      }
    }
    assert units[..|units|] == units;
    r := Ok(kept);
  }

  ghost predicate UnitIdsOnce(units: seq<TaskUnit>) {
    forall i, j :: 0 <= i < j < |units| ==> units[i].unitId != units[j].unitId
  }

  lemma {:induction false} UnitWithIdFinds(units: seq<TaskUnit>, id: string)
    ensures UnitWithId(units, id).Some? <==> exists u :: u in units && u.unitId == id
    ensures UnitWithId(units, id).Some? ==>
      UnitWithId(units, id).value in units && UnitWithId(units, id).value.unitId == id
  {
    if units != [] {
      UnitWithIdFinds(units[1..], id);
      assert units == [units[0]] + units[1..];
      assert forall u :: u in units <==> u == units[0] || u in units[1..];
    }
  }

  lemma {:induction false} UniqueUnitsOnce(units: seq<TaskUnit>)
    requires UniqueUnits(units).Ok?
    ensures UnitIdsOnce(UniqueUnits(units).value)
    ensures forall u :: u in UniqueUnits(units).value <==> u in units
  {
    if units != [] {
      var n := |units| - 1;
      var before := UniqueUnits(units[..n]).value;
      UniqueUnitsOnce(units[..n]);
      UnitWithIdFinds(before, units[n].unitId);
      assert units == units[..n] + [units[n]];
      assert forall u :: u in units <==> u in units[..n] || u == units[n];
    }
  }

  function UnitMap(units: seq<TaskUnit>): map<string, TaskUnit> {
    if units == [] then map[] else UnitMap(units[..|units| - 1])[units[|units| - 1].unitId := units[|units| - 1]]
  }

  function ByUnitId(a: TaskUnit, b: TaskUnit): bool {
    StringLe(a.unitId, b.unitId)
  }

  function CanonicalUnitIds(log: Events): set<string> {
    set e | e in log && e.Payload().CanonicalBound? && |e.Payload().selection.unitId| > 0 ::
      e.Payload().selection.unitId
  }

  function SettledUnitIds(log: Events): set<string> {
    set e | e in log && e.Payload().ContributionChanged? && e.Payload().contribution.state.Settled?
      :: e.Payload().contribution.unitId
  }

  /** Completed, or its outputs are canonical or paid for. */
  predicate Protected(unit: TaskUnit, canonical: set<string>, settled: set<string>) {
    unit.state.Completed? || unit.canonicalOutputRefs != map[] || unit.unitId in canonical || unit.unitId in settled
  }

  predicate CancellableState(state: TaskState) {
    state.Ready? || state.Processing? || state.Blocked?
  }

  predicate Cancellable(unit: TaskUnit, canonical: set<string>, settled: set<string>) {
    CancellableState(unit.state) && !Protected(unit, canonical, settled)
  }

  ghost predicate DescendantOf(unit: TaskUnit, taskId: string, parentId: string, units: map<string, TaskUnit>) {
    unit.taskId == taskId && Below(units, unit.parentUnitId, parentId)
  }

  /** The task's descendants among the candidates, in order. */
  ghost function Descendants(sorted: seq<TaskUnit>, taskId: string, parentId: string,
                             units: map<string, TaskUnit>): seq<TaskUnit>
  {
    if sorted == [] then []
    else
      var before := Descendants(sorted[..|sorted| - 1], taskId, parentId, units);
      var last := sorted[|sorted| - 1];
      if DescendantOf(last, taskId, parentId, units) then before + [last] else before
  }

  function CancellableOf(units: seq<TaskUnit>, canonical: set<string>, settled: set<string>): seq<TaskUnit> {
    if units == [] then []
    else
      var before := CancellableOf(units[..|units| - 1], canonical, settled);
      var last := units[|units| - 1];
      if Cancellable(last, canonical, settled) then before + [last] else before
  }

  lemma {:induction false} CancellableMembers(units: seq<TaskUnit>, canonical: set<string>, settled: set<string>)
    ensures forall u ::
      u in CancellableOf(units, canonical, settled) <==> u in units && Cancellable(u, canonical, settled)
    ensures |CancellableOf(units, canonical, settled)| <= |units|
  {
    if units != [] {
      CancellableMembers(units[..|units| - 1], canonical, settled);
      assert units == units[..|units| - 1] + [units[|units| - 1]];
    }
  }

  lemma {:induction false} DescendantMembers(sorted: seq<TaskUnit>, taskId: string, parentId: string,
                                             units: map<string, TaskUnit>)
    ensures forall u :: u in Descendants(sorted, taskId, parentId, units) <==>
      u in sorted && DescendantOf(u, taskId, parentId, units)
  {
    if sorted != [] {
      DescendantMembers(sorted[..|sorted| - 1], taskId, parentId, units);
      assert sorted == sorted[..|sorted| - 1] + [sorted[|sorted| - 1]];
    }
  }

  /** What is cancelled and how many descendants are kept. */
  datatype Candidates = Candidates(cancellable: seq<TaskUnit>, preserved: int)

  ghost function CandidatesFor(log: Events, taskId: string, parentId: string, units: seq<TaskUnit>): Result<Candidates>
  {
    var unique :- UniqueUnits(units);
    var below := Descendants(Sort(unique, ByUnitId), taskId, parentId, UnitMap(unique));
    var cancellable := CancellableOf(below, CanonicalUnitIds(log), SettledUnitIds(log));
    Ok(Candidates(cancellable, |below| - |cancellable|))
  }

  method SelectCandidates(log: Events, taskId: string, parentId: string, units: seq<TaskUnit>)
    returns (r: Result<Candidates>)
    ensures r == CandidatesFor(log, taskId, parentId, units)
  {
    var unique :- CollectUnits(units);
    var byId := UnitMap(unique);
    var canonical, settled := CanonicalUnitIds(log), SettledUnitIds(log);
    var sorted := Sort(unique, ByUnitId);
    var cancellable: seq<TaskUnit> := [];
    var preserved := 0;
    for i := 0 to |sorted|
      invariant cancellable == CancellableOf(Descendants(sorted[..i], taskId, parentId, byId), canonical, settled)
      invariant preserved == |Descendants(sorted[..i], taskId, parentId, byId)| - |cancellable|
    {
      assert sorted[..i + 1][..i] == sorted[..i];
      ghost var before := Descendants(sorted[..i], taskId, parentId, byId);
      assert (before + [sorted[i]])[..|before|] == before;
      if sorted[i].taskId != taskId { continue; }
      var below := IsDescendant(sorted[i], parentId, byId);
      if !below { continue; }
      if Cancellable(sorted[i], canonical, settled) {
        cancellable := cancellable + [sorted[i]];
      } else {
        preserved := preserved + 1;
      }
    }
    assert sorted[..|sorted|] == sorted;
    r := Ok(Candidates(cancellable, preserved));
  }

  lemma {:induction false} SortedUniqueMembers(units: seq<TaskUnit>, u: TaskUnit)
    requires UniqueUnits(units).Ok?
    ensures u in Sort(UniqueUnits(units).value, ByUnitId) <==> u in units
  {
    UniqueUnitsOnce(units);
    SortMultiset(UniqueUnits(units).value, ByUnitId);
  }

  lemma {:induction false} CancelledUnit(log: Events, taskId: string, parentId: string, units: seq<TaskUnit>,
                                         u: TaskUnit)
    requires CandidatesFor(log, taskId, parentId, units).Ok?
    ensures u in CandidatesFor(log, taskId, parentId, units).value.cancellable <==>
      (u in units && DescendantOf(u, taskId, parentId, UnitMap(UniqueUnits(units).value))
       && Cancellable(u, CanonicalUnitIds(log), SettledUnitIds(log)))
  {
    var sorted, byId := Sort(UniqueUnits(units).value, ByUnitId), UnitMap(UniqueUnits(units).value);
    SortedUniqueMembers(units, u);
    DescendantMembers(sorted, taskId, parentId, byId);
    CancellableMembers(Descendants(sorted, taskId, parentId, byId), CanonicalUnitIds(log), SettledUnitIds(log));
  }

  /**
   * Pruning cancels exactly the unprotected Ready, Processing and Blocked descendants; with the
   * preserved ones they are all of the task's descendants, and no cancellation is an illegal transition.
   */
  lemma {:induction false} CandidatesAreComplete(log: Events, taskId: string, parentId: string, units: seq<TaskUnit>,
                                                 now: string)
    requires CandidatesFor(log, taskId, parentId, units).Ok?
    ensures var c := CandidatesFor(log, taskId, parentId, units).value;
      var byId := UnitMap(UniqueUnits(units).value);
      && (forall u :: u in c.cancellable <==>
            (u in units && DescendantOf(u, taskId, parentId, byId)
             && CancellableState(u.state) && !Protected(u, CanonicalUnitIds(log), SettledUnitIds(log))))
      && |c.cancellable| + c.preserved == |Descendants(Sort(UniqueUnits(units).value, ByUnitId), taskId, parentId,
                                                       byId)|
      && c.preserved >= 0
      && (forall u :: u in c.cancellable ==> TransitionUnit(u, TaskState.Cancelled, now).Ok?)
  {
    var c, byId := CandidatesFor(log, taskId, parentId, units).value, UnitMap(UniqueUnits(units).value);
    forall u: TaskUnit
      ensures u in c.cancellable <==>
        (u in units && DescendantOf(u, taskId, parentId, byId)
         && CancellableState(u.state) && !Protected(u, CanonicalUnitIds(log), SettledUnitIds(log)))
    {
      CancelledUnit(log, taskId, parentId, units, u);
    }
    CancellableMembers(Descendants(Sort(UniqueUnits(units).value, ByUnitId), taskId, parentId, byId),
                       CanonicalUnitIds(log), SettledUnitIds(log));
  }

  // ---------------------------------------------------------------- the pruning batch

  datatype PruneRequest = PruneRequest(
    parentUnitId: string,
    completionSeq: int,
    candidates: seq<TaskUnit>,
    policy: PruningPolicy,
    policyDeclared: bool,
    now: string)

  function UnitIdsOf(units: seq<TaskUnit>): seq<string> {
    seq(|units|, i requires 0 <= i < |units| => units[i].unitId)
  }

  function PruneRecordOf(request: PruneRequest, taskId: string, c: Candidates): SubtreePruneRecord {
    SubtreePruneRecord(taskId, request.parentUnitId, request.completionSeq, request.policy, |c.cancellable|,
                       Sort(UnitIdsOf(c.cancellable), StringLe), c.preserved, request.now)
  }

  function CancelDraft(unit: TaskUnit, request: PruneRequest): Draft {
    Draft(UnitStateKey(unit.unitId, unit.state, TaskState.Cancelled, ByPruning(request.completionSeq)),
          UnitChanged(unit.state, unit.(state := TaskState.Cancelled, updatedAt := request.now),
                      PrunedBy(request.parentUnitId, request.completionSeq)), request.now)
  }

  function PruneDrafts(request: PruneRequest, taskId: string, c: Candidates): (drafts: seq<Draft>)
    ensures |drafts| == |c.cancellable| + 1
  {
    seq(|c.cancellable|, i requires 0 <= i < |c.cancellable| => CancelDraft(c.cancellable[i], request))
    + [Draft(PrunedKey(request.parentUnitId, request.completionSeq),
             SubtreePruned(PruneRecordOf(request, taskId, c), UnitIdsOf(c.cancellable)), request.now)]
  }

  function CancelledIds(batch: Events): seq<string>
    requires forall k :: 0 <= k < |batch| ==> batch[k].Payload().UnitChanged?
  {
    seq(|batch|, k requires 0 <= k < |batch| => batch[k].Payload().unit.unitId)
  }

  /** `_validate_existing_subtree_pruning_batch`. */
  function ValidatePruning(batch: Events, parentId: string,
                           completionSeq: int): Result<(SubtreePruneRecord, seq<string>)>
  {
    if !IsPruningBatch(batch) then Err(TornPruning)
    else
      var ids, record := CancelledIds(batch[..|batch| - 1]), batch[|batch| - 1].Payload().prune;
      :- Check(record.parentUnitId == parentId && record.completionSeq == completionSeq
               && record.cancelledCount == |ids| && record.cancelledIdsDigest == Sort(ids, StringLe),
               PruningMarkerMismatch);
      Ok((record, ids))
  }

  ghost function PruningEvents(base: nat, request: PruneRequest, taskId: string, c: Candidates): (batch: Events)
    ensures |batch| == |c.cancellable| + 1
  {
    Stamp(base, PruningBatch(request.parentUnitId, request.completionSeq), PruneDrafts(request, taskId, c))
  }

  ghost predicate Cancelling(c: Candidates) {
    c.cancellable != [] && forall u :: u in c.cancellable ==> CancellableState(u.state)
  }

  /** Every batch the engine writes passes the validator that reads prunings back. */
  lemma {:induction false} PruningPassesReplay(base: nat, request: PruneRequest, taskId: string, c: Candidates)
    requires Cancelling(c)
    ensures ValidatePruning(PruningEvents(base, request, taskId, c), request.parentUnitId, request.completionSeq)
      == Ok((PruneRecordOf(request, taskId, c), UnitIdsOf(c.cancellable)))
  {
    var batch := PruningEvents(base, request, taskId, c);
    forall k | 0 <= k < |batch| - 1 ensures IsCancellation(batch[k]) {
      assert c.cancellable[k] in c.cancellable;
    }
    assert CancelledIds(batch[..|batch| - 1]) == UnitIdsOf(c.cancellable);
  }

  /** The pruning recogniser accepts the batch in any order and rejects every torn part of it. */
  lemma {:induction false} TornPruningIsSeen(events: Events, base: nat, request: PruneRequest, taskId: string,
                                             c: Candidates)
    requires Cancelling(c)
    requires EventsOf(events, PruningBatch(request.parentUnitId, request.completionSeq)) != []
    requires PieceOf(EventsOf(events, PruningBatch(request.parentUnitId, request.completionSeq)),
                     PruningEvents(base, request, taskId, c))
    ensures PruningBatchComplete(events, PruningBatch(request.parentUnitId, request.completionSeq))
      <==> AllOf(EventsOf(events, PruningBatch(request.parentUnitId, request.completionSeq)),
                 PruningEvents(base, request, taskId, c))
  {
    var id := PruningBatch(request.parentUnitId, request.completionSeq);
    PruningPassesReplay(base, request, taskId, c);
    OnlyWholeIsNumbered(EventsOf(events, id), base, id, PruneDrafts(request, taskId, c));
  }

  // ---------------------------------------------------------------- the step

  predicate IsPruneMarker(e: Event, parentId: string, completionSeq: int) {
    e.Payload().SubtreePruned? && e.Payload().prune.parentUnitId == parentId
      && e.Payload().prune.completionSeq == completionSeq
  }

  function PruneMarkerTest(parentId: string, completionSeq: int): Event -> bool {
    (e: Event) => IsPruneMarker(e, parentId, completionSeq)
  }

  function PruneMarkers(log: Events, parentId: string, completionSeq: int): Events {
    Matching(log, PruneMarkerTest(parentId, completionSeq))
  }

  /** `_existing_subtree_pruning`. */
  ghost function ExistingPruning(log: Events, parentId: string, completionSeq: int)
    : Result<Option<(SubtreePruneRecord, seq<string>)>>
  {
    var id, markers := PruningBatch(parentId, completionSeq), PruneMarkers(log, parentId, completionSeq);
    if markers == [] && !HasBatch(log, id) then Ok(None)
    else if |markers| > 1 then Err(PruningConflict)
    else if markers != [] && !markers[0].InBatch(id) then Err(PruningConflict)
    else
      var found :- ValidatePruning(BatchOf(log, id), parentId, completionSeq);
      Ok(Some(found))
  }

  /** The parent's completion event, by its position. */
  function CompletedParent(log: Events, parentId: string, completionSeq: int): Result<TaskUnit> {
    if 1 <= completionSeq <= |log| then
      var p := log[completionSeq - 1].Payload();
      if p.UnitChanged? && p.unit.unitId == parentId && p.unit.state.Completed?
         && (p.cause.DecisionAccepted? || p.cause.OutputsResolved?) then Ok(p.unit)
      else Err(CompletionMissing)
    else Err(CompletionMissing)
  }

  /** The policy's merge plan is on record for this task and parent. */
  predicate PolicyRecorded(log: Events, policy: PruningPolicy, taskId: string, parentId: string) {
    && 1 <= policy.sourceSeq <= |log|
    && var p := log[policy.sourceSeq - 1].Payload();
       p.MergePlanRecorded? && p.plan.taskId == taskId && p.plan.parentUnitId == parentId && PlanOk(p.plan)
  }

  /** A pruning on record is answered, not repeated, and only when it is the one requested. */
  function PruneAgain(existing: (SubtreePruneRecord, seq<string>), request: PruneRequest, taskId: string,
                      c: Candidates): Result<seq<Write>>
  {
    if existing == (PruneRecordOf(request, taskId, c), UnitIdsOf(c.cancellable)) then Ok([])
    else Err(PruningConflict)
  }

  ghost function PruneWrites(log: Events, request: PruneRequest): Result<seq<Write>> {
    var parent :- CompletedParent(log, request.parentUnitId, request.completionSeq);
    :- Check(request.policyDeclared && PolicyRecorded(log, request.policy, parent.taskId, request.parentUnitId),
             PolicyMismatch);
    var c :- CandidatesFor(log, parent.taskId, request.parentUnitId, request.candidates);
    var existing :- ExistingPruning(log, request.parentUnitId, request.completionSeq);
    if existing.Some? then PruneAgain(existing.value, request, parent.taskId, c)
    else if c.cancellable == [] then Ok([])
    else Ok([Batch(PruningBatch(request.parentUnitId, request.completionSeq), PruneDrafts(request, parent.taskId, c))])
  }

  /** Pruning markers carry the key of their parent completion. */
  ghost predicate PruneMarkersKeyed(log: Events) {
    forall i :: 0 <= i < |log| && log[i].Payload().SubtreePruned? ==>
      log[i].Key() == PrunedKey(log[i].Payload().prune.parentUnitId, log[i].Payload().prune.completionSeq)
  }

  lemma {:induction false} OnlyPruneMarker(log: Events, parentId: string, completionSeq: int, i: nat)
    requires KeysUnique(log) && PruneMarkersKeyed(log) && i < |log| && IsPruneMarker(log[i], parentId, completionSeq)
    ensures PruneMarkers(log, parentId, completionSeq) == [log[i]]
  {
    OnlyMatch(log, PruneMarkerTest(parentId, completionSeq), PrunedKey(parentId, completionSeq), i);
  }

  lemma {:induction false} FoundPruning(log: Events, parentId: string, completionSeq: int, marker: Event,
                                        found: (SubtreePruneRecord, seq<string>))
    requires PruneMarkers(log, parentId, completionSeq) == [marker]
      && marker.InBatch(PruningBatch(parentId, completionSeq))
    requires ValidatePruning(BatchOf(log, PruningBatch(parentId, completionSeq)), parentId, completionSeq) == Ok(found)
    ensures ExistingPruning(log, parentId, completionSeq) == Ok(Some(found))
  {
  }

  lemma {:induction false} LastIsPruneMarker(base: nat, request: PruneRequest, taskId: string, c: Candidates)
    ensures var e := PruningEvents(base, request, taskId, c)[|c.cancellable|];
      IsPruneMarker(e, request.parentUnitId, request.completionSeq)
      && e.InBatch(PruningBatch(request.parentUnitId, request.completionSeq))
  {
  }

  /** The recorded pruning is found again in every later ledger. */
  lemma {:induction false} PruningIsFound(log: Events, request: PruneRequest, taskId: string, c: Candidates,
                                          later: Events)
    requires Cancelling(c) && !HasBatch(log, PruningBatch(request.parentUnitId, request.completionSeq))
    requires log + PruningEvents(|log|, request, taskId, c) <= later && WellFormed(later) && PruneMarkersKeyed(later)
    ensures ExistingPruning(later, request.parentUnitId, request.completionSeq)
      == Ok(Some((PruneRecordOf(request, taskId, c), UnitIdsOf(c.cancellable))))
  {
    var id := PruningBatch(request.parentUnitId, request.completionSeq);
    var at := |log| + |c.cancellable|;
    BatchStaysReadable(log, id, PruneDrafts(request, taskId, c), later);
    PruningPassesReplay(|log|, request, taskId, c);
    LastIsPruneMarker(|log|, request, taskId, c);
    assert later[at] == PruningEvents(|log|, request, taskId, c)[|c.cancellable|];
    OnlyPruneMarker(later, request.parentUnitId, request.completionSeq, at);
    FoundPruning(later, request.parentUnitId, request.completionSeq, later[at],
                 (PruneRecordOf(request, taskId, c), UnitIdsOf(c.cancellable)));
  }

  lemma {:induction false} PruneOnRecord(log: Events, request: PruneRequest, parent: TaskUnit, c: Candidates,
                                         existing: (SubtreePruneRecord, seq<string>))
    requires request.policyDeclared && CompletedParent(log, request.parentUnitId, request.completionSeq) == Ok(parent)
    requires PolicyRecorded(log, request.policy, parent.taskId, request.parentUnitId)
    requires CandidatesFor(log, parent.taskId, request.parentUnitId, request.candidates) == Ok(c)
    requires ExistingPruning(log, request.parentUnitId, request.completionSeq) == Ok(Some(existing))
    ensures PruneWrites(log, request) == PruneAgain(existing, request, parent.taskId, c)
  {
  }

  lemma {:induction false} PruneAgainAgrees(was: PruneRequest, c: Candidates, again: PruneRequest, d: Candidates,
                                            taskId: string)
    requires again.parentUnitId == was.parentUnitId && again.completionSeq == was.completionSeq
    ensures PruneAgain((PruneRecordOf(was, taskId, c), UnitIdsOf(c.cancellable)), again, taskId, d)
      == if again.now == was.now && again.policy == was.policy && d.preserved == c.preserved
            && UnitIdsOf(d.cancellable) == UnitIdsOf(c.cancellable)
         then Ok([]) else Err(PruningConflict)
  {
    assert |UnitIdsOf(d.cancellable)| == |d.cancellable| && |UnitIdsOf(c.cancellable)| == |c.cancellable|;
  }

  /**
   * Repeating a pruning once it is on record appends nothing exactly when the clock, the policy and the
   * candidates it selects are unchanged: unlike a settlement, the same request at another time conflicts.
   */
  lemma {:induction false} PruningReplays(log: Events, request: PruneRequest, taskId: string, c: Candidates,
                                          later: Events, again: PruneRequest,
                       parent: TaskUnit, d: Candidates)
    requires Cancelling(c) && !HasBatch(log, PruningBatch(request.parentUnitId, request.completionSeq))
    requires log + PruningEvents(|log|, request, taskId, c) <= later && WellFormed(later) && PruneMarkersKeyed(later)
    requires again.parentUnitId == request.parentUnitId && again.completionSeq == request.completionSeq
      && again.policyDeclared
    requires CompletedParent(later, again.parentUnitId, again.completionSeq) == Ok(parent) && parent.taskId == taskId
    requires PolicyRecorded(later, again.policy, taskId, again.parentUnitId)
    requires CandidatesFor(later, taskId, again.parentUnitId, again.candidates) == Ok(d)
    ensures PruneWrites(later, again).Ok? <==>
      (again.now == request.now && again.policy == request.policy && d.preserved == c.preserved
       && UnitIdsOf(d.cancellable) == UnitIdsOf(c.cancellable))
    ensures PruneWrites(later, again).Ok? ==> PruneWrites(later, again) == Ok([])
  {
    PruningIsFound(log, request, taskId, c, later);
    PruneOnRecord(later, again, parent, d, (PruneRecordOf(request, taskId, c), UnitIdsOf(c.cancellable)));
    PruneAgainAgrees(request, c, again, d, taskId);
  }

  // ---------------------------------------------------------------- the same pruning asked again

  lemma {:induction false} ProtectionGrows(log: Events, later: Events)
    requires log <= later
    ensures CanonicalUnitIds(log) <= CanonicalUnitIds(later) && SettledUnitIds(log) <= SettledUnitIds(later)
  {
    forall e | e in log ensures e in later {
      var i :| 0 <= i < |log| && log[i] == e;
      assert later[i] == e;
    }
  }

  predicate Spared(units: seq<TaskUnit>, canonical: set<string>, settled: set<string>) {
    forall u :: u in units ==> u.unitId !in canonical && u.unitId !in settled
  }

  /** More protection cancels fewer units, and the same ones only if it spares them all. */
  lemma {:induction false} CancellableShrinks(units: seq<TaskUnit>, canonical: set<string>, settled: set<string>,
                                              canonicalNow: set<string>, settledNow: set<string>)
    requires canonical <= canonicalNow && settled <= settledNow
    ensures var before, after := CancellableOf(units, canonical, settled),
      CancellableOf(units, canonicalNow, settledNow);
      if Spared(before, canonicalNow, settledNow) then after == before else |after| < |before|
  {
    if units != [] {
      var n := |units| - 1;
      CancellableShrinks(units[..n], canonical, settled, canonicalNow, settledNow);
      var before := CancellableOf(units[..n], canonical, settled);
      if Cancellable(units[n], canonical, settled) {
        assert forall u :: u in before + [units[n]] <==> u in before || u == units[n];
      }
    }
  }

  lemma {:induction false} CandidatesShrink(log: Events, later: Events, taskId: string, parentId: string,
                                            units: seq<TaskUnit>)
    requires log <= later && CandidatesFor(log, taskId, parentId, units).Ok?
    ensures CandidatesFor(later, taskId, parentId, units).Ok?
    ensures var c, d := CandidatesFor(log, taskId, parentId, units).value,
      CandidatesFor(later, taskId, parentId, units).value;
      if Spared(c.cancellable, CanonicalUnitIds(later), SettledUnitIds(later)) then d == c
      else |d.cancellable| < |c.cancellable|
  {
    var unique := UniqueUnits(units).value;
    ProtectionGrows(log, later);
    CancellableShrinks(Descendants(Sort(unique, ByUnitId), taskId, parentId, UnitMap(unique)), CanonicalUnitIds(log),
                       SettledUnitIds(log), CanonicalUnitIds(later), SettledUnitIds(later));
  }

  /** The request cancelled these units on `log`, and `next` is the ledger right after it. */
  ghost predicate PruningStep(log: Events, q: PruneRequest, parent: TaskUnit, c: Candidates, next: Events) {
    && CompletedParent(log, q.parentUnitId, q.completionSeq) == Ok(parent)
    && PolicyRecorded(log, q.policy, parent.taskId, q.parentUnitId)
    && CandidatesFor(log, parent.taskId, q.parentUnitId, q.candidates) == Ok(c)
    && Cancelling(c) && !HasBatch(log, PruningBatch(q.parentUnitId, q.completionSeq))
    && next == log + PruningEvents(|log|, q, parent.taskId, c)
  }

  lemma {:induction false} PruneRefused(log: Events, q: PruneRequest, parent: TaskUnit)
    requires CompletedParent(log, q.parentUnitId, q.completionSeq) == Ok(parent)
    requires !q.policyDeclared || !PolicyRecorded(log, q.policy, parent.taskId, q.parentUnitId)
    ensures PruneWrites(log, q).Err?
  {
  }

  /**
   * Asking for the same pruning of the same candidates again succeeds, appending nothing, exactly when the policy
   * and the clock are those of the first request and no unit cancelled then has since become canonical or settled.
   */
  lemma {:induction false} PruningRepeats(log: Events, q: PruneRequest, parent: TaskUnit, c: Candidates, next: Events,
                                          later: Events, again: PruneRequest)
    requires PruningStep(log, q, parent, c, next) && next <= later && WellFormed(later) && PruneMarkersKeyed(later)
    requires again.parentUnitId == q.parentUnitId && again.completionSeq == q.completionSeq
    requires again.candidates == q.candidates
    ensures PruneWrites(later, again).Ok? <==>
      (again.policyDeclared && again.policy == q.policy && again.now == q.now
       && Spared(c.cancellable, CanonicalUnitIds(later), SettledUnitIds(later)))
    ensures PruneWrites(later, again).Ok? ==> PruneWrites(later, again) == Ok([])
  {
    var d := CandidatesFor(later, parent.taskId, q.parentUnitId, q.candidates);
    CandidatesShrink(log, later, parent.taskId, q.parentUnitId, q.candidates);
    assert CompletedParent(later, q.parentUnitId, q.completionSeq) == Ok(parent);
    assert PolicyRecorded(later, q.policy, parent.taskId, q.parentUnitId);
    if again.policyDeclared && PolicyRecorded(later, again.policy, parent.taskId, q.parentUnitId) {
      PruningReplays(log, q, parent.taskId, c, later, again, parent, d.value);
      assert |UnitIdsOf(d.value.cancellable)| == |d.value.cancellable|;
      assert |UnitIdsOf(c.cancellable)| == |c.cancellable|;
    } else {
      PruneRefused(later, again, parent);
    }
  }
}
