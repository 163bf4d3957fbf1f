/**
 * Merge tasks (src/tokenshare/core/merge_coordinator.py) and merge resolutions
 * (src/tokenshare/protocol_engine.py:1124-1163, 3223-3569).
 */
module Merging {
  import opened Basics
  import opened Objects
  import opened Order
  import opened Ledger
  import opened Batches

  const CANONICAL_OUTPUT := "canonical_output"

  // ---------------------------------------------------------------- binding slots

  /** The last canonical event presented for each unit. */
  function CanonicalByUnit(events: Events): map<string, Event> {
    if events == [] then map[]
    else
      var before := CanonicalByUnit(events[..|events| - 1]);
      var last := events[|events| - 1];
      if last.Payload().CanonicalBound? then before[last.Payload().selection.unitId := last] else before
  }

  method CollectCanonical(events: Events) returns (byUnit: map<string, Event>)
    ensures byUnit == CanonicalByUnit(events)
  {
    byUnit := map[];
    for i := 0 to |events|
      invariant byUnit == CanonicalByUnit(events[..i])
    {
      assert events[..i + 1][..i] == events[..i];
      if events[i].Payload().CanonicalBound? {
        byUnit := byUnit[events[i].Payload().selection.unitId := events[i]];
      }
    }
    assert events[..|events|] == events;
  }

  lemma {:induction false} CanonicalByUnitFinds(events: Events, unitId: string)
    ensures unitId in CanonicalByUnit(events) ==>
      var e := CanonicalByUnit(events)[unitId];
      e in events && e.Payload().CanonicalBound? && e.Payload().selection.unitId == unitId
    ensures unitId in CanonicalByUnit(events) <==>
      exists e :: e in events && e.Payload().CanonicalBound? && e.Payload().selection.unitId == unitId
  {
    if events != [] {
      var n := |events| - 1;
      CanonicalByUnitFinds(events[..n], unitId);
      assert events == events[..n] + [events[n]];
      assert forall e :: e in events <==> e in events[..n] || e == events[n];
    }
  }

  /** The slot's child has a canonical output of the slot's name. */
  predicate SlotReady(slot: RequiredSlot, byUnit: map<string, Event>) {
    && slot.childUnitId in byUnit && byUnit[slot.childUnitId].Payload().CanonicalBound?
    && var refs := byUnit[slot.childUnitId].Payload().selection.outputRefs;
       slot.outputName in refs && refs[slot.outputName].artifactType == CANONICAL_OUTPUT
  }

  function BindingOf(slot: RequiredSlot, byUnit: map<string, Event>): SlotBinding
    requires SlotReady(slot, byUnit)
  {
    var e := byUnit[slot.childUnitId];
    var s := e.Payload().selection;
    SlotBinding(slot.slotKey, slot.childUnitId, slot.outputName, s.selectionId, e.seqNo,
                s.outputRefs[slot.outputName], s.bundleDigest, s.reportId, s.attemptId)
  }

  /** Without a selection every slot counts, else only the slots of selected children. */
  predicate Wanted(slot: RequiredSlot, selected: Option<set<string>>) {
    selected.None? || slot.childUnitId in selected.value
  }

  function WantedSlots(slots: seq<RequiredSlot>, selected: Option<set<string>>): seq<RequiredSlot> {
    if slots == [] then []
    else
      var before := WantedSlots(slots[..|slots| - 1], selected);
      var last := slots[|slots| - 1];
      if Wanted(last, selected) then before + [last] else before
  }

  lemma {:induction false} WantedMembers(slots: seq<RequiredSlot>, selected: Option<set<string>>)
    ensures forall s :: s in WantedSlots(slots, selected) <==> s in slots && Wanted(s, selected)
    ensures selected.None? ==> WantedSlots(slots, selected) == slots
  {
    if slots != [] {
      var n := |slots| - 1;
      WantedMembers(slots[..n], selected);
      assert slots == slots[..n] + [slots[n]];
    }
  }

  /** Bindings exist for exactly the wanted slots, and every selected child is bound. */
  ghost predicate Bindable(slots: seq<RequiredSlot>, byUnit: map<string, Event>, selected: Option<set<string>>) {
    && (forall s :: s in slots && Wanted(s, selected) ==> SlotReady(s, byUnit))
    && (selected.Some? ==> forall c :: c in selected.value ==> exists s :: s in slots && s.childUnitId == c)
  }

  /** The bindings are those of the wanted slots, in the plan's order. */
  ghost predicate Binds(bindings: seq<SlotBinding>, slots: seq<RequiredSlot>, byUnit: map<string, Event>,
                        selected: Option<set<string>>) {
    var wanted := WantedSlots(slots, selected);
    && |bindings| == |wanted|
    && forall i :: 0 <= i < |wanted| ==> SlotReady(wanted[i], byUnit) && bindings[i] == BindingOf(wanted[i], byUnit)
  }

  /**
   * `_build_required_slot_bindings`: succeeds exactly when every required slot is canonical, or, given a
   * selection, when exactly the selected children can be bound.
   */
  method BuildSlotBindings(slots: seq<RequiredSlot>, byUnit: map<string, Event>, selected: Option<set<string>>)
    returns (r: Result<seq<SlotBinding>>)
    ensures r.Ok? <==> Bindable(slots, byUnit, selected)
    ensures r.Ok? ==> Binds(r.value, slots, byUnit, selected)
    ensures r.Ok? && selected.Some? ==> Elements(BoundChildren(r.value)) == selected.value
  {
    var bindings: seq<SlotBinding> := [];
    for i := 0 to |slots|
      invariant Binds(bindings, slots[..i], byUnit, selected)
    {
      assert slots[..i + 1][..i] == slots[..i];
      if selected.Some? && slots[i].childUnitId !in selected.value { continue; }
      if !SlotReady(slots[i], byUnit) { return Err(SlotsNotCanonical); }
      bindings := bindings + [BindingOf(slots[i], byUnit)];
    }
    assert slots[..|slots|] == slots;
    WantedMembers(slots, selected);
    BoundAreWanted(bindings, slots, byUnit, selected);
    if selected.Some? {
      var bound := Elements(BoundChildren(bindings));
      if selected.value - bound != {} {
        var c :| c in selected.value - bound;
        return Err(SelectionLeavesSlots);
      }
      forall c | c in selected.value ensures c in bound { assert c !in selected.value - bound; }
    }
    r := Ok(bindings);
  }

  function BoundChildren(bindings: seq<SlotBinding>): seq<string> {
    seq(|bindings|, i requires 0 <= i < |bindings| => bindings[i].childUnitId)
  }

  lemma {:induction false} BoundAreWanted(bindings: seq<SlotBinding>, slots: seq<RequiredSlot>,
                                          byUnit: map<string, Event>,
                       selected: Option<set<string>>)
    requires Binds(bindings, slots, byUnit, selected)
    ensures forall c ::
      c in BoundChildren(bindings) <==> exists s :: s in WantedSlots(slots, selected) && s.childUnitId == c
    ensures forall s :: s in WantedSlots(slots, selected) ==> SlotReady(s, byUnit)
  {
    var wanted := WantedSlots(slots, selected);
    forall c ensures c in BoundChildren(bindings) <==> exists s :: s in wanted && s.childUnitId == c {
      if c in BoundChildren(bindings) {
        var i :| 0 <= i < |bindings| && BoundChildren(bindings)[i] == c;
        assert wanted[i] in wanted && wanted[i].childUnitId == c;
      }
      if s :| s in wanted && s.childUnitId == c {
        var i :| 0 <= i < |wanted| && wanted[i] == s;
        assert BoundChildren(bindings)[i] == c;
      }
    }
  }

  // ---------------------------------------------------------------- the merge task

  function BySlot(a: SlotBinding, b: SlotBinding): bool {
    StringLe(a.slotKey, b.slotKey)
  }

  function MergeUnitId(planId: string): string { "merge_unit:" + planId }

  function MergeLinkOf(plan: MergePlan, bindings: seq<SlotBinding>): MergeTaskLink {
    MergeTaskLink("merge_task_link:" + plan.mergePlanId, plan.taskId, plan.parentUnitId, plan.mergePlanId,
                  MergeUnitId(plan.mergePlanId),
                  MergeInputBundle(plan.mergePlanId, plan.parentUnitId, bindings, plan.parentOutputMapping),
                  Sort(bindings, BySlot))
  }

  function MergeUnitOf(plan: MergePlan, parentDepth: int, bundleRef: ArtifactRef, now: string): TaskUnit {
    TaskUnit(MergeUnitId(plan.mergePlanId), plan.taskId, Some(plan.parentUnitId), parentDepth + 1, "merge",
             TaskState.Ready,
             map["merge_input_bundle" := bundleRef], map[], [("executor", Str("local"))], now, now, -1)
  }

  function MergeTaskDrafts(plan: MergePlan, bindings: seq<SlotBinding>, parentDepth: int, bundleRef: ArtifactRef,
                           now: string)
    : seq<Draft>
  {
    var unit := MergeUnitOf(plan, parentDepth, bundleRef, now);
    [Draft(UnitCreateKey(unit.unitId), UnitCreated(unit), now),
     Draft(MergeLinkKey(plan.mergePlanId), MergeTaskLinked(MergeLinkOf(plan, bindings)), now)]
  }

  /** A batch as the merge coordinator is shown it. */
  datatype BatchView = BatchView(events: Events, markerVisible: bool)

  /** The expansion batch the plan came with is complete and its final marker is visible. */
  predicate ExpansionVisible(view: Option<BatchView>) {
    && view.Some? && ViewComplete(view.value.events)
    && view.value.markerVisible && view.value.events[|view.value.events| - 1].Payload().TaskExpanded?
  }

  predicate SelectionOk(selected: Option<seq<string>>) {
    selected.Some? ==> |selected.value| > 0 && Distinct(selected.value) && forall c :: c in selected.value ==> |c| > 0
  }

  // ---------------------------------------------------------------- resolving the parent's outputs

  predicate RecordOf(e: Event, recordId: string) {
    e.Payload().MergeRecorded? && e.Payload().record.recordId == recordId
  }

  /** Part of the resolution is on record, but not all of it. */
  predicate HasTornResolution(log: Events, record: MergeRecord) {
    && (exists e :: e in log && (e.InBatch(MergeResolutionBatch(record.recordId)) || RecordOf(e, record.recordId)))
    && !MergeBatchComplete(log, MergeResolutionBatch(record.recordId), record.recordId)
  }

  predicate HasOtherRecord(log: Events, record: MergeRecord) {
    exists e :: e in log && e.Payload().MergeRecorded? && e.Payload().record.mergePlanId == record.mergePlanId
                && e.Payload().record != record
  }

  predicate IsMergeCanonical(e: Event, record: MergeRecord) {
    && e.Payload().CanonicalBound?
    && e.Payload().selection.taskId == record.taskId && e.Payload().selection.unitId == record.mergeUnitId
    && e.Payload().selection.selectionId == record.selectionId
  }

  function MergeUnitCanonical(log: Events, record: MergeRecord): Result<Event> {
    if log == [] then Err(SelectionMissing)
    else if IsMergeCanonical(log[0], record) then
      if log[0].seqNo == record.canonicalSeq then Ok(log[0]) else Err(SelectionMismatch)
    else MergeUnitCanonical(log[1..], record)
  }

  lemma {:induction false} MergeUnitCanonicalFinds(log: Events, record: MergeRecord)
    requires MergeUnitCanonical(log, record).Ok?
    ensures var e := MergeUnitCanonical(log, record).value;
            e in log && IsMergeCanonical(e, record) && e.seqNo == record.canonicalSeq
  {
    if !IsMergeCanonical(log[0], record) {
      MergeUnitCanonicalFinds(log[1..], record);
      assert forall e :: e in log[1..] ==> e in log;
    }
  }

  function LinkOfPlan(log: Events, record: MergeRecord): Result<MergeTaskLink> {
    if log == [] then Err(MergeLinkMissing)
    else
      var p := log[0].Payload();
      if p.MergeTaskLinked? && p.link.mergePlanId == record.mergePlanId then
        if p.link.linkId == record.linkId then Ok(p.link) else Err(MergeLinkMismatch)
      else LinkOfPlan(log[1..], record)
  }

  predicate LinkIn(e: Event, link: MergeTaskLink) {
    e.Payload().MergeTaskLinked? && e.Payload().link == link
  }

  lemma {:induction false} LinkOfPlanFinds(log: Events, record: MergeRecord)
    requires LinkOfPlan(log, record).Ok?
    ensures var link := LinkOfPlan(log, record).value;
      link.mergePlanId == record.mergePlanId && link.linkId == record.linkId && exists e :: e in log && LinkIn(e, link)
  {
    var p := log[0].Payload();
    if p.MergeTaskLinked? && p.link.mergePlanId == record.mergePlanId {
      assert LinkIn(log[0], p.link);
    } else {
      LinkOfPlanFinds(log[1..], record);
      assert forall e :: e in log[1..] ==> e in log;
    }
  }

  predicate RecordMatchesLink(record: MergeRecord, link: MergeTaskLink) {
    && link.taskId == record.taskId && link.parentUnitId == record.parentUnitId
    && link.mergePlanId == record.mergePlanId && link.mergeUnitId == record.mergeUnitId
    && link.bundle == record.bundle && link.bindings == record.bindings
  }

  predicate BundleMatches(record: MergeRecord) {
    && record.bundle.mergePlanId == record.mergePlanId && record.bundle.parentUnitId == record.parentUnitId
    && record.bundle.parentOutputMapping != [] && record.bundle.parentOutputMapping == record.mappingDigest
  }

  predicate RecordMatchesSelection(record: MergeRecord, s: CanonicalSelection) {
    && s.selectionId == record.selectionId && s.reportId == record.reportId
    && s.verificationSeq == record.verificationSeq && s.submissionId == record.submissionId
    && s.submissionSeq == record.submissionSeq && s.attemptId == record.attemptId
    && s.bundleDigest == record.outputBundleDigest && s.outputRefs == record.outputRefs
    && forall name :: name in record.outputRefs ==> record.outputRefs[name].artifactType == CANONICAL_OUTPUT
  }

  function ResolutionIds(rs: seq<OutputResolution>): seq<string> {
    seq(|rs|, i requires 0 <= i < |rs| => rs[i].expectedOutputId)
  }

  /** The outputs the plan's mapping takes from the merge. */
  function MappedOutputs(mapping: seq<OutputMapping>): set<string> {
    set m | m in mapping && m.resolutionKind == MERGE_PLAN_OUTPUT :: m.parentOutputName
  }

  function ResolvedNames(rs: seq<OutputResolution>): set<string> {
    set r | r in rs :: r.expectedOutputName
  }

  /** The resolution takes the record's output of its own name. */
  predicate ResolutionFits(r: OutputResolution, record: MergeRecord) {
    && r.taskId == record.taskId && r.ownerUnitId == record.parentUnitId && r.recordId == record.recordId
    && r.mergePlanId == record.mergePlanId && r.mergeUnitId == record.mergeUnitId && r.selectionId == record.selectionId
    && r.expectedOutputName in record.outputRefs
    && r.outputRef == record.outputRefs[r.expectedOutputName] && r.outputDigest == r.outputRef.contentHash
  }

  method HasRepeat(ids: seq<string>) returns (repeated: bool)
    ensures repeated <==> !Distinct(ids)
  {
    var seen: set<string> := {};
    for i := 0 to |ids|
      invariant Distinct(ids[..i]) && seen == Elements(ids[..i])
    {
      assert ids[..i + 1] == ids[..i] + [ids[i]];
      OneMore(ids[..i], ids[i]);
      if ids[i] in seen {
        RepeatInPrefix(ids, i + 1);
        return true;
      }
      seen := seen + {ids[i]};
    }
    assert ids[..|ids|] == ids;
    repeated := false;
  }

  ghost function ValidateResolution(log: Events, record: MergeRecord, rs: seq<OutputResolution>): Result<()> {
    if HasTornResolution(log, record) then Err(TornResolution)
    else
      :- Check(!HasOtherRecord(log, record), MergeRecordConflict);
      var canonical :- MergeUnitCanonical(log, record);
      var link :- LinkOfPlan(log, record);
      :- Check(BundleMatches(record), MergeBundleMismatch);
      :- Check(RecordMatchesLink(record, link), MergeLinkMismatch);
      MergeUnitCanonicalFinds(log, record);
      :- Check(RecordMatchesSelection(record, canonical.Payload().selection), SelectionMismatch);
      :- Check(rs != [] && Distinct(ResolutionIds(rs)), OutputsNotResolved);
      :- Check(ResolvedNames(rs) == MappedOutputs(record.mappingDigest), OutputsNotResolved);
      :- Check(forall r :: r in rs ==> ResolutionFits(r, record), ResolutionMismatch);
      Ok(())
  }

  lemma {:induction false} ValidResolutionsFit(log: Events, record: MergeRecord, rs: seq<OutputResolution>)
    requires ValidateResolution(log, record, rs).Ok?
    ensures forall r :: r in rs ==> ResolutionFits(r, record)
  {
  }

  function ResolutionDraft(r: OutputResolution, record: MergeRecord, resolvedAt: string): Draft {
    Draft(ResolvedKey(r.expectedOutputId, record.recordId), OutputResolved(r), resolvedAt)
  }

  function ResolutionDrafts(record: MergeRecord, rs: seq<OutputResolution>, now: string): (drafts: seq<Draft>)
    ensures |drafts| == |rs| + 1
  {
    [Draft(MergeRecordKey(record.mergePlanId, record.mergeUnitId, record.selectionId), MergeRecorded(record), now)]
    + seq(|rs|, i requires 0 <= i < |rs| => ResolutionDraft(rs[i], record, now))
  }

  /** The resolution recogniser accepts the batch in any order and rejects every torn part of it. */
  lemma {:induction false} TornResolutionIsSeen(events: Events, base: nat, record: MergeRecord,
                                                rs: seq<OutputResolution>, now: string)
    requires rs != []
    requires var id := MergeResolutionBatch(record.recordId);
      EventsOf(events, id) != [] && PieceOf(EventsOf(events, id), Stamp(base, id, ResolutionDrafts(record, rs, now)))
    ensures var id := MergeResolutionBatch(record.recordId);
      var whole := Stamp(base, id, ResolutionDrafts(record, rs, now));
      MergeBatchComplete(events, id, record.recordId) <==> AllOf(EventsOf(events, id), whole)
  {
    var id := MergeResolutionBatch(record.recordId);
    OnlyWholeIsNumbered(EventsOf(events, id), base, id, ResolutionDrafts(record, rs, now));
  }
}
