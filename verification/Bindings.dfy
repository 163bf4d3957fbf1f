/**
 * Where the inputs of a merge come from, over whole runs: the slot bindings of its link
 * (src/tokenshare/core/merge_coordinator.py:74-164, 232-290; src/tokenshare/protocol_engine.py:3317-3406).
 */
module Bindings {
  import opened Basics
  import opened Objects
  import Order
  import opened Ledger
  import opened Verification
  import opened Merging
  import opened Steps
  import opened Runs
  import opened Provenance

  // ---------------------------------------------------------------- what a binding commits to

  /** The canonical event of the child carries the output the binding commits to. */
  predicate BoundBy(b: SlotBinding, e: Event) {
    && e.Payload().CanonicalBound?
    && var s := e.Payload().selection;
       && s.unitId == b.childUnitId && s.selectionId == b.selectionId && s.bundleDigest == b.bundleDigest
       && s.reportId == b.reportId && s.attemptId == b.attemptId
       && b.outputName in s.outputRefs && s.outputRefs[b.outputName] == b.outputRef
  }

  /** The ledger itself holds that event, at the position the binding names. */
  predicate Grounded(log: Events, b: SlotBinding) {
    1 <= b.canonicalSeq <= |log| && BoundBy(b, log[b.canonicalSeq - 1])
  }

  /** The ledger's event at the position of `e` commits to the same output of the same unit. */
  predicate OwnOutput(log: Events, e: Event, name: string) {
    && 1 <= e.seqNo <= |log| && e.Payload().CanonicalBound? && log[e.seqNo - 1].Payload().CanonicalBound?
    && var own, s := log[e.seqNo - 1].Payload().selection, e.Payload().selection;
       && own.unitId == s.unitId && own.selectionId == s.selectionId && own.bundleDigest == s.bundleDigest
       && own.reportId == s.reportId && own.attemptId == s.attemptId
       && name in own.outputRefs && name in s.outputRefs && own.outputRefs[name] == s.outputRefs[name]
  }

  /** For each slot it fills, the caller presents the canonical event of the ledger. */
  predicate PresentsOwn(log: Events, q: MergeTaskRequest) {
    var byUnit := CanonicalByUnit(q.canonicalEvents);
    q.planEvent.Payload().MergePlanRecorded? ==>
      forall slot :: slot in q.planEvent.Payload().plan.requiredSlots && Wanted(slot, SelectedSet(q.selected)) ==>
        slot.childUnitId in byUnit ==> OwnOutput(log, byUnit[slot.childUnitId], slot.outputName)
  }

  /** It is enough that every canonical event presented is the ledger's own. */
  lemma {:induction false} RecordedAreOwn(log: Events, q: MergeTaskRequest)
    requires MergeTaskWrites(log, q).Ok?
    requires forall e :: e in q.canonicalEvents && e.Payload().CanonicalBound? ==>
      1 <= e.seqNo <= |log| && log[e.seqNo - 1] == e
    ensures PresentsOwn(log, q)
  {
    var byUnit := CanonicalByUnit(q.canonicalEvents);
    forall slot | slot in q.planEvent.Payload().plan.requiredSlots && Wanted(slot, SelectedSet(q.selected))
      ensures slot.childUnitId in byUnit ==> OwnOutput(log, byUnit[slot.childUnitId], slot.outputName)
    {
      CanonicalByUnitFinds(q.canonicalEvents, slot.childUnitId);
      assert SlotReady(slot, byUnit);
    }
  }

  lemma {:induction false} BindingIsGrounded(log: Events, slot: RequiredSlot, events: Events)
    requires SlotReady(slot, CanonicalByUnit(events))
    ensures Grounded(log, BindingOf(slot, CanonicalByUnit(events)))
      <==> OwnOutput(log, CanonicalByUnit(events)[slot.childUnitId], slot.outputName)
  {
    CanonicalByUnitFinds(events, slot.childUnitId);
  }

  lemma {:induction false} BindingListMembers(slots: seq<RequiredSlot>, byUnit: map<string, Event>)
    requires forall s :: s in slots ==> SlotReady(s, byUnit)
    ensures forall b :: b in BindingList(slots, byUnit) <==> exists s :: s in slots && b == BindingOf(s, byUnit)
  {
    if slots != [] {
      var n := |slots| - 1;
      BindingListMembers(slots[..n], byUnit);
      assert slots == slots[..n] + [slots[n]];
      assert forall s :: s in slots <==> s in slots[..n] || s == slots[n];
    }
  }

  // ---------------------------------------------------------------- creating a merge task

  /** The bindings of a merge task are those of the wanted slots. */
  lemma {:induction false} MergeTaskBinds(log: Events, q: MergeTaskRequest)
    returns (plan: MergePlan, bindings: seq<SlotBinding>, depth: int)
    requires MergeTaskWrites(log, q).Ok?
    ensures q.planEvent.Payload() == MergePlanRecorded(plan)
    ensures MergeTaskWrites(log, q)
      == Ok([Batch(MergeTaskBatch(plan.mergePlanId), MergeTaskDrafts(plan, bindings, depth, q.bundleRef, q.now))])
    ensures var byUnit, selected := CanonicalByUnit(q.canonicalEvents), SelectedSet(q.selected);
      && (forall s :: s in plan.requiredSlots && Wanted(s, selected) ==> SlotReady(s, byUnit))
      && forall b :: b in bindings <==>
           exists s :: s in plan.requiredSlots && Wanted(s, selected) && b == BindingOf(s, byUnit)
  {
    plan, bindings, depth := MergeTaskShape(log, q);
    var byUnit, selected := CanonicalByUnit(q.canonicalEvents), SelectedSet(q.selected);
    WantedMembers(plan.requiredSlots, selected);
    BindingListMembers(WantedSlots(plan.requiredSlots, selected), byUnit);
  }

  /**
   * The coordinator trusts the events presented to it: the link it records is grounded in the ledger exactly when
   * each event presented for a slot commits to the same output as the ledger's event at its position.
   */
  lemma {:induction false} LinkIsGrounded(log: Events, q: MergeTaskRequest) returns (link: MergeTaskLink)
    requires MergeTaskWrites(log, q).Ok?
    ensures DraftsOf(MergeTaskWrites(log, q))[1].payload == MergeTaskLinked(link)
    ensures (forall b :: b in link.bindings ==> Grounded(log, b)) <==> PresentsOwn(log, q)
  {
    var plan, bindings, depth := MergeTaskBinds(log, q);
    link := MergeLinkOf(plan, bindings);
    Order.SortMultiset(bindings, BySlot);
    var byUnit, selected := CanonicalByUnit(q.canonicalEvents), SelectedSet(q.selected);
    forall s | s in plan.requiredSlots && Wanted(s, selected)
      ensures BindingOf(s, byUnit) in link.bindings
      ensures Grounded(log, BindingOf(s, byUnit)) <==> OwnOutput(log, byUnit[s.childUnitId], s.outputName)
    {
      assert BindingOf(s, byUnit) in bindings;
      BindingIsGrounded(log, s, q.canonicalEvents);
    }
  }

  // ---------------------------------------------------------------- whole runs

  /** Each link on record is grounded in the events before it. */
  ghost predicate LinksGrounded(log: Events) {
    forall i, b :: 0 <= i < |log| && log[i].Payload().MergeTaskLinked? && b in log[i].Payload().link.bindings ==>
      Grounded(log[..i], b)
  }

  /** A merge task is created from the ledger's own canonical events, or its batch is on record already. */
  ghost predicate OwnInputs(log: Events, step: Step) {
    step.CreateMergeTask? && step.mergeTask.planEvent.Payload().MergePlanRecorded? ==>
      HasBatch(log, MergeTaskBatch(step.mergeTask.planEvent.Payload().plan.mergePlanId))
        || PresentsOwn(log, step.mergeTask)
  }

  lemma {:induction false} GroundedAppend(log: Events, e: Event)
    requires LinksGrounded(log)
    requires e.Payload().MergeTaskLinked? ==> forall b :: b in e.Payload().link.bindings ==> Grounded(log, b)
    ensures LinksGrounded(log + [e])
  {
    var next := log + [e];
    forall i, b | 0 <= i < |next| && next[i].Payload().MergeTaskLinked? && b in next[i].Payload().link.bindings
      ensures Grounded(next[..i], b)
    {
      if i < |log| { assert next[..i] == log[..i]; } else { assert next[..i] == log; }
    }
  }

  lemma {:induction false} OtherEventsKeepLinks(log: Events, more: Events)
    requires LinksGrounded(log) && forall i :: 0 <= i < |more| ==> !more[i].Payload().MergeTaskLinked?
    ensures LinksGrounded(log + more)
  {
    if more == [] {
      assert log + more == log;
    } else {
      var n := |more| - 1;
      OtherEventsKeepLinks(log, more[..n]);
      GroundedAppend(log + more[..n], more[n]);
      assert log + more == log + more[..n] + [more[n]];
    }
  }

  lemma {:induction false} LinkBatchIsGrounded(log: Events, id: BatchId, drafts: seq<Draft>, link: MergeTaskLink)
    requires LinksGrounded(log) && |drafts| == 2
    requires drafts[0].payload.UnitCreated? && drafts[1].payload == MergeTaskLinked(link)
    ensures LinksGrounded(log + Stamp(|log|, id, drafts)) <==> forall b :: b in link.bindings ==> Grounded(log, b)
  {
    var more := Stamp(|log|, id, drafts);
    var mid := log + [more[0]];
    assert log + more == mid + [more[1]];
    GroundedAppend(log, more[0]);
    forall b ensures Grounded(mid, b) <==> Grounded(log, b) {}
    if forall b :: b in link.bindings ==> Grounded(log, b) {
      GroundedAppend(mid, more[1]);
    } else {
      var b :| b in link.bindings && !Grounded(log, b);
      assert (log + more)[..|mid|] == mid && b in (log + more)[|mid|].Payload().link.bindings;
    }
  }

  /**
   * A merge task that is appended keeps every link grounded exactly when the events presented for it are the
   * ledger's.
   */
  lemma {:induction false} MergeTaskKeepsLinks(log: Events, q: MergeTaskRequest)
    requires LinksGrounded(log) && After(log, MergeTaskWrites(log, q)) != log
    ensures LinksGrounded(After(log, MergeTaskWrites(log, q))) <==> PresentsOwn(log, q)
  {
    var plan, bindings, depth := MergeTaskBinds(log, q);
    var id, drafts := MergeTaskBatch(plan.mergePlanId), MergeTaskDrafts(plan, bindings, depth, q.bundleRef, q.now);
    BatchAdds(log, id, drafts);
    var link := LinkIsGrounded(log, q);
    assert AllDrafts([Batch(id, drafts)]) == drafts;
    LinkBatchIsGrounded(log, id, drafts, link);
  }

  lemma {:induction false} TakenMergeTask(log: Events, q: MergeTaskRequest)
    requires q.planEvent.Payload().MergePlanRecorded? ==>
      HasBatch(log, MergeTaskBatch(q.planEvent.Payload().plan.mergePlanId))
    ensures After(log, MergeTaskWrites(log, q)) == log
  {
    if MergeTaskWrites(log, q).Ok? {
      var plan, bindings, depth := MergeTaskBinds(log, q);
      BatchOnRecord(log, MergeTaskBatch(plan.mergePlanId), MergeTaskDrafts(plan, bindings, depth, q.bundleRef, q.now));
    }
  }

  lemma {:induction false} QuietKeepsLinks(log: Events, next: Events, step: Step)
    requires LinksGrounded(log) && ExtendsBy(log, next, step) && !Records(step, LinkKind)
    ensures LinksGrounded(next)
  {
    var more := next[|log|..];
    assert next == log + more;
    forall i | 0 <= i < |more| ensures !more[i].Payload().MergeTaskLinked? {
      assert Records(step, KindOf(next[|log| + i].Payload()));
    }
    OtherEventsKeepLinks(log, more);
  }

  lemma {:induction false} StepKeepsLinks(cfg: ProtocolConfig, log: Events, step: Step)
    requires Keyed(log) && LinksGrounded(log) && OwnInputs(log, step)
    ensures LinksGrounded(Exec(cfg, log, step))
  {
    if step.CreateMergeTask? {
      ExecMergeTask(cfg, log, step.mergeTask);
      if After(log, MergeTaskWrites(log, step.mergeTask)) != log {
        if !PresentsOwn(log, step.mergeTask) { TakenMergeTask(log, step.mergeTask); }
        MergeTaskKeepsLinks(log, step.mergeTask);
      }
    } else {
      StepAppends(cfg, log, step);
      QuietKeepsLinks(log, Exec(cfg, log, step), step);
    }
  }

  lemma {:induction false} RunKeepsLinks(cfg: ProtocolConfig, run: Run, k: nat)
    requires IsRun(cfg, run) && Keyed(run.Start()) && LinksGrounded(run.Start()) && EachStep(run, k, OwnInputs)
    ensures LinksGrounded(run.At(k))
  {
    if k > 0 {
      StepIsOk(run, k, OwnInputs);
      RunKeepsLinks(cfg, run, k - 1);
      RunIsKeyed(cfg, run, 0, k - 1);
      StepKeepsLinks(cfg, run.At(k - 1), run.StepAt(k - 1));
    }
  }

  /** Before `m` the child's canonical event carries the input, and before that a report with six passed layers does. */
  ghost predicate InputTraced(log: Events, m: nat, b: SlotBinding) {
    exists v: nat, c: nat :: InputChain(log, m, b, v, c)
  }

  ghost predicate InputChain(log: Events, m: nat, b: SlotBinding, v: nat, c: nat) {
    && v < c < m <= |log| && b.canonicalSeq == c + 1 && BoundBy(b, log[c])
    && log[c].Payload().selection.verificationSeq == v + 1 && log[v].Payload().VerificationRecorded?
    && var report := log[v].Payload().report;
       && b.reportId == report.reportId && StatusPasses(report.status) && AllLayersPassed(report.layers)
       && b.outputName in report.candidateOutputRefs && report.candidateOutputRefs[b.outputName] == b.outputRef
  }

  lemma {:induction false} LinkBehind(log: Events, m: nat) returns (l: nat)
    requires AllTraced(log) && m < |log| && log[m].Payload().MergeRecorded?
    ensures l < m && log[l].Payload().MergeTaskLinked?
    ensures log[l].Payload().link.bindings == log[m].Payload().record.bindings
  {
    TraceAt(log, m);
    assert LinkRecorded(log[..m], log[m].Payload().record);
    l :| 0 <= l < |log[..m]| && log[..m][l].Payload().MergeTaskLinked?
      && RecordMatchesLink(log[m].Payload().record, log[..m][l].Payload().link);
  }

  lemma {:induction false} InputsAreTraced(log: Events, m: nat, b: SlotBinding)
    requires AllTraced(log) && LinksGrounded(log)
    requires m < |log| && log[m].Payload().MergeRecorded? && b in log[m].Payload().record.bindings
    ensures InputTraced(log, m, b)
  {
    var l := LinkBehind(log, m);
    assert Grounded(log[..l], b);
    var c := b.canonicalSeq - 1;
    var v := ReportBehind(log, c);
    assert InputChain(log, m, b, v, c);
  }

  /**
   * Provenance down to the children. In every run whose merge tasks are created from the ledger's own canonical
   * events, the chain behind each output of a completed parent goes on through every input of its merge: the child's
   * canonical event, and the report with six passed layers that carries the very artifact.
   */
  lemma {:induction false} MergeInputProvenance(cfg: ProtocolConfig, run: Run, k: nat, i: nat, entry: ResolvedOutput)
    returns (v: nat, c: nat, m: nat, j: nat)
    requires IsRun(cfg, run) && run.Start() == [] && EachStep(run, k, OwnInputs) && CommitsTo(run.At(k), i, entry)
    ensures TracedBack(run.At(k), i, entry, v, c, m, j)
    ensures forall b :: b in run.At(k)[m].Payload().record.bindings ==> InputTraced(run.At(k), m, b)
  {
    v, c, m, j := CompletedParentProvenance(cfg, run, k, i, entry);
    RunKeepsTraced(cfg, run, k);
    RunKeepsLinks(cfg, run, k);
    forall b | b in run.At(k)[m].Payload().record.bindings ensures InputTraced(run.At(k), m, b) {
      InputsAreTraced(run.At(k), m, b);
    }
  }
}
