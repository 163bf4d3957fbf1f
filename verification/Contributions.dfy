/**
 * Contributions: their lifecycle and how complete source batches create them
 * (src/tokenshare/core/contribution.py:99-213, 345-378, 449-662).
 */
module Contributions {
  import opened Basics
  import opened Objects
  import opened Order
  import opened Ledger
  import opened Batches

  // ---------------------------------------------------------------- order and transitions

  function ById(a: ContributionRecord, b: ContributionRecord): bool {
    StringLe(a.contributionId, b.contributionId)
  }

  lemma {:induction false} ByIdIsTotal()
    ensures TotalPreorder(ById)
  {
    forall a, b ensures ById(a, b) || ById(b, a) { StringLeTotal(a.contributionId, b.contributionId); }
    forall a, b, c | ById(a, b) && ById(b, c) ensures ById(a, c) {
      StringLeTransitive(a.contributionId, b.contributionId, c.contributionId);
    }
  }

  predicate ContributionMayMove(before: ContributionState, after: ContributionState) {
    match before
    case Pending => after.Eligible? || after.Invalidated?
    case Eligible => after.Invalidated? || after.Settled?
    case _ => false
  }

  /** `bySettlement` says that the settlement batch asks for the change. */
  function TransitionContribution(c: ContributionRecord, state: ContributionState, changedAt: string,
                                  bySettlement: bool)
    : Result<ContributionRecord>
  {
    if c.state.Settled? then Err(AlreadySettled)
    else if !ContributionMayMove(c.state, state) then Err(IllegalContributionTransition)
    else if state.Settled? && !bySettlement then Err(SettlementBatchRequired)
    else Ok(c.(state := state, updatedAt := changedAt))
  }

  // ---------------------------------------------------------------- creation

  /** A batch handed to the coordinator. */
  datatype BatchInput = BatchInput(id: BatchId, events: Events, markerVisible: bool)

  function KindText(kind: ContributionKind): string {
    match kind
    case CompleteCanonical => "complete_canonical"
    case ExpandCanonical => "expand_canonical"
    case MergeCanonical => "merge_canonical"
  }

  function ContributionId(kind: ContributionKind, taskId: string, unitId: string, selectionId: string): string {
    "contribution:" + KindText(kind) + ":" + taskId + ":" + unitId + ":" + selectionId
  }

  /** Where an id tells its kind: the letter after the common prefix. */
  predicate TellsKind(id: string, kind: ContributionKind) {
    |id| > 13
      && id[13] == match kind case CompleteCanonical => 'c' case ExpandCanonical => 'e' case MergeCanonical => 'm'
  }

  lemma {:induction false} IdTellsKind(kind: ContributionKind, taskId: string, unitId: string, selectionId: string)
    ensures TellsKind(ContributionId(kind, taskId, unitId, selectionId), kind)
  {
    assert |"contribution:"| == 13;
    assert ContributionId(kind, taskId, unitId, selectionId)[13] == KindText(kind)[0];
  }

  function InitialState(kind: ContributionKind): ContributionState {
    if kind.ExpandCanonical? then Pending else Eligible
  }

  /** The first canonical event with this selection id. */
  function SelectionEvent(log: Events, selectionId: string): Option<Event> {
    if log == [] then None
    else if log[0].Payload().CanonicalBound? && log[0].Payload().selection.selectionId == selectionId then Some(log[0])
    else SelectionEvent(log[1..], selectionId)
  }

  lemma {:induction false} SelectionEventIsBound(log: Events, selectionId: string)
    requires SelectionEvent(log, selectionId).Some?
    ensures SelectionEvent(log, selectionId).value.Payload().CanonicalBound?
  {
    if !(log[0].Payload().CanonicalBound? && log[0].Payload().selection.selectionId == selectionId) {
      SelectionEventIsBound(log[1..], selectionId);
    }
  }

  /** The client of the attempt's last snapshot that names one. */
  function SourceClient(log: Events, attemptId: string): Option<string> {
    if log == [] then None
    else
      var p := log[|log| - 1].Payload();
      if p.AttemptChanged? && p.attempt.attemptId == attemptId && |p.attempt.clientId| > 0 then Some(p.attempt.clientId)
      else SourceClient(log[..|log| - 1], attemptId)
  }

  /** A contribution credited to an accepted decision. */
  function FromDecision(kind: ContributionKind, taskId: string, decision: ExpansionDecision, terminal: Event,
                        log: Events)
    : (r: Result<ContributionRecord>)
    ensures r.Ok? ==>
      r.value.kind == kind && r.value.state == InitialState(kind) && TellsKind(r.value.contributionId, kind)
  {
    IdTellsKind(kind, taskId, decision.unitId, decision.selectionId);
    if decision.selectionId == "" || decision.unitId == "" then Err(SelectionMissing)
    else match SelectionEvent(log, decision.selectionId)
      case None => Err(SelectionMissing)
      case Some(canonical) =>
        SelectionEventIsBound(log, decision.selectionId);
        var s := canonical.Payload().selection;
        match SourceClient(log, s.attemptId)
        case None => Err(ClientMissing)
        case Some(client) =>
          Ok(ContributionRecord(ContributionId(kind, taskId, decision.unitId, decision.selectionId), taskId,
                                decision.unitId,
                                kind, InitialState(kind), s.attemptId, client, decision.selectionId, canonical.seqNo,
                                s.reportId, s.verificationSeq, Some(decision.decisionId), None, terminal.seqNo, 1,
                                terminal.draft.occurredAt, terminal.draft.occurredAt))
  }

  predicate IsCompletionSource(batch: BatchInput) {
    && OrderedBatchComplete(batch.events, batch.id) && |batch.events| == 2
    && batch.events[0].Payload().DecisionRecorded? && batch.events[0].Payload().expansion.action.Complete?
    && batch.events[1].Payload().UnitChanged? && batch.events[1].Payload().unit.state.Completed?
  }

  function Decisions(events: Events): seq<ExpansionDecision> {
    if events == [] then []
    else
      var before := Decisions(events[..|events| - 1]);
      var p := events[|events| - 1].Payload();
      if p.DecisionRecorded? then before + [p.expansion] else before
  }

  predicate IsExpansionSource(batch: BatchInput) {
    && OrderedBatchComplete(batch.events, batch.id) && |Decisions(batch.events)| == 1
    && Decisions(batch.events)[0].action.Expand? && batch.markerVisible
    && batch.events[|batch.events| - 1].Payload().TaskExpanded?
  }

  predicate IsMergeSource(batch: BatchInput) {
    && OrderedBatchComplete(batch.events, batch.id) && |batch.events| >= 2
    && batch.events[0].Payload().MergeRecorded?
    && forall k :: 1 <= k < |batch.events| ==> batch.events[k].Payload().OutputResolved?
  }

  function FromMerge(taskId: string, recorded: Event, log: Events): (c: Result<ContributionRecord>)
    requires recorded.Payload().MergeRecorded?
    ensures c.Ok? ==>
      c.value.kind == MergeCanonical && c.value.state == Eligible && TellsKind(c.value.contributionId, MergeCanonical)
  {
    IdTellsKind(MergeCanonical, taskId, recorded.Payload().record.mergeUnitId, recorded.Payload().record.selectionId);
    var r := recorded.Payload().record;
    if r.mergeUnitId == "" || r.selectionId == "" || r.attemptId == "" || r.reportId == "" || r.recordId == "" then
      Err(MergeRecordIncomplete)
    else match SourceClient(log, r.attemptId)
      case None => Err(ClientMissing)
      case Some(client) =>
        Ok(ContributionRecord(ContributionId(MergeCanonical, taskId, r.mergeUnitId, r.selectionId), taskId,
                              r.mergeUnitId,
                              MergeCanonical, InitialState(MergeCanonical), r.attemptId, client, r.selectionId,
                              r.canonicalSeq, r.reportId, r.verificationSeq, None, Some(r.recordId), recorded.seqNo, 1,
                              recorded.draft.occurredAt, recorded.draft.occurredAt))
  }

  /** The contribution a complete source batch earns. */
  function ContributionOf(kind: ContributionKind, taskId: string, batch: BatchInput, log: Events)
    : (r: Result<ContributionRecord>)
    ensures r.Ok? ==>
      r.value.kind == kind && r.value.state == InitialState(kind) && TellsKind(r.value.contributionId, kind)
  {
    match kind
    case CompleteCanonical =>
      if !IsCompletionSource(batch) then Err(TornCompletion)
      else FromDecision(kind, taskId, batch.events[0].Payload().expansion, batch.events[1], log)
    case ExpandCanonical =>
      if !IsExpansionSource(batch) then Err(TornExpansion)
      else FromDecision(kind, taskId, Decisions(batch.events)[0], batch.events[|batch.events| - 1], log)
    case MergeCanonical =>
      if !IsMergeSource(batch) then Err(TornResolution)
      else FromMerge(taskId, batch.events[0], log)
  }

  function CreationDraft(c: ContributionRecord, now: string): Draft {
    Draft(ContributionCreateKey(c.contributionId, c.state), ContributionChanged(None, c, None), now)
  }

  // ---------------------------------------------------------------- reading the ledger once

  /** `later` adds nothing but contributions to `log`. */
  ghost predicate CreditsOnly(log: Events, later: Events) {
    log <= later && forall i :: |log| <= i < |later| ==> later[i].Payload().ContributionChanged?
  }

  lemma {:induction false} SameSelectionEvent(log: Events, later: Events, selectionId: string)
    requires CreditsOnly(log, later)
    ensures SelectionEvent(later, selectionId) == SelectionEvent(log, selectionId)
  {
    if later != [] {
      if log == [] {
        SameSelectionEvent([], later[1..], selectionId);
      } else {
        SameSelectionEvent(log[1..], later[1..], selectionId);
      }
    }
  }

  lemma {:induction false} SameSourceClient(log: Events, later: Events, attemptId: string)
    requires CreditsOnly(log, later)
    ensures SourceClient(later, attemptId) == SourceClient(log, attemptId)
  {
    if |log| < |later| {
      SameSourceClient(log, later[..|later| - 1], attemptId);
    } else {
      assert later == log;
    }
  }

  /** What a source batch earns does not depend on the contributions appended since the ledger was read. */
  lemma {:induction false} ReadOnceIsEnough(kind: ContributionKind, taskId: string, batch: BatchInput, log: Events,
                                            later: Events)
    requires CreditsOnly(log, later)
    ensures ContributionOf(kind, taskId, batch, later) == ContributionOf(kind, taskId, batch, log)
  {
    forall id ensures SelectionEvent(later, id) == SelectionEvent(log, id) { SameSelectionEvent(log, later, id); }
    forall id ensures SourceClient(later, id) == SourceClient(log, id) { SameSourceClient(log, later, id); }
    forall id ensures SelectionEvent(log, id).Some? ==> SelectionEvent(log, id).value.Payload().CanonicalBound? {
      if SelectionEvent(log, id).Some? { SelectionEventIsBound(log, id); }
    }
  }

  lemma {:induction false} CreditKeepsCredits(log: Events, later: Events, d: Draft)
    requires CreditsOnly(log, later) && d.payload.ContributionChanged?
    ensures CreditsOnly(log, Commit(later, [One(d)]))
  {
    AppendAdds(later, d);
  }
}
