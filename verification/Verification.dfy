/**
 * Verification reports and first-verified canonical selection (src/tokenshare/core/verification.py and
 * src/tokenshare/protocol_engine.py:2375-2448, 2450-2466, 2572-2591).
 */
module Verification {
  import opened Basics
  import opened Objects
  import opened Order
  import opened Ledger

  /** `VerificationLayer` has exactly the six required layers. */
  predicate HasAllLayers(layers: map<VerificationLayer, LayerStatus>) {
    forall layer: VerificationLayer :: layer in layers
  }

  predicate AllLayersPassed(layers: map<VerificationLayer, LayerStatus>) {
    forall layer: VerificationLayer :: layer in layers && layers[layer].LayerPassed?
  }

  predicate StatusPasses(status: ReportStatus) {
    status.Passed? || status.Accepted?
  }

  /** Eligibility is derived, whatever flag the caller set. */
  predicate DerivedEligible(status: ReportStatus, layers: map<VerificationLayer, LayerStatus>) {
    StatusPasses(status) && AllLayersPassed(layers)
  }

  /** Rebuilding a report: all layers must be present and a claimed eligibility must be earned. */
  function Rematerialize(report: VerificationReport): Result<VerificationReport> {
    if !HasAllLayers(report.layers) then
      Err(LayerMissing)
    else if report.eligible && !DerivedEligible(report.status, report.layers) then
      Err(EligibilityNotEarned)
    else Ok(report.(eligible := DerivedEligible(report.status, report.layers)))
  }

  predicate MissesOutput(report: VerificationReport) {
    exists name :: name in report.requiredOutputNames && name !in report.candidateOutputRefs
  }

  /** The coverage layer says passed although a required output is missing. */
  predicate ClaimsMissingCoverage(report: VerificationReport) {
    && MissesOutput(report)
    && RequiredOutputCoverageCheck in report.layers
    && report.layers[RequiredOutputCoverageCheck].LayerPassed?
  }

  /** What a rebuilt report has wrong, if anything. */
  function ReportFault(report: VerificationReport, attempt: Attempt): Option<Error> {
    if report.bundleDigest != report.candidateOutputRefs then
      Some(BundleDigestMismatch)
    else if StatusPasses(report.status) && !report.eligible then
      Some(PassedWithoutLayers)
    else if ClaimsMissingCoverage(report) then
      Some(CoverageContradicted)
    else if attempt.candidateOutputRefs.Some? && attempt.candidateOutputRefs.value != report.candidateOutputRefs then
      Some(OutputsOfOtherAttempt)
    else None
  }

  /** `_validate_verification_report_for_attempt`. */
  function ValidateReport(report: VerificationReport, attempt: Attempt): Result<VerificationReport> {
    if !attempt.state.Submitted? then Err(AttemptNotSubmitted)
    else
      :- Check(report.taskId == attempt.taskId && report.unitId == attempt.unitId
               && report.attemptId == attempt.attemptId,
               ReportOfOtherAttempt);
      var valid :- Rematerialize(report);
      match ReportFault(valid, attempt)
      case Some(fault) => Err(fault)
      case None => Ok(valid)
  }

  /** What a recorded report is worth: an eligible one passed all six layers and covers its outputs. */
  ghost predicate ReportSound(report: VerificationReport) {
    && (report.eligible <==> DerivedEligible(report.status, report.layers))
    && (StatusPasses(report.status) ==> report.eligible)
    && report.bundleDigest == report.candidateOutputRefs
    && (report.eligible ==> forall name :: name in report.requiredOutputNames ==> name in report.candidateOutputRefs)
  }

  lemma {:induction false} ValidatedIsSound(report: VerificationReport, attempt: Attempt)
    requires ValidateReport(report, attempt).Ok?
    ensures ReportSound(ValidateReport(report, attempt).value)
  {
    var valid := ValidateReport(report, attempt).value;
    assert Rematerialize(report) == Ok(valid);
    if valid.eligible { assert !MissesOutput(valid); }
  }

  // ---------------------------------------------------------------- selection

  /** The event reports on this unit and may become canonical. */
  predicate Candidate(e: Event, taskId: string, unitId: string) {
    && e.Payload().VerificationRecorded?
    && e.Payload().report.taskId == taskId && e.Payload().report.unitId == unitId
    && e.Payload().report.eligible && StatusPasses(e.Payload().report.status)
  }

  function BySeqNo(a: Event, b: Event): bool {
    a.seqNo <= b.seqNo
  }

  function Candidates(presented: Events, taskId: string, unitId: string): Events {
    if presented == [] then []
    else
      var before := Candidates(presented[..|presented| - 1], taskId, unitId);
      var last := presented[|presented| - 1];
      if Candidate(last, taskId, unitId) then before + [last] else before
  }

  lemma {:induction false} CandidateMembers(presented: Events, taskId: string, unitId: string)
    ensures forall e :: e in Candidates(presented, taskId, unitId) <==> e in presented && Candidate(e, taskId, unitId)
  {
    if presented != [] {
      CandidateMembers(presented[..|presented| - 1], taskId, unitId);
      assert presented == presented[..|presented| - 1] + [presented[|presented| - 1]];
    }
  }

  function ReportIds(events: Events): seq<string>
    requires forall e :: e in events ==> e.Payload().VerificationRecorded?
  {
    seq(|events|, i requires 0 <= i < |events| => events[i].Payload().report.reportId)
  }

  function SelectionId(taskId: string, unitId: string): string {
    "canonical_selection:" + taskId + ":" + unitId
  }

  function SelectionOf(e: Event, considered: seq<string>, boundAt: string): CanonicalSelection
    requires e.Payload().VerificationRecorded?
  {
    var r := e.Payload().report;
    CanonicalSelection(SelectionId(r.taskId, r.unitId), r.taskId, r.unitId, r.reportId, e.seqNo, r.submissionId,
                       r.submissionSeq, r.attemptId, r.bundleDigest, r.candidateOutputRefs, considered, boundAt)
  }

  /** The eligible event with the lowest sequence number, among those presented. */
  function SelectFirst(presented: Events, taskId: string, unitId: string, boundAt: string): Result<CanonicalSelection> {
    var sorted := Sort(Candidates(presented, taskId, unitId), BySeqNo);
    CandidateMembers(presented, taskId, unitId);
    SortMultiset(Candidates(presented, taskId, unitId), BySeqNo);
    if sorted == [] then Err(NoEligibleReport)
    else Ok(SelectionOf(sorted[0], ReportIds(sorted), boundAt))
  }

  method SelectFirstVerifiedBundle(presented: Events, taskId: string, unitId: string, boundAt: string)
    returns (r: Result<CanonicalSelection>)
    ensures r == SelectFirst(presented, taskId, unitId, boundAt)
  {
    var eligible: Events := [];
    for i := 0 to |presented|
      invariant eligible == Candidates(presented[..i], taskId, unitId)
    {
      assert presented[..i + 1][..i] == presented[..i];
      if Candidate(presented[i], taskId, unitId) { eligible := eligible + [presented[i]]; }
    }
    assert presented[..|presented|] == presented;
    if eligible == [] { return Err(NoEligibleReport); }
    CandidateMembers(presented, taskId, unitId);
    SortMultiset(eligible, BySeqNo);
    var sorted := Sort(eligible, BySeqNo);
    r := Ok(SelectionOf(sorted[0], ReportIds(sorted), boundAt));
  }

  /** Selection raises exactly without candidates; else it commits to one no later than any other. */
  lemma {:induction false} SelectsEarliest(presented: Events, taskId: string, unitId: string, boundAt: string)
    returns (first: Event)
    requires exists e :: e in presented && Candidate(e, taskId, unitId)
    ensures first in presented && Candidate(first, taskId, unitId)
    ensures forall e :: e in presented && Candidate(e, taskId, unitId) ==> first.seqNo <= e.seqNo
    ensures SelectFirst(presented, taskId, unitId, boundAt).Ok?
    ensures var s := SelectFirst(presented, taskId, unitId, boundAt).value;
      s == SelectionOf(first, s.consideredReportIds, boundAt) && s.taskId == taskId && s.unitId == unitId
  {
    var found := Candidates(presented, taskId, unitId);
    var sorted := Sort(found, BySeqNo);
    CandidateMembers(presented, taskId, unitId);
    SortMultiset(found, BySeqNo);
    SortSorts(found, BySeqNo);
    first := sorted[0];
    forall e | e in presented && Candidate(e, taskId, unitId) ensures first.seqNo <= e.seqNo {
      var k :| 0 <= k < |sorted| && sorted[k] == e;
      if k > 0 { assert BySeqNo(sorted[0], sorted[k]); }
    }
  }

  lemma {:induction false} NothingToSelect(presented: Events, taskId: string, unitId: string, boundAt: string)
    requires forall e :: e in presented ==> !Candidate(e, taskId, unitId)
    ensures SelectFirst(presented, taskId, unitId, boundAt).Err?
  {
    CandidateMembers(presented, taskId, unitId);
    SortMultiset(Candidates(presented, taskId, unitId), BySeqNo);
    var sorted := Sort(Candidates(presented, taskId, unitId), BySeqNo);
    if sorted != [] {
      HasMember(sorted);
      assert false;
    }
  }

  // ---------------------------------------------------------------- binding

  /** A presented event is the ledger's own verification event at its position. */
  predicate IsRecorded(log: Events, e: Event) {
    1 <= e.seqNo <= |log| && log[e.seqNo - 1] == e && e.Payload().VerificationRecorded?
  }

  predicate AllRecordedIn(log: Events, presented: Events) {
    forall e :: e in presented ==> IsRecorded(log, e)
  }

  predicate IsCanonicalFor(e: Event, taskId: string, unitId: string) {
    && e.Payload().CanonicalBound?
    && e.Payload().selection.taskId == taskId && e.Payload().selection.unitId == unitId
  }

  /** The first canonical event of the unit. */
  function ExistingCanonical(log: Events, taskId: string, unitId: string): Option<Event> {
    if log == [] then None
    else if IsCanonicalFor(log[0], taskId, unitId) then Some(log[0])
    else ExistingCanonical(log[1..], taskId, unitId)
  }

  lemma {:induction false} ExistingCanonicalFinds(log: Events, taskId: string, unitId: string)
    ensures ExistingCanonical(log, taskId, unitId).Some? <==> exists e :: e in log && IsCanonicalFor(e, taskId, unitId)
    ensures ExistingCanonical(log, taskId, unitId).Some? ==>
      ExistingCanonical(log, taskId, unitId).value in log
      && IsCanonicalFor(ExistingCanonical(log, taskId, unitId).value, taskId, unitId)
  {
    if log != [] {
      ExistingCanonicalFinds(log[1..], taskId, unitId);
      assert log == [log[0]] + log[1..];
      assert forall e :: e in log <==> e == log[0] || e in log[1..];
    }
  }

  /** `_same_canonical_commitment`: everything but the considered ids and the binding time. */
  predicate SameCommitment(a: CanonicalSelection, b: CanonicalSelection) {
    && a.taskId == b.taskId && a.unitId == b.unitId && a.reportId == b.reportId
    && a.verificationSeq == b.verificationSeq && a.submissionId == b.submissionId
    && a.submissionSeq == b.submissionSeq && a.attemptId == b.attemptId
    && a.bundleDigest == b.bundleDigest && a.outputRefs == b.outputRefs
  }

  method CheckRecorded(log: Events, presented: Events) returns (ok: bool)
    ensures ok <==> AllRecordedIn(log, presented)
  {
    for i := 0 to |presented|
      invariant forall j :: 0 <= j < i ==> IsRecorded(log, presented[j])
    {
      if !IsRecorded(log, presented[i]) { return false; }
    }
    ok := true;
  }

  method FindCanonical(log: Events, taskId: string, unitId: string) returns (existing: Option<Event>)
    ensures existing == ExistingCanonical(log, taskId, unitId)
  {
    for i := 0 to |log|
      invariant ExistingCanonical(log, taskId, unitId) == ExistingCanonical(log[i..], taskId, unitId)
    {
      assert log[i..][1..] == log[i + 1..];
      if IsCanonicalFor(log[i], taskId, unitId) { return Some(log[i]); }
    }
    existing := None;
  }
}
