/**
 * Where canonical outputs and completed parents come from, over whole runs
 * (src/tokenshare/protocol_engine.py:554-583, 2450-2466, 2572-2591, 3261-3316, 3382-3406, 3598-3668;
 * src/tokenshare/core/verification.py:233-283).
 */
module Provenance {
  import opened Basics
  import opened Objects
  import opened Ledger
  import opened Verification
  import opened Merging
  import opened Completions
  import opened Steps
  import opened Runs

  // ---------------------------------------------------------------- what justifies an event

  /** The selection is the commitment to the report recorded at its verification position. */
  ghost predicate SelectionTraced(log: Events, s: CanonicalSelection) {
    && 1 <= s.verificationSeq <= |log|
    && var e := log[s.verificationSeq - 1];
       && Candidate(e, s.taskId, s.unitId) && s == SelectionOf(e, s.consideredReportIds, s.boundAt)
  }

  ghost predicate LinkRecorded(log: Events, record: MergeRecord) {
    exists j :: 0 <= j < |log| && log[j].Payload().MergeTaskLinked? && RecordMatchesLink(record, log[j].Payload().link)
  }

  /** The record repeats the canonical selection of its merge unit and the link of its merge task. */
  ghost predicate RecordTraced(log: Events, r: MergeRecord) {
    && 1 <= r.canonicalSeq <= |log|
    && log[r.canonicalSeq - 1].Payload().CanonicalBound?
    && log[r.canonicalSeq - 1].Payload().selection.taskId == r.taskId
    && log[r.canonicalSeq - 1].Payload().selection.unitId == r.mergeUnitId
    && RecordMatchesSelection(r, log[r.canonicalSeq - 1].Payload().selection)
    && LinkRecorded(log, r)
  }

  ghost predicate ResolutionTraced(log: Events, r: OutputResolution) {
    exists j :: 0 <= j < |log| && log[j].Payload().MergeRecorded? && ResolutionFits(r, log[j].Payload().record)
  }

  /** Position `j` carries, in a complete resolution batch, the resolution this entry commits to. */
  ghost predicate ResolvesEntry(log: Events, j: int, entry: ResolvedOutput, owner: TaskUnit) {
    && 0 <= j < |log| && Counts(log, log[j]) && EntryOf(log[j].Payload().resolution) == entry
    && log[j].Payload().resolution.ownerUnitId == owner.unitId && log[j].Payload().resolution.taskId == owner.taskId
  }

  ghost predicate CompletionTraced(log: Events, resolved: seq<ResolvedOutput>, owner: TaskUnit) {
    forall entry :: entry in resolved ==> exists j :: ResolvesEntry(log, j, entry, owner)
  }

  /** The payload follows from the events recorded before it. */
  ghost predicate Traced(before: Events, p: Payload) {
    match p
    case VerificationRecorded(report) => ReportSound(report)
    case CanonicalBound(s) => SelectionTraced(before, s)
    case MergeRecorded(r) => RecordTraced(before, r)
    case OutputResolved(r) => ResolutionTraced(before, r)
    case UnitChanged(_, unit, cause) => cause.OutputsResolved? ==> CompletionTraced(before, cause.resolved, unit)
    case _ => true
  }

  ghost predicate AllTraced(log: Events) {
    forall i :: 0 <= i < |log| ==> Traced(log[..i], log[i].Payload())
  }

  predicate NeedsTrace(kind: EventKind) {
    kind.VerificationKind? || kind.CanonicalKind? || kind.MergeKind? || kind.ResolutionKind? || kind.CompletionKind?
  }

  // ---------------------------------------------------------------- appending traced events

  lemma {:induction false} TracedAppend(log: Events, e: Event)
    requires AllTraced(log) && Traced(log, e.Payload())
    ensures AllTraced(log + [e])
  {
    var next := log + [e];
    forall i | 0 <= i < |next| ensures Traced(next[..i], next[i].Payload()) {
      if i < |log| { assert next[..i] == log[..i]; } else { assert next[..i] == log; }
    }
  }

  lemma {:induction false} OtherKindsAreTraced(before: Events, p: Payload)
    requires !NeedsTrace(KindOf(p))
    ensures Traced(before, p)
  {
  }

  lemma {:induction false} OtherEventsAreTraced(log: Events, more: Events)
    requires AllTraced(log) && forall i :: 0 <= i < |more| ==> !NeedsTrace(KindOf(more[i].Payload()))
    ensures AllTraced(log + more)
  {
    if more == [] {
      assert log + more == log;
    } else {
      var n := |more| - 1;
      OtherEventsAreTraced(log, more[..n]);
      OtherKindsAreTraced(log + more[..n], more[n].Payload());
      TracedAppend(log + more[..n], more[n]);
      assert log + more == log + more[..n] + [more[n]];
    }
  }

  lemma {:induction false} QuietIsTraced(log: Events, next: Events, step: Step)
    requires AllTraced(log) && ExtendsBy(log, next, step)
    requires forall kind: EventKind :: NeedsTrace(kind) ==> !Records(step, kind)
    ensures AllTraced(next)
  {
    var more := next[|log|..];
    assert next == log + more;
    forall i | 0 <= i < |more| ensures !NeedsTrace(KindOf(more[i].Payload())) {
      assert Records(step, KindOf(next[|log| + i].Payload()));
    }
    OtherEventsAreTraced(log, more);
  }

  /** A traced event and then one that needs no trace. */
  lemma {:induction false} TracedPair(log: Events, d: Draft, e: Draft)
    requires AllTraced(log) && Traced(log, d.payload) && !NeedsTrace(KindOf(e.payload))
    ensures AllTraced(Commit(log, [One(d), One(e)])) && AllTraced(Commit(log, [One(d)]))
  {
    TwoAppends(log, d, e);
    AppendAdds(log, d);
    TracedAppend(log, Event(|log| + 1, d, None));
    if Append(log, d).Ok? {
      var mid := Append(log, d).value;
      AppendAdds(mid, e);
      OtherKindsAreTraced(mid, e.payload);
      TracedAppend(mid, Event(|mid| + 1, e, None));
    }
  }

  // ---------------------------------------------------------------- step by step

  lemma {:induction false} VerifyIsTraced(log: Events, report: VerificationReport, attempt: Attempt,
                                          correlationId: string)
    requires AllTraced(log)
    ensures AllTraced(After(log, VerifyWrites(report, attempt, correlationId)))
  {
    if VerifyWrites(report, attempt, correlationId).Ok? {
      var valid, verified := VerifyShape(report, attempt, correlationId);
      ValidatedIsSound(report, attempt);
      TracedPair(log, VerificationDraft(valid), VerifiedDraft(verified, valid, correlationId));
    }
  }

  /** The selected event is the ledger's own, so the selection is traced. */
  lemma {:induction false} SelectedIsTraced(log: Events, q: BindRequest)
    requires AllRecordedIn(log, q.presented) && WellFormed(log)
    requires SelectFirst(q.presented, q.taskId, q.unitId, q.now).Ok?
    ensures SelectionTraced(log, SelectFirst(q.presented, q.taskId, q.unitId, q.now).value)
  {
    if forall e :: e in q.presented ==> !Candidate(e, q.taskId, q.unitId) {
      NothingToSelect(q.presented, q.taskId, q.unitId, q.now);
    } else {
      var first := SelectsEarliest(q.presented, q.taskId, q.unitId, q.now);
      assert IsRecorded(log, first);
      assert SelectFirst(q.presented, q.taskId, q.unitId, q.now).value.boundAt == q.now;
    }
  }

  lemma {:induction false} BindIsTraced(log: Events, q: BindRequest)
    requires AllTraced(log) && WellFormed(log)
    ensures AllTraced(After(log, BindWrites(log, q)))
  {
    if BindWrites(log, q).Ok? && BindWrites(log, q).value != [] {
      var selection := SelectFirst(q.presented, q.taskId, q.unitId, q.now).value;
      var canonical := CanonicalAttempt(q.attempts[selection.attemptId], selection, q.now).value;
      SelectedIsTraced(log, q);
      TracedPair(log, CanonicalDraft(selection, q.now),
                 CanonicalAttemptDraft(canonical, selection, q.correlationId, q.now));
    }
  }

  lemma {:induction false} RecordIsTraced(log: Events, record: MergeRecord, rs: seq<OutputResolution>)
    requires WellFormed(log) && ValidateResolution(log, record, rs).Ok?
    ensures RecordTraced(log, record)
  {
    MergeUnitCanonicalFinds(log, record);
    LinkOfPlanFinds(log, record);
    var e := MergeUnitCanonical(log, record).value;
    var i :| 0 <= i < |log| && log[i] == e;
    assert log[i].seqNo == i + 1;
    var link := LinkOfPlan(log, record).value;
    var carrier :| carrier in log && LinkIn(carrier, link);
    var j :| 0 <= j < |log| && log[j] == carrier;
  }

  lemma {:induction false} ResolutionsAreTraced(log: Events, headed: Events, more: Events, at: nat)
    requires AllTraced(headed) && at < |headed| && headed[at].Payload().MergeRecorded?
    requires forall i :: 0 <= i < |more| ==>
      more[i].Payload().OutputResolved? && ResolutionFits(more[i].Payload().resolution, headed[at].Payload().record)
    ensures AllTraced(headed + more)
  {
    if more == [] {
      assert headed + more == headed;
    } else {
      var n := |more| - 1;
      ResolutionsAreTraced(log, headed, more[..n], at);
      assert (headed + more[..n])[at] == headed[at];
      TracedAppend(headed + more[..n], more[n]);
      assert headed + more == headed + more[..n] + [more[n]];
    }
  }

  lemma {:induction false} ResolutionPayloads(base: nat, record: MergeRecord, rs: seq<OutputResolution>, at: string)
    ensures var batch := Stamp(base, MergeResolutionBatch(record.recordId), ResolutionDrafts(record, rs, at));
      && batch[0].Payload() == MergeRecorded(record)
      && forall i :: 0 <= i < |rs| ==> batch[1..][i].Payload() == OutputResolved(rs[i])
  {
    var drafts := ResolutionDrafts(record, rs, at);
    var batch := Stamp(base, MergeResolutionBatch(record.recordId), drafts);
    forall i | 0 <= i < |rs| ensures batch[1..][i].Payload() == OutputResolved(rs[i]) {
      assert batch[1..][i] == batch[i + 1];
      assert drafts[i + 1] == ResolutionDraft(rs[i], record, at);
    }
  }

  lemma {:induction false} HeadedBatchIsTraced(log: Events, record: MergeRecord, rs: seq<OutputResolution>,
                                               head: Event, more: Events)
    requires AllTraced(log) && RecordTraced(log, record) && forall r :: r in rs ==> ResolutionFits(r, record)
    requires head.Payload() == MergeRecorded(record) && |more| == |rs|
    requires forall i :: 0 <= i < |rs| ==> more[i].Payload() == OutputResolved(rs[i])
    ensures AllTraced(log + [head] + more)
  {
    TracedAppend(log, head);
    forall i | 0 <= i < |more|
      ensures more[i].Payload().OutputResolved? && ResolutionFits(more[i].Payload().resolution, record)
    {
      assert rs[i] in rs;
    }
    assert (log + [head])[|log|] == head;
    ResolutionsAreTraced(log, log + [head], more, |log|);
  }

  lemma {:induction false} SplitHead(log: Events, batch: Events)
    requires batch != []
    ensures log + batch == log + [batch[0]] + batch[1..]
  {
  }

  lemma {:induction false} ResolutionBatchIsTraced(log: Events, record: MergeRecord, rs: seq<OutputResolution>,
                                                   at: string)
    requires AllTraced(log) && RecordTraced(log, record) && forall r :: r in rs ==> ResolutionFits(r, record)
    ensures AllTraced(log + Stamp(|log|, MergeResolutionBatch(record.recordId), ResolutionDrafts(record, rs, at)))
  {
    var batch := Stamp(|log|, MergeResolutionBatch(record.recordId), ResolutionDrafts(record, rs, at));
    ResolutionPayloads(|log|, record, rs, at);
    HeadedBatchIsTraced(log, record, rs, batch[0], batch[1..]);
    SplitHead(log, batch);
  }

  lemma {:induction false} ResolveIsTraced(log: Events, record: MergeRecord, rs: seq<OutputResolution>, at: string)
    requires AllTraced(log) && WellFormed(log)
    ensures AllTraced(After(log, ResolveWrites(log, record, rs, at)))
  {
    if ValidateResolution(log, record, rs).Ok? {
      RecordIsTraced(log, record, rs);
      ValidResolutionsFit(log, record, rs);
      ResolutionBatchIsTraced(log, record, rs, at);
      BatchAdds(log, MergeResolutionBatch(record.recordId), ResolutionDrafts(record, rs, at));
    }
  }

  /** Every entry a completion commits to was read back from a complete resolution batch. */
  lemma {:induction false} EntryIsResolved(log: Events, q: CompletionRequest, recorded: map<string, OutputResolution>,
                                           entry: ResolvedOutput)
    returns (j: int)
    requires RecordedUpTo(log, |log|) == Ok(recorded) && FullyResolved(q.owner, q.refs, q.resolutions, recorded)
    requires entry in ResolvedSet(q.resolutions)
    ensures ResolvesEntry(log, j, entry, q.owner)
  {
    ResolvedSetMembers(q.resolutions, entry);
    var r :| r in q.resolutions && EntryOf(r) == entry;
    var k :| 0 <= k < |q.resolutions| && q.resolutions[k] == r;
    assert ResolutionIds(q.resolutions)[k] in Elements(ResolutionIds(q.resolutions));
    assert r.expectedOutputId in Elements(RefIds(q.refs));
    var m :| 0 <= m < |q.refs| && RefIds(q.refs)[m] == r.expectedOutputId;
    assert q.refs[m] in q.refs && ResolvesRef(r, q.refs[m], q.owner, recorded);
    RecordedAreCarried(log, |log|, r.expectedOutputId);
    j :| 0 <= j < |log| && CarriesResolution(log, log[j], r);
  }

  lemma {:induction false} CompletionEventsAreTraced(log: Events, q: CompletionRequest,
                                                     recorded: map<string, OutputResolution>,
                                  completed: TaskUnit, eligible: seq<ContributionRecord>)
    requires AllTraced(log)
    requires RecordedUpTo(log, |log|) == Ok(recorded) && FullyResolved(q.owner, q.refs, q.resolutions, recorded)
    requires completed.unitId == q.owner.unitId && completed.taskId == q.owner.taskId
    ensures var resolved := ResolvedSet(q.resolutions);
      AllTraced(log + Stamp(|log|, ParentCompletionBatch(q.owner.unitId, resolved),
                            CompletionDrafts(completed, eligible, resolved, q.now)))
  {
    var resolved := ResolvedSet(q.resolutions);
    var batch := Stamp(|log|, ParentCompletionBatch(q.owner.unitId, resolved),
                       CompletionDrafts(completed, eligible, resolved, q.now));
    forall entry | entry in resolved ensures exists j :: ResolvesEntry(log, j, entry, completed) {
      var j := EntryIsResolved(log, q, recorded, entry);
      assert ResolvesEntry(log, j, entry, completed);
    }
    TracedAppend(log, batch[0]);
    OtherEventsAreTraced(log + [batch[0]], batch[1..]);
    assert log + batch == log + [batch[0]] + batch[1..];
  }

  lemma {:induction false} CompletionIsTraced(log: Events, q: CompletionRequest)
    requires AllTraced(log)
    ensures AllTraced(After(log, CompletionWrites(log, q)))
  {
    if CompletionWrites(log, q).Ok? {
      var recorded, completed, sorted := CompletionShape(log, q);
      var resolved, eligible := ResolvedSet(q.resolutions), EligibleOnes(sorted, q.now);
      BatchAdds(log, ParentCompletionBatch(q.owner.unitId, resolved),
                CompletionDrafts(completed, eligible, resolved, q.now));
      CompletionEventsAreTraced(log, q, recorded, completed, eligible);
    }
  }

  predicate RecordsNothingTraced(step: Step) {
    !step.Verify? && !step.Bind? && !step.ResolveOutputs? && !step.CompleteParent?
  }

  lemma {:induction false} QuietSteps(step: Step, kind: EventKind)
    requires RecordsNothingTraced(step) && NeedsTrace(kind)
    ensures !Records(step, kind)
  {
  }

  lemma {:induction false} QuietStepKeepsTraced(cfg: ProtocolConfig, log: Events, step: Step)
    requires Keyed(log) && AllTraced(log) && RecordsNothingTraced(step)
    ensures AllTraced(Exec(cfg, log, step))
  {
    StepAppends(cfg, log, step);
    forall kind: EventKind | NeedsTrace(kind) ensures !Records(step, kind) { QuietSteps(step, kind); }
    QuietIsTraced(log, Exec(cfg, log, step), step);
  }

  lemma {:induction false} StepKeepsTraced(cfg: ProtocolConfig, log: Events, step: Step)
    requires Keyed(log) && AllTraced(log)
    ensures AllTraced(Exec(cfg, log, step))
  {
    if RecordsNothingTraced(step) {
      QuietStepKeepsTraced(cfg, log, step);
    } else {
      match step {
        case Verify(report, attempt, correlationId) =>
          ExecVerify(cfg, log, report, attempt, correlationId);
          VerifyIsTraced(log, report, attempt, correlationId);
        case Bind(q) =>
          ExecBind(cfg, log, q);
          BindIsTraced(log, q);
        case ResolveOutputs(record, rs, at) =>
          ExecResolve(cfg, log, record, rs, at);
          ResolveIsTraced(log, record, rs, at);
        case CompleteParent(q) =>
          ExecCompletion(cfg, log, q);
          CompletionIsTraced(log, q);
      }
    }
  }

  // ---------------------------------------------------------------- whole runs

  lemma {:induction false} NextKeepsTraced(cfg: ProtocolConfig, run: Run, k: nat)
    requires IsRun(cfg, run) && Keyed(run.At(k)) && AllTraced(run.At(k))
    ensures AllTraced(run.At(k + 1))
  {
    StepKeepsTraced(cfg, run.At(k), run.StepAt(k));
  }

  lemma {:induction false} RunKeepsTraced(cfg: ProtocolConfig, run: Run, k: nat)
    requires IsRun(cfg, run) && Keyed(run.Start()) && AllTraced(run.Start())
    ensures AllTraced(run.At(k))
  {
    if k > 0 {
      RunKeepsTraced(cfg, run, k - 1);
      RunIsKeyed(cfg, run, 0, k - 1);
      NextKeepsTraced(cfg, run, k - 1);
    }
  }

  /** The chain behind one resolved output: resolution, merge record, canonical selection, verification report. */
  ghost predicate Chain(log: Events, entry: ResolvedOutput, owner: TaskUnit, v: nat, c: nat, m: nat, j: nat) {
    && v < c < m < j < |log|
    && log[j].Payload().OutputResolved? && EntryOf(log[j].Payload().resolution) == entry
    && log[j].Payload().resolution.ownerUnitId == owner.unitId
    && log[m].Payload().MergeRecorded? && ResolutionFits(log[j].Payload().resolution, log[m].Payload().record)
    && log[c].Payload().CanonicalBound? && log[m].Payload().record.canonicalSeq == c + 1
    && log[c].Payload().selection.unitId == log[m].Payload().record.mergeUnitId
    && RecordMatchesSelection(log[m].Payload().record, log[c].Payload().selection)
    && log[v].Payload().VerificationRecorded? && log[c].Payload().selection.verificationSeq == v + 1
    && var report := log[v].Payload().report;
       && log[c].Payload().selection.reportId == report.reportId
       && StatusPasses(report.status) && AllLayersPassed(report.layers)
       && entry.outputName in report.candidateOutputRefs
       && report.candidateOutputRefs[entry.outputName].contentHash == entry.outputDigest
  }

  /** The event at `i` completes a parent that commits to the output. */
  ghost predicate CommitsTo(log: Events, i: nat, entry: ResolvedOutput) {
    && i < |log| && log[i].Payload().UnitChanged? && log[i].Payload().cause.OutputsResolved?
    && entry in log[i].Payload().cause.resolved
  }

  /** The chain behind that output, whose resolution was counted as complete before `i`. */
  ghost predicate TracedBack(log: Events, i: nat, entry: ResolvedOutput, v: nat, c: nat, m: nat, j: nat) {
    && CommitsTo(log, i, entry) && j < i && Counts(log[..i], log[j])
    && Chain(log, entry, log[i].Payload().unit, v, c, m, j)
  }

  lemma {:induction false} TraceAt(log: Events, i: nat)
    requires AllTraced(log) && i < |log|
    ensures Traced(log[..i], log[i].Payload())
    ensures forall k :: 0 <= k < i ==> log[..i][k] == log[k]
  {
  }

  lemma {:induction false} ResolutionOf(log: Events, i: nat, entry: ResolvedOutput) returns (j: nat)
    requires AllTraced(log) && CommitsTo(log, i, entry)
    ensures j < i && ResolvesEntry(log[..i], j, entry, log[i].Payload().unit) && log[..i][j] == log[j]
  {
    TraceAt(log, i);
    j :| ResolvesEntry(log[..i], j, entry, log[i].Payload().unit);
  }

  lemma {:induction false} RecordBehind(log: Events, j: nat) returns (m: nat)
    requires AllTraced(log) && j < |log| && log[j].Payload().OutputResolved?
    ensures m < j && log[m].Payload().MergeRecorded?
      && ResolutionFits(log[j].Payload().resolution, log[m].Payload().record)
  {
    TraceAt(log, j);
    m :| 0 <= m < |log[..j]| && log[..j][m].Payload().MergeRecorded?
      && ResolutionFits(log[j].Payload().resolution, log[..j][m].Payload().record);
  }

  lemma {:induction false} SelectionBehind(log: Events, m: nat) returns (c: nat)
    requires AllTraced(log) && m < |log| && log[m].Payload().MergeRecorded?
    ensures c < m && log[m].Payload().record.canonicalSeq == c + 1 && log[c].Payload().CanonicalBound?
    ensures log[c].Payload().selection.unitId == log[m].Payload().record.mergeUnitId
    ensures RecordMatchesSelection(log[m].Payload().record, log[c].Payload().selection)
  {
    TraceAt(log, m);
    c := log[m].Payload().record.canonicalSeq - 1;
  }

  /** A canonical selection commits to an earlier report whose six layers passed. */
  lemma {:induction false} ReportBehind(log: Events, c: nat) returns (v: nat)
    requires AllTraced(log) && c < |log| && log[c].Payload().CanonicalBound?
    ensures v < c && log[c].Payload().selection.verificationSeq == v + 1 && log[v].Payload().VerificationRecorded?
    ensures var report, s := log[v].Payload().report, log[c].Payload().selection;
      && s.reportId == report.reportId && s.outputRefs == report.candidateOutputRefs
      && StatusPasses(report.status) && AllLayersPassed(report.layers)
  {
    TraceAt(log, c);
    v := log[c].Payload().selection.verificationSeq - 1;
    TraceAt(log, v);
  }

  lemma {:induction false} ChainOf(log: Events, i: nat, entry: ResolvedOutput) returns (v: nat, c: nat, m: nat, j: nat)
    requires AllTraced(log) && CommitsTo(log, i, entry)
    ensures TracedBack(log, i, entry, v, c, m, j)
  {
    j := ResolutionOf(log, i, entry);
    m := RecordBehind(log, j);
    c := SelectionBehind(log, m);
    v := ReportBehind(log, c);
  }

  /**
   * Provenance. In every run, each output a completed parent commits to was resolved in a complete
   * merge batch, from a merge record that matches an earlier canonical selection of the merge unit,
   * which commits to an earlier report with all six layers passed and the same output digest.
   */
  lemma {:induction false} CompletedParentProvenance(cfg: ProtocolConfig, run: Run, k: nat, i: nat,
                                                     entry: ResolvedOutput)
    returns (v: nat, c: nat, m: nat, j: nat)
    requires IsRun(cfg, run) && run.Start() == [] && CommitsTo(run.At(k), i, entry)
    ensures TracedBack(run.At(k), i, entry, v, c, m, j)
  {
    RunKeepsTraced(cfg, run, k);
    v, c, m, j := ChainOf(run.At(k), i, entry);
  }

  // ---------------------------------------------------------------- canonical outputs are stable

  /** At most one canonical event for each unit. */
  lemma {:induction false} CanonicalOnce(log: Events, i: nat, j: nat, taskId: string, unitId: string)
    requires Keyed(log) && i < |log| && j < |log|
    requires IsCanonicalFor(log[i], taskId, unitId) && IsCanonicalFor(log[j], taskId, unitId)
    ensures i == j
  {
    assert KeyFits(log[i].draft) && KeyFits(log[j].draft);
    assert log[i].Key() == log[j].Key();
  }

  lemma {:induction false} SelectionIsCommitment(log: Events, i: nat, first: Event, selection: CanonicalSelection)
    requires AllTraced(log) && i < |log| && log[i].Payload().CanonicalBound? && IsRecorded(log, first)
    requires selection == SelectionOf(first, selection.consideredReportIds, selection.boundAt)
    ensures SameCommitment(log[i].Payload().selection, selection)
      <==> first.seqNo == log[i].Payload().selection.verificationSeq
  {
    TraceAt(log, i);
  }

  /** The first canonical event found is the only one there is. */
  lemma {:induction false} ExistingIs(log: Events, i: nat, taskId: string, unitId: string)
    requires Keyed(log) && i < |log| && IsCanonicalFor(log[i], taskId, unitId)
    ensures ExistingCanonical(log, taskId, unitId) == Some(log[i])
  {
    ExistingCanonicalFinds(log, taskId, unitId);
    assert log[i] in log;
    var k :| 0 <= k < |log| && log[k] == ExistingCanonical(log, taskId, unitId).value;
    CanonicalOnce(log, i, k, taskId, unitId);
  }

  lemma {:induction false} BindAgain(log: Events, q: BindRequest, existing: Event, selection: CanonicalSelection)
    requires AllRecordedIn(log, q.presented) && SelectFirst(q.presented, q.taskId, q.unitId, q.now) == Ok(selection)
    requires ExistingCanonical(log, q.taskId, q.unitId) == Some(existing) && existing.Payload().CanonicalBound?
    ensures BindWrites(log, q).Ok? <==> SameCommitment(existing.Payload().selection, selection)
    ensures BindWrites(log, q).Ok? ==> BindWrites(log, q) == Ok([])
  {
  }

  /**
   * Re-binding. Once a unit has canonical outputs, presenting recorded verification events again returns
   * the recorded commitment, appending nothing, exactly when the earliest eligible one presented is the
   * one the commitment selected; presenting an earlier eligible report raises.
   */
  lemma {:induction false} RebindIsStable(log: Events, q: BindRequest, i: nat) returns (first: Event)
    requires Keyed(log) && AllTraced(log) && i < |log| && IsCanonicalFor(log[i], q.taskId, q.unitId)
    requires AllRecordedIn(log, q.presented) && exists e :: e in q.presented && Candidate(e, q.taskId, q.unitId)
    ensures first in q.presented && Candidate(first, q.taskId, q.unitId)
    ensures forall e :: e in q.presented && Candidate(e, q.taskId, q.unitId) ==> first.seqNo <= e.seqNo
    ensures BindWrites(log, q).Ok? <==> first.seqNo == log[i].Payload().selection.verificationSeq
    ensures BindWrites(log, q).Ok? ==> BindWrites(log, q) == Ok([])
  {
    first := SelectsEarliest(q.presented, q.taskId, q.unitId, q.now);
    var selection := SelectFirst(q.presented, q.taskId, q.unitId, q.now).value;
    ExistingIs(log, i, q.taskId, q.unitId);
    BindAgain(log, q, log[i], selection);
    SelectionIsCommitment(log, i, first, selection);
  }

  /** In every run the canonical commitment of a unit, once made, is the one any later binding finds. */
  lemma {:induction false} CanonicalIsPermanent(cfg: ProtocolConfig, run: Run, j: nat, k: nat, e: Event,
                                                s: CanonicalSelection)
    requires IsRun(cfg, run) && Keyed(run.Start()) && j <= k
    requires e in run.At(j) && e.Payload() == CanonicalBound(s)
    ensures ExistingCanonical(run.At(k), s.taskId, s.unitId) == Some(e)
  {
    RunIsKeyed(cfg, run, j, k);
    var i :| 0 <= i < |run.At(j)| && run.At(j)[i] == e;
    assert run.At(k)[i] == e;
    ExistingIs(run.At(k), i, s.taskId, s.unitId);
  }
}
