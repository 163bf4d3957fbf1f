/**
 * Asking a second time, at any later point of a run: re-binding canonical outputs and repeating a pruning
 * (src/tokenshare/protocol_engine.py:554-583, 1555-1637, 4410-4446, 4475-4513, 4543-4641).
 */
module Repeats {
  import opened Basics
  import opened Objects
  import opened Ledger
  import opened Verification
  import opened Pruning
  import opened Steps
  import opened Runs
  import opened Provenance

  // ---------------------------------------------------------------- binding again

  lemma {:induction false} CanonicalKeyIsFree(log: Events, taskId: string, unitId: string)
    requires Keyed(log) && ExistingCanonical(log, taskId, unitId).None?
    ensures Lookup(log, CanonicalKey(taskId, unitId)).None?
  {
    ExistingCanonicalFinds(log, taskId, unitId);
    forall i | 0 <= i < |log| ensures log[i].Key() != CanonicalKey(taskId, unitId) {
      assert KeyFits(log[i].draft);
      assert log[i] in log;
    }
    LookupFinds(log, CanonicalKey(taskId, unitId));
  }

  /** A binding that changes the ledger records its selection first. */
  lemma {:induction false} BindEffect(log: Events, q: BindRequest) returns (selection: CanonicalSelection)
    requires Keyed(log) && After(log, BindWrites(log, q)) != log
    ensures AllRecordedIn(log, q.presented) && SelectFirst(q.presented, q.taskId, q.unitId, q.now) == Ok(selection)
    ensures selection.taskId == q.taskId && selection.unitId == q.unitId
    ensures var next := After(log, BindWrites(log, q));
      |next| > |log| && next[|log|].Payload() == CanonicalBound(selection)
  {
    selection := SelectFirst(q.presented, q.taskId, q.unitId, q.now).value;
    var canonical := CanonicalAttempt(q.attempts[selection.attemptId], selection, q.now).value;
    var d, e := CanonicalDraft(selection, q.now), CanonicalAttemptDraft(canonical, selection, q.correlationId, q.now);
    SelectionNamed(q);
    CanonicalKeyIsFree(log, q.taskId, q.unitId);
    TwoAppends(log, d, e);
    AppendAdds(log + [Event(|log| + 1, d, None)], e);
  }

  lemma {:induction false} SelectionNamed(q: BindRequest)
    requires SelectFirst(q.presented, q.taskId, q.unitId, q.now).Ok?
    ensures exists e :: e in q.presented && Candidate(e, q.taskId, q.unitId)
    ensures var s := SelectFirst(q.presented, q.taskId, q.unitId, q.now).value;
      s.taskId == q.taskId && s.unitId == q.unitId
  {
    if forall e :: e in q.presented ==> !Candidate(e, q.taskId, q.unitId) {
      NothingToSelect(q.presented, q.taskId, q.unitId, q.now);
    }
    var first := SelectsEarliest(q.presented, q.taskId, q.unitId, q.now);
  }

  /** The events presented first are presented again, with others only if they were recorded after `before`. */
  predicate PresentsAgain(first: Events, again: Events, before: Events) {
    && (forall e :: e in first ==> e in again)
    && forall e :: e in again ==> e in first || e.seqNo > |before|
  }

  lemma {:induction false} SameEarliest(before: Events, q: BindRequest, again: Events, earliest: Event)
    requires AllRecordedIn(before, q.presented) && PresentsAgain(q.presented, again, before)
    requires SelectFirst(q.presented, q.taskId, q.unitId, q.now).Ok?
    requires earliest in again && Candidate(earliest, q.taskId, q.unitId)
    requires forall e :: e in again && Candidate(e, q.taskId, q.unitId) ==> earliest.seqNo <= e.seqNo
    ensures earliest.seqNo == SelectFirst(q.presented, q.taskId, q.unitId, q.now).value.verificationSeq
  {
    SelectionNamed(q);
    var first := SelectsEarliest(q.presented, q.taskId, q.unitId, q.now);
    assert IsRecorded(before, first);
    assert earliest.seqNo <= first.seqNo;
    if earliest in q.presented { assert first.seqNo <= earliest.seqNo; }
  }

  /**
   * In every run, binding a unit again with the events presented the first time and any recorded since returns
   * the first commitment and appends nothing.
   */
  lemma {:induction false} RebindingReturns(cfg: ProtocolConfig, run: Run, j: nat, k: nat, q: BindRequest,
                                            again: BindRequest)
    requires IsRun(cfg, run) && run.Start() == [] && j < k
    requires run.StepAt(j) == Bind(q) && run.At(j + 1) != run.At(j)
    requires again.taskId == q.taskId && again.unitId == q.unitId
    requires PresentsAgain(q.presented, again.presented, run.At(j)) && AllRecordedIn(run.At(k), again.presented)
    ensures BindWrites(run.At(k), again) == Ok([])
  {
    ExecBind(cfg, run.At(j), q);
    RunIsKeyed(cfg, run, 0, j);
    RunIsKeyed(cfg, run, j + 1, k);
    RunKeepsTraced(cfg, run, k);
    var selection := BindEffect(run.At(j), q);
    assert run.At(k)[|run.At(j)|] == run.At(j + 1)[|run.At(j)|];
    BindsAgain(run.At(j), run.At(k), |run.At(j)|, q, again, selection);
  }

  lemma {:induction false} BindsAgain(before: Events, later: Events, i: nat, q: BindRequest, again: BindRequest,
                                      selection: CanonicalSelection)
    requires Keyed(later) && AllTraced(later) && i < |later| && later[i].Payload() == CanonicalBound(selection)
    requires AllRecordedIn(before, q.presented) && SelectFirst(q.presented, q.taskId, q.unitId, q.now) == Ok(selection)
    requires again.taskId == q.taskId && again.unitId == q.unitId
    requires PresentsAgain(q.presented, again.presented, before) && AllRecordedIn(later, again.presented)
    ensures BindWrites(later, again) == Ok([])
  {
    SelectionNamed(q);
    var e :| e in q.presented && Candidate(e, q.taskId, q.unitId);
    assert e in again.presented;
    var earliest := RebindIsStable(later, again, i);
    SameEarliest(before, q, again.presented, earliest);
  }

  // ---------------------------------------------------------------- pruning again

  /** What a pruning that changes the ledger does to it. */
  lemma {:induction false} PruneEffect(log: Events, q: PruneRequest) returns (parent: TaskUnit, c: Candidates)
    requires After(log, PruneWrites(log, q)) != log
    ensures PruningStep(log, q, parent, c, After(log, PruneWrites(log, q)))
  {
    parent := CompletedParent(log, q.parentUnitId, q.completionSeq).value;
    c := CandidatesFor(log, parent.taskId, q.parentUnitId, q.candidates).value;
    CandidatesAreComplete(log, parent.taskId, q.parentUnitId, q.candidates, q.now);
    BatchAdds(log, PruningBatch(q.parentUnitId, q.completionSeq), PruneDrafts(q, parent.taskId, c));
  }

  lemma {:induction false} KeyedMarkers(log: Events)
    requires KeysFit(log)
    ensures PruneMarkersKeyed(log)
  {
    forall i | 0 <= i < |log| && log[i].Payload().SubtreePruned?
      ensures log[i].Key() == PrunedKey(log[i].Payload().prune.parentUnitId, log[i].Payload().prune.completionSeq)
    {
      assert KeyFits(log[i].draft);
    }
  }

  /** The request repeats the first one, except perhaps in its policy and clock. */
  predicate AsksAgain(q: PruneRequest, again: PruneRequest) {
    again.parentUnitId == q.parentUnitId && again.completionSeq == q.completionSeq && again.candidates == q.candidates
  }

  /** The units that a pruning of `log` cancels. */
  ghost function CancelledBy(log: Events, q: PruneRequest): seq<TaskUnit> {
    var parent := CompletedParent(log, q.parentUnitId, q.completionSeq);
    if parent.Err? then []
    else
      var c := CandidatesFor(log, parent.value.taskId, q.parentUnitId, q.candidates);
      if c.Err? then [] else c.value.cancellable
  }

  /**
   * In every run a pruning asked again at any later time succeeds, appending nothing, exactly when the policy and
   * the clock are the first ones and no unit cancelled then has since become canonical or settled.
   */
  lemma {:induction false} PruningAskedAgain(cfg: ProtocolConfig, run: Run, j: nat, k: nat, q: PruneRequest,
                                             again: PruneRequest)
    requires IsRun(cfg, run) && Keyed(run.Start()) && j < k
    requires run.StepAt(j) == Prune(q) && run.At(j + 1) != run.At(j) && AsksAgain(q, again)
    ensures PruneWrites(run.At(k), again).Ok? <==>
      (again.policyDeclared && again.policy == q.policy && again.now == q.now
       && Spared(CancelledBy(run.At(j), q), CanonicalUnitIds(run.At(k)), SettledUnitIds(run.At(k))))
    ensures PruneWrites(run.At(k), again).Ok? ==> PruneWrites(run.At(k), again) == Ok([])
  {
    ExecPrune(cfg, run.At(j), q);
    RunIsKeyed(cfg, run, j + 1, k);
    KeyedMarkers(run.At(k));
    var parent, c := PruneEffect(run.At(j), q);
    PruningRepeats(run.At(j), q, parent, c, run.At(j + 1), run.At(k), again);
  }
}
