/**
 * A crash between the two appends of a verification or of a canonical binding
 * (src/tokenshare/protocol_engine.py:425-537, 539-665): the first event is on record, the attempt's snapshot is not.
 */
module Crashes {
  import opened Basics
  import opened Objects
  import opened Ledger
  import opened Verification
  import opened Steps
  import opened Runs
  import opened Provenance
  import opened Repeats

  // ---------------------------------------------------------------- verification

  /** Making both calls after the first was made alone leaves what making them once would. */
  lemma {:induction false} RepeatedPairHeals(log: Events, d: Draft, e: Draft)
    ensures Commit(Commit(log, [One(d)]), [One(d), One(e)]) == Commit(log, [One(d), One(e)])
  {
    OneAppend(log, d);
    TwoAppends(log, d, e);
    TwoAppends(Commit(log, [One(d)]), d, e);
    if Lookup(log, d.key).None? {
      var mid := Commit(log, [One(d)]);
      assert mid[..|mid| - 1] == log && Append(mid, d) == Ok(mid);
    }
  }

  /** A verification asked for again after the crash makes up for it. */
  lemma {:induction false} ReverificationHeals(log: Events, report: VerificationReport, attempt: Attempt,
                                               correlationId: string, d: Draft, e: Draft)
    requires VerifyWrites(report, attempt, correlationId) == Ok([One(d), One(e)])
    ensures After(Commit(log, [One(d)]), VerifyWrites(report, attempt, correlationId))
      == After(log, VerifyWrites(report, attempt, correlationId))
  {
    RepeatedPairHeals(log, d, e);
  }

  // ---------------------------------------------------------------- binding

  /** The first append of the binding is made, the second is lost. */
  ghost function CrashedBind(log: Events, s: CanonicalSelection, now: string): Events {
    Commit(log, [One(CanonicalDraft(s, now))])
  }

  /** The binding selects `s` and would also write `lost`. */
  ghost predicate Binds(log: Events, q: BindRequest, s: CanonicalSelection, lost: Draft) {
    BindWrites(log, q) == Ok([One(CanonicalDraft(s, q.now)), One(lost)])
  }

  lemma {:induction false} BindingSelects(log: Events, q: BindRequest, s: CanonicalSelection, lost: Draft)
    requires Binds(log, q, s, lost)
    ensures AllRecordedIn(log, q.presented) && SelectFirst(q.presented, q.taskId, q.unitId, q.now) == Ok(s)
    ensures ExistingCanonical(log, q.taskId, q.unitId).None?
    ensures s.taskId == q.taskId && s.unitId == q.unitId && s.selectionId == SelectionId(q.taskId, q.unitId)
    ensures lost.key == AttemptStateKey(lost.key.attemptId, Some(AttemptState.Verified), AttemptState.Canonical,
                                        BySelection(s.selectionId))
  {
    var selection := SelectFirst(q.presented, q.taskId, q.unitId, q.now).value;
    var canonical := CanonicalAttempt(q.attempts[selection.attemptId], selection, q.now).value;
    assert CanonicalDraft(s, q.now) == CanonicalDraft(selection, q.now);
    SelectionNamed(q);
    var first := SelectsEarliest(q.presented, q.taskId, q.unitId, q.now);
  }

  lemma {:induction false} AppendedIsKeyed(log: Events, d: Draft)
    requires Keyed(log) && KeyFits(d) && Lookup(log, d.key).None?
    ensures Commit(log, [One(d)]) == log + [Event(|log| + 1, d, None)] && Keyed(Commit(log, [One(d)]))
  {
    OneAppend(log, d);
    AppendKeepsWellFormed(log, d);
  }

  lemma {:induction false} CrashLeavesSelection(log: Events, q: BindRequest, s: CanonicalSelection, lost: Draft)
    requires Keyed(log) && Binds(log, q, s, lost)
    ensures CrashedBind(log, s, q.now) == log + [Event(|log| + 1, CanonicalDraft(s, q.now), None)]
    ensures Keyed(CrashedBind(log, s, q.now))
  {
    BindingSelects(log, q, s, lost);
    CanonicalKeyIsFree(log, q.taskId, q.unitId);
    AppendedIsKeyed(log, CanonicalDraft(s, q.now));
  }

  /** Leaving out the second of two appends matters exactly when its key is new. */
  lemma {:induction false} SecondAppendMatters(log: Events, d: Draft, e: Draft)
    requires Lookup(log, d.key).None? && d.key != e.key
    ensures Commit(log, [One(d)]) == Commit(log, [One(d), One(e)]) <==> Lookup(log, e.key).Some?
  {
    var mid := log + [Event(|log| + 1, d, None)];
    OneAppend(log, d);
    TwoAppends(log, d, e);
    OneAppend(mid, e);
    assert mid[..|log|] == log;
  }

  lemma {:induction false} RebindFindsSelection(log: Events, q: BindRequest, s: CanonicalSelection, crashed: Events)
    requires Keyed(crashed) && crashed == log + [Event(|log| + 1, CanonicalDraft(s, q.now), None)]
    requires AllRecordedIn(log, q.presented) && SelectFirst(q.presented, q.taskId, q.unitId, q.now) == Ok(s)
    requires s.taskId == q.taskId && s.unitId == q.unitId
    ensures BindWrites(crashed, q) == Ok([])
  {
    ExistingIs(crashed, |log|, q.taskId, q.unitId);
    forall e | e in q.presented ensures IsRecorded(crashed, e) { assert IsRecorded(log, e); }
    BindAgain(crashed, q, crashed[|log|], s);
  }

  /**
   * Binding again after the crash returns the commitment and writes nothing, so the ledger is the one an undisturbed
   * binding leaves exactly when the attempt's event had its key on record already.
   */
  lemma {:induction false} RebindDoesNotHeal(log: Events, q: BindRequest, s: CanonicalSelection, lost: Draft)
    requires Keyed(log) && Binds(log, q, s, lost)
    ensures BindWrites(CrashedBind(log, s, q.now), q) == Ok([])
    ensures CrashedBind(log, s, q.now) == After(log, BindWrites(log, q)) <==> Lookup(log, lost.key).Some?
  {
    BindingSelects(log, q, s, lost);
    CanonicalKeyIsFree(log, q.taskId, q.unitId);
    CrashLeavesSelection(log, q, s, lost);
    RebindFindsSelection(log, q, s, CrashedBind(log, s, q.now));
    SecondAppendMatters(log, CanonicalDraft(s, q.now), lost);
  }

  // ---------------------------------------------------------------- whole runs after the crash

  predicate TaggedBySelection(key: Key) {
    key.AttemptStateKey? && key.tag.BySelection?
  }

  lemma {:induction false} SubmitTags(cfg: ProtocolConfig, log: Events, s: Submission, attempt: Attempt, lease: Lease,
                                      correlationId: string)
    ensures forall d :: d in DraftsOf(SubmitWrites(cfg, log, s, attempt, lease, correlationId)) ==>
      !TaggedBySelection(d.key)
  {
    if SubmitWrites(cfg, log, s, attempt, lease, correlationId).Ok? {
      var writes := SubmitWrites(cfg, log, s, attempt, lease, correlationId).value;
      if |writes| == 1 { OneCall(writes[0].draft); } else { TwoCalls(writes[0].draft, writes[1].draft); }
    }
  }

  lemma {:induction false} VerifyTags(report: VerificationReport, attempt: Attempt, correlationId: string)
    ensures forall d :: d in DraftsOf(VerifyWrites(report, attempt, correlationId)) ==> !TaggedBySelection(d.key)
  {
    if VerifyWrites(report, attempt, correlationId).Ok? {
      var valid, verified := VerifyShape(report, attempt, correlationId);
      OneCall(VerificationDraft(valid));
      TwoCalls(VerificationDraft(valid), VerifiedDraft(verified, valid, correlationId));
    }
  }

  lemma {:induction false} ScheduleTags(cfg: ProtocolConfig, log: Events, q: ScheduleRequest)
    ensures forall d :: d in DraftsOf(ScheduleWrites(cfg, log, q)) ==> !TaggedBySelection(d.key)
  {
    if ScheduleWrites(cfg, log, q).Ok? {
      var _, _, claim, processing := ScheduleShape(cfg, log, q);
      OneBatch(ScheduleBatch(q.attemptId), ScheduleDrafts(claim, processing, q.now, q.correlationId));
    }
  }

  lemma {:induction false} RecoverTags(cfg: ProtocolConfig, log: Events, q: RecoverRequest)
    ensures forall d :: d in DraftsOf(RecoverWrites(cfg, log, q)) ==> !TaggedBySelection(d.key)
  {
    if RecoverWrites(cfg, log, q).Ok? {
      var lease, attempt, unit := RecoverShape(cfg, log, q);
      OneBatch(RecoveryBatch(q.actionId), RecoveryDrafts(q, lease, attempt, unit));
    }
  }

  lemma {:induction false} ExecutionTags(cfg: ProtocolConfig, log: Events, step: Step)
    requires step.Schedule? || step.Submit? || step.Verify? || step.Recover?
    ensures forall d :: d in DraftsOf(Writes(cfg, log, step)) ==> !TaggedBySelection(d.key)
  {
    match step {
      case Schedule(q) => ScheduleTags(cfg, log, q);
      case Submit(s, attempt, lease, correlationId) => SubmitTags(cfg, log, s, attempt, lease, correlationId);
      case Verify(report, attempt, correlationId) => VerifyTags(report, attempt, correlationId);
      case Recover(q) => RecoverTags(cfg, log, q);
    }
  }

  lemma {:induction false} UntaggedKinds(step: Step, d: Draft)
    requires DraftFits(step, d) && !Records(step, AttemptKind)
    ensures !TaggedBySelection(d.key)
  {
  }

  /** Only a binding writes keys that name a selection. */
  lemma {:induction false} OnlyBindingTags(cfg: ProtocolConfig, log: Events, step: Step)
    requires !step.Bind?
    ensures forall d :: d in DraftsOf(Writes(cfg, log, step)) ==> !TaggedBySelection(d.key)
  {
    if Records(step, AttemptKind) {
      ExecutionTags(cfg, log, step);
    } else {
      StepFits(cfg, log, step);
      OtherTags(step, DraftsOf(Writes(cfg, log, step)));
    }
  }

  lemma {:induction false} OtherTags(step: Step, drafts: seq<Draft>)
    requires DraftsFit(step, drafts) && !Records(step, AttemptKind)
    ensures forall d :: d in drafts ==> !TaggedBySelection(d.key)
  {
    forall d | d in drafts ensures !TaggedBySelection(d.key) {
      var i :| 0 <= i < |drafts| && drafts[i] == d;
      UntaggedKinds(step, drafts[i]);
    }
  }

  lemma {:induction false} BindTags(log: Events, q: BindRequest)
    ensures forall d :: d in DraftsOf(BindWrites(log, q)) && TaggedBySelection(d.key) ==>
      d.key.tag == BySelection(SelectionId(q.taskId, q.unitId))
  {
    if BindWrites(log, q).Ok? && BindWrites(log, q).value != [] {
      var writes := BindWrites(log, q).value;
      BindingSelects(log, q, writes[0].draft.payload.selection, writes[1].draft);
      TwoCalls(writes[0].draft, writes[1].draft);
    }
  }

  lemma {:induction false} BoundWritesNothing(log: Events, q: BindRequest)
    requires ExistingCanonical(log, q.taskId, q.unitId).Some?
    ensures After(log, BindWrites(log, q)) == log
  {
  }

  /** A binding whose selection id reads like this one is of the same unit. */
  predicate OwnSelectionId(step: Step, s: CanonicalSelection) {
    step.Bind? && SelectionId(step.bind.taskId, step.bind.unitId) == s.selectionId ==>
      step.bind.taskId == s.taskId && step.bind.unitId == s.unitId
  }

  lemma {:induction false} KeyStaysFree(log: Events, writes: Result<seq<Write>>, key: Key)
    requires Lookup(log, key).None? && forall d :: d in DraftsOf(writes) ==> d.key != key
    ensures Lookup(After(log, writes), key).None?
  {
    var next := After(log, writes);
    if writes.Ok? {
      CommitAddsOnlyDrafts(log, writes.value);
      LookupNone(log, key);
      LookupFinds(next, key);
      forall i | 0 <= i < |next| ensures next[i].Key() != key {
        if i < |log| { assert next[i] == log[i]; }
      }
    }
  }

  lemma {:induction false} StepLosesSnapshot(cfg: ProtocolConfig, log: Events, step: Step, s: CanonicalSelection,
                                             key: Key)
    requires ExistingCanonical(log, s.taskId, s.unitId).Some? && OwnSelectionId(step, s)
    requires key.AttemptStateKey? && key.tag == BySelection(s.selectionId) && Lookup(log, key).None?
    ensures Lookup(Exec(cfg, log, step), key).None?
  {
    if step.Bind? {
      ExecBind(cfg, log, step.bind);
      if step.bind.taskId == s.taskId && step.bind.unitId == s.unitId {
        BoundWritesNothing(log, step.bind);
      } else {
        BindTags(log, step.bind);
        KeyStaysFree(log, BindWrites(log, step.bind), key);
      }
    } else {
      OnlyBindingTags(cfg, log, step);
      KeyStaysFree(log, Writes(cfg, log, step), key);
    }
  }

  lemma {:induction false} NextLosesSnapshot(cfg: ProtocolConfig, run: Run, k: nat, s: CanonicalSelection, key: Key)
    requires IsRun(cfg, run) && ExistingCanonical(run.At(k), s.taskId, s.unitId).Some?
    requires OwnSelectionId(run.StepAt(k), s)
    requires key.AttemptStateKey? && key.tag == BySelection(s.selectionId) && Lookup(run.At(k), key).None?
    ensures Lookup(run.At(k + 1), key).None?
  {
    StepLosesSnapshot(cfg, run.At(k), run.StepAt(k), s, key);
  }

  lemma {:induction false} KeyStaysLost(cfg: ProtocolConfig, run: Run, k: nat, bound: Event, s: CanonicalSelection,
                                        key: Key)
    requires IsRun(cfg, run) && Keyed(run.Start()) && bound in run.Start() && bound.Payload() == CanonicalBound(s)
    requires forall i: nat {:trigger run.StepAt(i)} :: i < k ==> OwnSelectionId(run.StepAt(i), s)
    requires key.AttemptStateKey? && key.tag == BySelection(s.selectionId) && Lookup(run.Start(), key).None?
    ensures Lookup(run.At(k), key).None?
  {
    if k > 0 {
      KeyStaysLost(cfg, run, k - 1, bound, s, key);
      CanonicalIsPermanent(cfg, run, 0, k - 1, bound, s);
      NextLosesSnapshot(cfg, run, k - 1, s, key);
    }
  }

  /**
   * The snapshot lost in the crash is never written: not by any later run, whatever its steps, as long as no other
   * unit's selection id is printed like this one.
   */
  lemma {:induction false} LostSnapshotStaysLost(cfg: ProtocolConfig, run: Run, k: nat, log: Events, q: BindRequest,
                                                 s: CanonicalSelection, lost: Draft)
    requires Keyed(log) && Binds(log, q, s, lost) && Lookup(log, lost.key).None?
    requires IsRun(cfg, run) && run.Start() == CrashedBind(log, s, q.now)
    requires forall i: nat {:trigger run.StepAt(i)} :: i < k ==> OwnSelectionId(run.StepAt(i), s)
    ensures Lookup(run.At(k), lost.key).None?
  {
    CrashLeavesSelection(log, q, s, lost);
    BindingSelects(log, q, s, lost);
    assert run.Start()[..|log|] == log && run.Start()[|log|] in run.Start();
    KeyStaysLost(cfg, run, k, run.Start()[|log|], s, lost.key);
  }
}
