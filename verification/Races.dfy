/**
 * Submission against expiry, over whole runs
 * (src/tokenshare/protocol_engine.py:310-423, 1829-2050; src/tokenshare/core/recovery.py:96-115).
 */
module Races {
  import opened Basics
  import opened Objects
  import opened Snapshots
  import opened Ledger
  import opened Lifecycles
  import opened Projections
  import opened Verification
  import opened Steps
  import opened Runs

  predicate Accepts(e: Event, attemptId: string) {
    e.Payload().SubmissionRecorded? && e.Payload().rejection.None? && e.Payload().submission.attemptId == attemptId
  }

  predicate Expires(e: Event, attemptId: string) {
    e.Payload().LeaseChanged? && e.Payload().lease.state.Expired? && e.Payload().lease.attemptId == attemptId
  }

  /** Accepted submissions of the attempt plus expiries of its leases. */
  ghost function Outcomes(log: Events, attemptId: string): nat {
    if log == [] then 0
    else
      var last := log[|log| - 1];
      Outcomes(log[..|log| - 1], attemptId) + if Accepts(last, attemptId) || Expires(last, attemptId) then 1 else 0
  }

  predicate Snapshot(e: Event, attemptId: string) {
    e.Payload().AttemptChanged? && e.Payload().attempt.attemptId == attemptId
  }

  predicate Early(state: AttemptState) {
    state.Created? || state.Running?
  }

  /** The attempt is unknown, or its latest snapshot is Created or Running. */
  ghost predicate Live(log: Events, attemptId: string) {
    LatestAttempt(log, attemptId).Some? ==> Early(LatestAttempt(log, attemptId).value.state)
  }

  ghost predicate NeverLeft(log: Events, attemptId: string) {
    forall i :: 0 <= i < |log| && Snapshot(log[i], attemptId) ==> Early(log[i].Payload().attempt.state)
  }

  /** At most one outcome, and none while the attempt is live. */
  ghost predicate Raced(log: Events, attemptId: string) {
    && Outcomes(log, attemptId) <= 1
    && (Live(log, attemptId) ==> Outcomes(log, attemptId) == 0 && NeverLeft(log, attemptId))
  }

  /** The event neither decides the attempt nor records a snapshot of it. */
  predicate Unrelated(e: Event, attemptId: string) {
    !Accepts(e, attemptId) && !Expires(e, attemptId) && !Snapshot(e, attemptId)
  }

  // ---------------------------------------------------------------- one event at a time

  lemma {:induction false} AppendEffect(log: Events, e: Event, attemptId: string)
    ensures var next := log + [e];
      && Outcomes(next, attemptId) == Outcomes(log, attemptId)
        + (if Accepts(e, attemptId) || Expires(e, attemptId) then 1 else 0)
      && LatestAttempt(next, attemptId) ==
           (if Snapshot(e, attemptId) then Some(e.Payload().attempt) else LatestAttempt(log, attemptId))
      && (NeverLeft(next, attemptId) <==>
           (NeverLeft(log, attemptId) && (Snapshot(e, attemptId) ==> Early(e.Payload().attempt.state))))
  {
    var next := log + [e];
    assert next[..|log|] == log;
    if NeverLeft(next, attemptId) {
      assert forall i :: 0 <= i < |log| ==> next[i] == log[i];
      assert next[|log|] == e;
    }
  }

  lemma {:induction false} UnrelatedKeeps(log: Events, e: Event, attemptId: string)
    requires Raced(log, attemptId) && Unrelated(e, attemptId)
    ensures Raced(log + [e], attemptId)
  {
    AppendEffect(log, e, attemptId);
  }

  /** Leaving the early states settles the attempt. */
  lemma {:induction false} LeavingSettles(log: Events, e: Event, attemptId: string)
    requires Outcomes(log, attemptId) <= 1 && Snapshot(e, attemptId) && !Early(e.Payload().attempt.state)
    ensures Raced(log + [e], attemptId)
  {
    AppendEffect(log, e, attemptId);
  }

  lemma {:induction false} UnrelatedEventsKeep(log: Events, more: Events, attemptId: string)
    requires Raced(log, attemptId) && forall i :: 0 <= i < |more| ==> Unrelated(more[i], attemptId)
    ensures Raced(log + more, attemptId)
  {
    if more == [] {
      assert log + more == log;
    } else {
      var n := |more| - 1;
      UnrelatedEventsKeep(log, more[..n], attemptId);
      UnrelatedKeeps(log + more[..n], more[n], attemptId);
      assert log + more == log + more[..n] + [more[n]];
    }
  }

  lemma {:induction false} QuietExtensionKeeps(log: Events, next: Events, step: Step, attemptId: string)
    requires Raced(log, attemptId) && ExtendsBy(log, next, step)
    requires !Records(step, AttemptKind) && !Records(step, LeaseKind) && !Records(step, SubmissionKind)
    ensures Raced(next, attemptId)
  {
    var more := next[|log|..];
    assert next == log + more;
    forall i | 0 <= i < |more| ensures Unrelated(more[i], attemptId) {
      assert Records(step, KindOf(next[|log| + i].Payload()));
    }
    UnrelatedEventsKeep(log, more, attemptId);
  }

  /** Steps that record neither attempts, nor leases, nor submissions cannot decide a race. */
  lemma {:induction false} QuietStepKeeps(cfg: ProtocolConfig, log: Events, step: Step, attemptId: string)
    requires Keyed(log) && Raced(log, attemptId)
    requires !Records(step, AttemptKind) && !Records(step, LeaseKind) && !Records(step, SubmissionKind)
    ensures Raced(Exec(cfg, log, step), attemptId)
  {
    StepAppends(cfg, log, step);
    QuietExtensionKeeps(log, Exec(cfg, log, step), step, attemptId);
  }

  // ---------------------------------------------------------------- step by step

  ghost predicate Harmless(e: Event, attemptId: string) {
    !Accepts(e, attemptId) && !Expires(e, attemptId) && (Snapshot(e, attemptId) ==> Early(e.Payload().attempt.state))
  }

  lemma {:induction false} HarmlessEventsKeep(log: Events, more: Events, attemptId: string)
    requires Raced(log, attemptId) && Live(log, attemptId)
    requires forall i :: 0 <= i < |more| ==> Harmless(more[i], attemptId)
    ensures Raced(log + more, attemptId) && Live(log + more, attemptId)
  {
    if more == [] {
      assert log + more == log;
    } else {
      var n := |more| - 1;
      HarmlessEventsKeep(log, more[..n], attemptId);
      AppendEffect(log + more[..n], more[n], attemptId);
      assert log + more == log + more[..n] + [more[n]];
    }
  }

  lemma {:induction false} ScheduledEventsKeep(log: Events, q: ScheduleRequest, claim: LeaseClaim,
                                               processing: TaskUnit, attemptId: string)
    requires Raced(log, attemptId) && (attemptId == q.attemptId ==> Live(log, attemptId))
    requires claim.lease.state.Active? && claim.created.attemptId == claim.running.attemptId == q.attemptId
    requires Early(claim.created.state) && Early(claim.running.state)
    ensures Raced(log + Stamp(|log|, ScheduleBatch(q.attemptId),
                              ScheduleDrafts(claim, processing, q.now, q.correlationId)), attemptId)
  {
    var more := Stamp(|log|, ScheduleBatch(q.attemptId), ScheduleDrafts(claim, processing, q.now, q.correlationId));
    if attemptId == q.attemptId {
      forall i | 0 <= i < |more| ensures Harmless(more[i], attemptId) {}
      HarmlessEventsKeep(log, more, attemptId);
    } else {
      forall i | 0 <= i < |more| ensures Unrelated(more[i], attemptId) {}
      UnrelatedEventsKeep(log, more, attemptId);
    }
  }

  /** The attempt is unknown to the ledger, or was scheduled by it: then the batch id is taken and nothing is added. */
  ghost predicate NewToSchedule(log: Events, attemptId: string) {
    LatestAttempt(log, attemptId).None? || HasBatch(log, ScheduleBatch(attemptId))
  }

  lemma {:induction false} ScheduleKeeps(cfg: ProtocolConfig, log: Events, q: ScheduleRequest, attemptId: string)
    requires Raced(log, attemptId) && NewToSchedule(log, q.attemptId)
    ensures Raced(After(log, ScheduleWrites(cfg, log, q)), attemptId)
  {
    if ScheduleWrites(cfg, log, q).Ok? {
      var _, _, claim, processing := ScheduleShape(cfg, log, q);
      if HasBatch(log, ScheduleBatch(q.attemptId)) {
        BatchOnRecord(log, ScheduleBatch(q.attemptId), ScheduleDrafts(claim, processing, q.now, q.correlationId));
        return;
      }
      BatchAdds(log, ScheduleBatch(q.attemptId), ScheduleDrafts(claim, processing, q.now, q.correlationId));
      ScheduledEventsKeep(log, q, claim, processing, attemptId);
    }
  }

  lemma {:induction false} RenewKeeps(cfg: ProtocolConfig, log: Events, lease: Lease, at: string,
                                      correlationId: string, attemptId: string)
    requires Raced(log, attemptId)
    ensures Raced(After(log, HeartbeatWrites(cfg, log, lease, at, correlationId)), attemptId)
  {
    if HeartbeatWrites(cfg, log, lease, at, correlationId).Err? { return; }
    var draft := HeartbeatWrites(cfg, log, lease, at, correlationId).value[0].draft;
    AppendAdds(log, draft);
    UnrelatedKeeps(log, Event(|log| + 1, draft, None), attemptId);
  }

  /** Recording an unrelated event and then one that settles the attempt it is about. */
  lemma {:induction false} SettlingPairKeeps(log: Events, d: Draft, e: Draft, attemptId: string)
    requires Raced(log, attemptId)
    requires forall seqNo :: Unrelated(Event(seqNo, d, None), attemptId)
    requires e.payload.AttemptChanged? && !Early(e.payload.attempt.state)
    ensures Raced(Commit(log, [One(d), One(e)]), attemptId)
  {
    TwoAppends(log, d, e);
    AppendAdds(log, d);
    if Append(log, d).Ok? {
      var mid := Append(log, d).value;
      if mid != log { UnrelatedKeeps(log, Event(|log| + 1, d, None), attemptId); }
      AppendAdds(mid, e);
      SettlingKeeps(mid, Event(|mid| + 1, e, None), attemptId);
    }
  }

  lemma {:induction false} SettlingKeeps(log: Events, e: Event, attemptId: string)
    requires Raced(log, attemptId) && e.Payload().AttemptChanged? && !Early(e.Payload().attempt.state)
    ensures Raced(log + [e], attemptId)
  {
    if Snapshot(e, attemptId) { LeavingSettles(log, e, attemptId); } else { UnrelatedKeeps(log, e, attemptId); }
  }

  lemma {:induction false} VerifyKeeps(log: Events, report: VerificationReport, attempt: Attempt,
                                       correlationId: string, attemptId: string)
    requires Raced(log, attemptId)
    ensures Raced(After(log, VerifyWrites(report, attempt, correlationId)), attemptId)
  {
    if VerifyWrites(report, attempt, correlationId).Err? { return; }
    var valid, verified := VerifyShape(report, attempt, correlationId);
    if valid.status.Error? {
      AppendAdds(log, VerificationDraft(valid));
      UnrelatedKeeps(log, Event(|log| + 1, VerificationDraft(valid), None), attemptId);
    } else {
      assert verified.state == VerifiedState(valid.status);
      SettlingPairKeeps(log, VerificationDraft(valid), VerifiedDraft(verified, valid, correlationId), attemptId);
    }
  }

  lemma {:induction false} BindKeeps(log: Events, q: BindRequest, attemptId: string)
    requires Raced(log, attemptId)
    ensures Raced(After(log, BindWrites(log, q)), attemptId)
  {
    if BindWrites(log, q).Err? { return; }
    var writes := BindWrites(log, q).value;
    if writes != [] {
      var selection := SelectFirst(q.presented, q.taskId, q.unitId, q.now).value;
      var canonical := CanonicalAttempt(q.attempts[selection.attemptId], selection, q.now).value;
      SettlingPairKeeps(log, CanonicalDraft(selection, q.now),
                        CanonicalAttemptDraft(canonical, selection, q.correlationId, q.now), attemptId);
    }
  }

  lemma {:induction false} LatestAttemptNamed(log: Events, attemptId: string)
    ensures LatestAttempt(log, attemptId).Some? ==> LatestAttempt(log, attemptId).value.attemptId == attemptId
  {
    if log != [] { LatestAttemptNamed(log[..|log| - 1], attemptId); }
  }

  /** A key already recorded names a snapshot of the attempt in the state it announces. */
  lemma {:induction false} RecordedSnapshot(log: Events, d: Draft)
    requires Keyed(log) && d.key.AttemptStateKey? && Lookup(log, d.key).Some?
    ensures exists i ::
      0 <= i < |log| && Snapshot(log[i], d.key.attemptId) && log[i].Payload().attempt.state == d.key.attemptAfter
  {
    LookupFinds(log, d.key);
    var i :| 0 <= i < |log| && log[i] == Lookup(log, d.key).value && log[i].Key() == d.key;
    assert KeyFits(log[i].draft);
  }

  lemma {:induction false} RecordedSubmission(log: Events, d: Draft)
    requires d.payload.SubmissionRecorded? && Append(log, d).Ok? && Lookup(log, d.key).Some?
    ensures exists i :: 0 <= i < |log| && log[i].Payload() == d.payload
  {
    LookupFinds(log, d.key);
  }

  lemma {:induction false} OutcomeCounts(log: Events, attemptId: string, i: nat)
    requires i < |log| && (Accepts(log[i], attemptId) || Expires(log[i], attemptId))
    ensures Outcomes(log, attemptId) >= 1
  {
    if i < |log| - 1 { OutcomeCounts(log[..|log| - 1], attemptId, i); }
  }

  /** An accepted submission and its attempt transition are recorded together. */
  lemma {:induction false} AcceptanceKeeps(log: Events, s: Submission, submitted: Attempt, correlationId: string,
                                           attemptId: string)
    requires Keyed(log) && Raced(log, attemptId) && Raced(log, submitted.attemptId) && Live(log, submitted.attemptId)
    requires s.attemptId == submitted.attemptId && submitted.state.Submitted?
    ensures Raced(Commit(log, [One(SubmissionDraft(s, None)), One(SubmittedDraft(submitted, s, correlationId))]),
                  attemptId)
  {
    var d, e := SubmissionDraft(s, None), SubmittedDraft(submitted, s, correlationId);
    var x := submitted.attemptId;
    TwoAppends(log, d, e);
    if Append(log, d).Ok? {
      if Lookup(log, d.key).Some? {
        RecordedSubmission(log, d);
        var i :| 0 <= i < |log| && log[i].Payload() == d.payload;
        OutcomeCounts(log, x, i);
      }
      var accepted := Event(|log| + 1, d, None);
      var mid := log + [accepted];
      assert Append(log, d) == Ok(mid);
      AppendEffect(log, accepted, attemptId);
      AppendEffect(log, accepted, x);
      if Lookup(mid, e.key).Some? { NotRecordedTwice(log, accepted, e); }
      assert Commit(mid, [One(e)]) == mid + [Event(|mid| + 1, e, None)] by { assert [One(e)][1..] == []; }
      if attemptId == x {
        LeavingSettles(mid, Event(|mid| + 1, e, None), x);
      } else {
        UnrelatedKeeps(log, accepted, attemptId);
        UnrelatedKeeps(mid, Event(|mid| + 1, e, None), attemptId);
      }
    }
  }

  lemma {:induction false} NotRecordedTwice(log: Events, accepted: Event, e: Draft)
    requires Keyed(log) && e.key.AttemptStateKey? && !Early(e.key.attemptAfter) && NeverLeft(log, e.key.attemptId)
    requires accepted.Key() != e.key
    ensures Lookup(log + [accepted], e.key).None?
  {
    var mid := log + [accepted];
    assert mid[..|log|] == log;
    if Lookup(log, e.key).Some? {
      RecordedSnapshot(log, e);
    }
  }

  lemma {:induction false} SubmitKeeps(cfg: ProtocolConfig, log: Events, s: Submission, attempt: Attempt, lease: Lease,
                                       correlationId: string,
                    attemptId: string)
    requires Keyed(log) && forall id :: Raced(log, id)
    ensures Raced(After(log, SubmitWrites(cfg, log, s, attempt, lease, correlationId)), attemptId)
  {
    if SubmitWrites(cfg, log, s, attempt, lease, correlationId).Err? { return; }
    var ownAttempt := AuthoritativeAttempt(log, attempt).value;
    var ownLease := AuthoritativeLease(log, lease).value;
    var rejection := SubmissionRejection(cfg.clock, s, ownAttempt, ownLease);
    LatestAttemptNamed(log, attempt.attemptId);
    if rejection.Some? {
      AppendAdds(log, SubmissionDraft(s, rejection));
      UnrelatedKeeps(log, Event(|log| + 1, SubmissionDraft(s, rejection), None), attemptId);
    } else {
      AcceptanceKeeps(log, s, SubmitAttempt(ownAttempt, s).value, correlationId, attemptId);
    }
  }

  lemma {:induction false} RecoveryOfOther(log: Events, q: RecoverRequest, lease: Lease, attempt: Attempt,
                                           unit: TaskUnit, attemptId: string)
    requires Raced(log, attemptId) && attemptId != q.attempt.attemptId
    requires attempt.attemptId == q.attempt.attemptId && lease.attemptId == q.attempt.attemptId
    ensures Raced(log + Stamp(|log|, RecoveryBatch(q.actionId), RecoveryDrafts(q, lease, attempt, unit)), attemptId)
  {
    var more := Stamp(|log|, RecoveryBatch(q.actionId), RecoveryDrafts(q, lease, attempt, unit));
    forall i | 0 <= i < |more| ensures Unrelated(more[i], attemptId) {}
    UnrelatedEventsKeep(log, more, attemptId);
  }

  lemma {:induction false} FourEventsSettle(log: Events, more: Events, attemptId: string)
    requires Raced(log, attemptId) && |more| == 4
    requires !Accepts(more[0], attemptId) && (Expires(more[0], attemptId) ==> Live(log, attemptId))
    requires Snapshot(more[1], attemptId) && !Early(more[1].Payload().attempt.state)
    requires Unrelated(more[2], attemptId) && Unrelated(more[3], attemptId)
    ensures Raced(log + more, attemptId)
  {
    var one, two := log + [more[0]], log + [more[0]] + [more[1]];
    AppendEffect(log, more[0], attemptId);
    LeavingSettles(one, more[1], attemptId);
    UnrelatedKeeps(two, more[2], attemptId);
    UnrelatedKeeps(two + [more[2]], more[3], attemptId);
    assert log + more == two + [more[2]] + [more[3]];
  }

  /** A recovery of the attempt itself: its lease event, then its settling snapshot unless it was terminal already. */
  lemma {:induction false} RecoveryOfSelf(log: Events, q: RecoverRequest, lease: Lease, attempt: Attempt,
                                          unit: TaskUnit)
    requires Raced(log, q.attempt.attemptId)
    requires attempt.attemptId == q.attempt.attemptId && lease.attemptId == q.attempt.attemptId && !Early(attempt.state)
    requires lease.state.Expired? ==> Live(log, q.attempt.attemptId) && !WasTerminal(q)
    ensures Raced(log + Stamp(|log|, RecoveryBatch(q.actionId), RecoveryDrafts(q, lease, attempt, unit)),
                  q.attempt.attemptId)
  {
    var more := Stamp(|log|, RecoveryBatch(q.actionId), RecoveryDrafts(q, lease, attempt, unit));
    if WasTerminal(q) {
      forall i | 0 <= i < |more| ensures Unrelated(more[i], q.attempt.attemptId) {}
      UnrelatedEventsKeep(log, more, q.attempt.attemptId);
    } else {
      FourEventsSettle(log, more, q.attempt.attemptId);
    }
  }

  /** A lease can only expire while the ledger's attempt is still live. */
  lemma {:induction false} ExpiryIsEarly(log: Events, q: RecoverRequest)
    requires IsLatest(log, q) && Early(q.attempt.state)
    ensures Live(log, q.attempt.attemptId)
  {
  }

  lemma {:induction false} RecoveryKeeps(log: Events, q: RecoverRequest, lease: Lease, attempt: Attempt,
                                         unit: TaskUnit, attemptId: string)
    requires Raced(log, attemptId) && RecoveredFrom(q, lease, attempt)
    requires HasBatch(log, RecoveryBatch(q.actionId)) || IsLatest(log, q)
    ensures Raced(Commit(log, [Batch(RecoveryBatch(q.actionId), RecoveryDrafts(q, lease, attempt, unit))]), attemptId)
  {
    var id, drafts := RecoveryBatch(q.actionId), RecoveryDrafts(q, lease, attempt, unit);
    BatchAdds(log, id, drafts);
    if Commit(log, [Batch(id, drafts)]) != log {
      if attemptId == q.attempt.attemptId {
        if lease.state.Expired? { ExpiryIsEarly(log, q); }
        RecoveryOfSelf(log, q, lease, attempt, unit);
      } else {
        RecoveryOfOther(log, q, lease, attempt, unit, attemptId);
      }
    }
  }

  lemma {:induction false} RecoverKeeps(cfg: ProtocolConfig, log: Events, q: RecoverRequest, attemptId: string)
    requires Raced(log, attemptId)
    ensures Raced(After(log, RecoverWrites(cfg, log, q)), attemptId)
  {
    if RecoverWrites(cfg, log, q).Ok? {
      var lease, attempt, unit := RecoverOutcome(cfg, log, q);
      RecoveryKeeps(log, q, lease, attempt, unit, attemptId);
    }
  }

  // ---------------------------------------------------------------- a crash between the two calls

  /** The ledger when the process dies after the first call of an accepted submission. */
  ghost function AfterCrash(log: Events, s: Submission): Events {
    Commit(log, [One(SubmissionDraft(s, None))])
  }

  ghost predicate IsAccepted(cfg: ProtocolConfig, log: Events, s: Submission, attempt: Attempt, lease: Lease,
                             correlationId: string,
                           submitted: Attempt) {
    SubmitWrites(cfg, log, s, attempt, lease, correlationId)
      == Ok([One(SubmissionDraft(s, None)), One(SubmittedDraft(submitted, s, correlationId))])
  }

  lemma {:induction false} AcceptedIsLive(cfg: ProtocolConfig, log: Events, s: Submission, attempt: Attempt,
                                          lease: Lease,
                                          correlationId: string, submitted: Attempt)
    requires IsAccepted(cfg, log, s, attempt, lease, correlationId, submitted)
    ensures Live(log, s.attemptId) && submitted.attemptId == s.attemptId && submitted.state.Submitted?
    ensures attempt.attemptId == s.attemptId && lease.leaseId == s.leaseId
  {
    LatestAttemptNamed(log, attempt.attemptId);
    LatestLeaseIsRecorded(log, lease.leaseId);
    var ownAttempt := AuthoritativeAttempt(log, attempt).value;
    var ownLease := AuthoritativeLease(log, lease).value;
    assert SubmissionRejection(cfg.clock, s, ownAttempt, ownLease).None?;
    assert SubmittedDraft(SubmitAttempt(ownAttempt, s).value, s, correlationId)
      == SubmittedDraft(submitted, s, correlationId);
  }

  /**
   * A crash after the acceptance is recorded and before the attempt's snapshot is leaves the attempt open to an
   * expiry, exactly when the acceptance was new to the ledger.
   */
  lemma {:induction false} CrashLeavesRaceOpen(cfg: ProtocolConfig, log: Events, s: Submission, attempt: Attempt,
                                               lease: Lease,
                                               correlationId: string, submitted: Attempt)
    requires Raced(log, s.attemptId) && IsAccepted(cfg, log, s, attempt, lease, correlationId, submitted)
    ensures Raced(AfterCrash(log, s), s.attemptId) <==> AfterCrash(log, s) == log
    ensures AfterCrash(log, s) != log ==>
      Outcomes(AfterCrash(log, s), s.attemptId) == 1 && Live(AfterCrash(log, s), s.attemptId)
  {
    AcceptedIsLive(cfg, log, s, attempt, lease, correlationId, submitted);
    AppendAdds(log, SubmissionDraft(s, None));
    AppendEffect(log, Event(|log| + 1, SubmissionDraft(s, None), None), s.attemptId);
  }

  lemma {:induction false} CrashKeepsAcceptance(cfg: ProtocolConfig, log: Events, s: Submission, attempt: Attempt,
                                                lease: Lease,
                                                correlationId: string, submitted: Attempt)
    requires IsAccepted(cfg, log, s, attempt, lease, correlationId, submitted) && AfterCrash(log, s) != log
    ensures IsAccepted(cfg, AfterCrash(log, s), s, attempt, lease, correlationId, submitted)
  {
    AppendAdds(log, SubmissionDraft(s, None));
    ProjectionsOfAppend(log, Event(|log| + 1, SubmissionDraft(s, None), None), attempt.attemptId);
    ProjectionsOfAppend(log, Event(|log| + 1, SubmissionDraft(s, None), None), lease.leaseId);
  }

  /** Submitting again before anything else happens closes the race: the crash then leaves no trace. */
  lemma {:induction false} ResubmissionHeals(cfg: ProtocolConfig, log: Events, s: Submission, attempt: Attempt,
                                             lease: Lease,
                                             correlationId: string, submitted: Attempt)
    requires IsAccepted(cfg, log, s, attempt, lease, correlationId, submitted) && AfterCrash(log, s) != log
    ensures var crashed := AfterCrash(log, s);
      After(crashed, SubmitWrites(cfg, crashed, s, attempt, lease, correlationId))
        == After(log, SubmitWrites(cfg, log, s, attempt, lease, correlationId))
  {
    var d, e := SubmissionDraft(s, None), SubmittedDraft(submitted, s, correlationId);
    var crashed := AfterCrash(log, s);
    CrashKeepsAcceptance(cfg, log, s, attempt, lease, correlationId, submitted);
    AppendAdds(log, d);
    TwoAppends(log, d, e);
    TwoAppends(crashed, d, e);
    assert crashed[..|log|] == log;
    assert Append(crashed, d) == Ok(crashed);
  }

  // ---------------------------------------------------------------- whole runs

  /** No attempt is scheduled under an id that came into the ledger in another way. */
  ghost predicate FreshAttempt(log: Events, step: Step) {
    step.Schedule? ==> NewToSchedule(log, step.schedule.attemptId)
  }

  ghost predicate AllRaced(log: Events) {
    Keyed(log) && forall id :: Raced(log, id)
  }

  lemma {:induction false} StepKeepsRaced(cfg: ProtocolConfig, log: Events, step: Step, attemptId: string)
    requires AllRaced(log) && FreshAttempt(log, step)
    ensures Raced(Exec(cfg, log, step), attemptId)
  {
    assert Raced(log, attemptId);
    match step {
      case Schedule(q) =>
        ExecSchedule(cfg, log, q);
        ScheduleKeeps(cfg, log, q, attemptId);
      case RenewLease(lease, at, correlationId) =>
        ExecRenew(cfg, log, lease, at, correlationId);
        RenewKeeps(cfg, log, lease, at, correlationId, attemptId);
      case Submit(s, attempt, lease, correlationId) =>
        ExecSubmit(cfg, log, s, attempt, lease, correlationId);
        SubmitKeeps(cfg, log, s, attempt, lease, correlationId, attemptId);
      case Verify(report, attempt, correlationId) =>
        ExecVerify(cfg, log, report, attempt, correlationId);
        VerifyKeeps(log, report, attempt, correlationId, attemptId);
      case Bind(q) =>
        ExecBind(cfg, log, q);
        BindKeeps(log, q, attemptId);
      case Recover(q) =>
        ExecRecover(cfg, log, q);
        RecoverKeeps(cfg, log, q, attemptId);
      case _ => QuietStepKeeps(cfg, log, step, attemptId);
    }
  }

  lemma {:induction false} StepKeepsAllRaced(cfg: ProtocolConfig, log: Events, step: Step)
    requires AllRaced(log) && FreshAttempt(log, step)
    ensures AllRaced(Exec(cfg, log, step))
  {
    StepAppends(cfg, log, step);
    forall id ensures Raced(Exec(cfg, log, step), id) { StepKeepsRaced(cfg, log, step, id); }
  }

  lemma {:induction false} RunKeepsRaced(cfg: ProtocolConfig, run: Run, k: nat)
    requires IsRun(cfg, run) && AllRaced(run.Start()) && EachStep(run, k, FreshAttempt)
    ensures AllRaced(run.At(k))
  {
    if k > 0 {
      StepIsOk(run, k, FreshAttempt);
      RunKeepsRaced(cfg, run, k - 1);
      StepKeepsAllRaced(cfg, run.At(k - 1), run.StepAt(k - 1));
    }
  }

  /**
   * Race safety. In every run that schedules attempts under fresh ids, each attempt has at most one
   * accepted submission, and never both an accepted submission and a lease expiry.
   */
  lemma {:induction false} RaceSafety(cfg: ProtocolConfig, run: Run, k: nat, attemptId: string)
    requires IsRun(cfg, run) && run.Start() == [] && EachStep(run, k, FreshAttempt)
    ensures Outcomes(run.At(k), attemptId) <= 1
  {
    RunKeepsRaced(cfg, run, k);
    assert Raced(run.At(k), attemptId);
  }

  /** A rejected submission is recorded and changes nothing else: every projection stays as it was. */
  lemma {:induction false} RejectionChangesNothing(cfg: ProtocolConfig, log: Events, s: Submission, attempt: Attempt,
                                                   lease: Lease,
                                correlationId: string, reason: Rejection, id: string)
    requires SubmitWrites(cfg, log, s, attempt, lease, correlationId) == Ok([One(SubmissionDraft(s, Some(reason)))])
    ensures var next := Exec(cfg, log, Submit(s, attempt, lease, correlationId));
      && LatestAttempt(next, id) == LatestAttempt(log, id) && LatestLease(next, id) == LatestLease(log, id)
      && LatestUnit(next, id) == LatestUnit(log, id)
  {
    ExecSubmit(cfg, log, s, attempt, lease, correlationId);
    AppendAdds(log, SubmissionDraft(s, Some(reason)));
    ProjectionsOfAppend(log, Event(|log| + 1, SubmissionDraft(s, Some(reason)), None), id);
  }

  /** Attempts are recorded as their snapshots read back. */
  lemma {:induction false} LatestIsNormalized(log: Events, attemptId: string)
    requires KeysFit(log) && LatestAttempt(log, attemptId).Some?
    ensures Normalized(LatestAttempt(log, attemptId).value) == LatestAttempt(log, attemptId).value
  {
    var last := log[|log| - 1];
    assert KeyFits(last.draft);
    if !Snapshot(last, attemptId) {
      assert forall i :: 0 <= i < |log| - 1 ==> log[..|log| - 1][i] == log[i];
      LatestIsNormalized(log[..|log| - 1], attemptId);
    }
  }

  /**
   * In every run, a recovery that takes its lease and attempt from the ledger passes the latest-snapshot
   * comparison: reading a snapshot back and printing it again gives the same snapshot.
   */
  lemma {:induction false} AuthoritativeIsLatest(cfg: ProtocolConfig, run: Run, k: nat, q: RecoverRequest,
                                                 lease: Lease, attempt: Attempt)
    requires IsRun(cfg, run) && run.Start() == []
    requires AuthoritativeLease(run.At(k), lease) == Ok(q.lease)
      && AuthoritativeAttempt(run.At(k), attempt) == Ok(q.attempt)
    ensures IsLatest(run.At(k), q)
  {
    RunIsKeyed(cfg, run, 0, k);
    LatestAttemptNamed(run.At(k), attempt.attemptId);
    LatestLeaseIsRecorded(run.At(k), lease.leaseId);
    if LatestAttempt(run.At(k), attempt.attemptId).Some? { LatestIsNormalized(run.At(k), attempt.attemptId); }
  }
}
