/**
 * One active lease per unit, over whole runs
 * (src/tokenshare/protocol_engine.py:1653-1679, 1790-1827, 2131-2150, 2365-2372).
 */
module Leasing {
  import opened Basics
  import opened Objects
  import opened Ledger
  import opened Lifecycles
  import opened TaskGraphs
  import opened Scheduling
  import opened Projections
  import opened Steps
  import opened Runs

  ghost predicate Solo(log: Events) {
    forall u :: |ActiveLeases(log, u)| <= 1
  }

  /** The active leases of `u` after a lease event. */
  ghost function AfterLease(before: set<string>, lease: Lease, u: string): set<string> {
    (before - {lease.leaseId}) + if lease.state.Active? && lease.unitId == u then {lease.leaseId} else {}
  }

  lemma {:induction false} LeaseIdsOfAppend(log: Events, e: Event)
    ensures LeaseIds(log + [e]) == LeaseIds(log) + if e.Payload().LeaseChanged? then {e.Payload().lease.leaseId} else {}
  {
    assert forall x :: x in log + [e] <==> x in log || x == e;
  }

  lemma {:induction false} LeaseEventEffect(log: Events, e: Event, u: string)
    requires e.Payload().LeaseChanged?
    ensures ActiveLeases(log + [e], u) == AfterLease(ActiveLeases(log, u), e.Payload().lease, u)
  {
    LeaseIdsOfAppend(log, e);
    forall id ensures id in ActiveLeases(log + [e], u)
      <==> id in AfterLease(ActiveLeases(log, u), e.Payload().lease, u) {
      ProjectionsOfAppend(log, e, id);
      LatestLeaseIsRecorded(log, id);
    }
  }

  lemma {:induction false} OtherEventEffect(log: Events, e: Event, u: string)
    requires !e.Payload().LeaseChanged?
    ensures ActiveLeases(log + [e], u) == ActiveLeases(log, u)
  {
    LeaseIdsOfAppend(log, e);
    forall id ensures id in ActiveLeases(log + [e], u) <==> id in ActiveLeases(log, u) {
      ProjectionsOfAppend(log, e, id);
    }
  }

  lemma {:induction false} OtherEventsEffect(log: Events, more: Events, u: string)
    requires forall i :: 0 <= i < |more| ==> !more[i].Payload().LeaseChanged?
    ensures ActiveLeases(log + more, u) == ActiveLeases(log, u)
  {
    if more == [] {
      assert log + more == log;
    } else {
      var n := |more| - 1;
      OtherEventsEffect(log, more[..n], u);
      OtherEventEffect(log + more[..n], more[n], u);
      assert log + more == log + more[..n] + [more[n]];
    }
  }

  /** A batch that starts with a lease event and holds no other. */
  lemma {:induction false} LeaseFirst(log: Events, more: Events, u: string)
    requires more != [] && more[0].Payload().LeaseChanged?
    requires forall i :: 1 <= i < |more| ==> !more[i].Payload().LeaseChanged?
    ensures ActiveLeases(log + more, u) == AfterLease(ActiveLeases(log, u), more[0].Payload().lease, u)
  {
    LeaseEventEffect(log, more[0], u);
    OtherEventsEffect(log + [more[0]], more[1..], u);
    assert log + more == log + [more[0]] + more[1..];
  }

  lemma {:induction false} SmallerSet(a: set<string>, b: set<string>)
    requires a <= b
    ensures |a| <= |b|
  {
    assert b == a + (b - a);
  }

  // ---------------------------------------------------------------- step by step

  lemma {:induction false} UncountedIsFree(log: Events, u: string)
    requires !HasActiveLease(LeaseCounts(log), u)
    ensures ActiveLeases(log, u) == {}
  {
    LeaseCountsAreActive(log, u);
    forall l ensures l !in ActiveLeases(log, u) { assert l in ActiveLeases(log, u) ==> ActiveOn(log, l, u); }
  }

  /** The scheduler only picks a unit the ledger shows no active lease for. */
  lemma {:induction false} ScheduledIsFree(cfg: ProtocolConfig, log: Events, q: ScheduleRequest, u: string,
                                           client: ClientRecord)
    requires q.graph.IsDict() && GraphOk(q.graph) && !cfg.allowShadowExecution && q.suppliedActive == map[]
    requires Selected(q.graph, q.clients, cfg.allowShadowExecution, ActiveCounts(log, q.suppliedActive), q.allowed)
      == Some((u, client))
    ensures ActiveLeases(log, u) == {}
  {
    assert ActiveCounts(log, q.suppliedActive) == LeaseCounts(log);
    SelectedIsFree(q.graph, q.clients, LeaseCounts(log), q.allowed);
    UncountedIsFree(log, u);
  }

  lemma {:induction false} ClaimIsSolo(log: Events, q: ScheduleRequest, claim: LeaseClaim, processing: TaskUnit)
    requires Solo(log) && claim.lease.state.Active? && ActiveLeases(log, claim.lease.unitId) == {}
    ensures Solo(log + Stamp(|log|, ScheduleBatch(q.attemptId),
                             ScheduleDrafts(claim, processing, q.now, q.correlationId)))
  {
    var more := Stamp(|log|, ScheduleBatch(q.attemptId), ScheduleDrafts(claim, processing, q.now, q.correlationId));
    forall u ensures |ActiveLeases(log + more, u)| <= 1 {
      LeaseFirst(log, more, u);
      SmallerSet(ActiveLeases(log, u) - {claim.lease.leaseId}, ActiveLeases(log, u));
    }
  }

  lemma {:induction false} ScheduleKeepsSolo(cfg: ProtocolConfig, log: Events, q: ScheduleRequest)
    requires Solo(log) && !cfg.allowShadowExecution && q.suppliedActive == map[]
    ensures Solo(After(log, ScheduleWrites(cfg, log, q)))
  {
    if ScheduleWrites(cfg, log, q).Ok? {
      var u, client, claim, processing := ScheduleShape(cfg, log, q);
      ScheduledIsFree(cfg, log, q, u, client);
      BatchAdds(log, ScheduleBatch(q.attemptId), ScheduleDrafts(claim, processing, q.now, q.correlationId));
      ClaimIsSolo(log, q, claim, processing);
    }
  }

  /** The renewed lease is the authoritative one, still active on its unit. */
  lemma {:induction false} RenewedLease(cfg: ProtocolConfig, log: Events, lease: Lease, at: string,
                                        correlationId: string) returns (renewed: Lease)
    requires HeartbeatWrites(cfg, log, lease, at, correlationId).Ok?
    ensures HeartbeatWrites(cfg, log, lease, at, correlationId) == Ok([One(HeartbeatDraft(renewed, at, correlationId))])
    ensures renewed.leaseId == lease.leaseId && renewed.state.Active?
    ensures var latest := LatestLease(log, lease.leaseId);
      if latest.Some? then latest.value.state.Active? && renewed.unitId == latest.value.unitId
      else renewed.unitId == lease.unitId
  {
    var own := AuthoritativeLease(log, lease).value;
    LatestLeaseIsRecorded(log, lease.leaseId);
    renewed := Lifecycles.Heartbeat(cfg, own, at).value;
  }

  /** No recorded event carries a heartbeat key of a lease the ledger has never seen. */
  lemma {:induction false} UnknownLeaseKey(log: Events, leaseId: string, count: int)
    requires Keyed(log) && LatestLease(log, leaseId).None?
    ensures Lookup(log, LeaseHeartbeatKey(leaseId, count)).None?
  {
    LatestLeaseIsRecorded(log, leaseId);
    forall i | 0 <= i < |log| ensures log[i].Key() != LeaseHeartbeatKey(leaseId, count) {
      assert KeyFits(log[i].draft);
      assert log[i] in log && (log[i].Payload().LeaseChanged? ==> log[i].Payload().lease.leaseId in LeaseIds(log));
    }
    LookupFinds(log, LeaseHeartbeatKey(leaseId, count));
  }

  /** The first heartbeat of such a lease is appended. */
  lemma {:induction false} RenewedIsRecorded(log: Events, renewed: Lease, at: string, correlationId: string)
    requires Keyed(log) && LatestLease(log, renewed.leaseId).None?
    ensures Commit(log, [One(HeartbeatDraft(renewed, at, correlationId))])
      == log + [Event(|log| + 1, HeartbeatDraft(renewed, at, correlationId), None)]
  {
    UnknownLeaseKey(log, renewed.leaseId, renewed.heartbeatCount);
    assert [One(HeartbeatDraft(renewed, at, correlationId))][1..] == [];
  }

  lemma {:induction false} KnownRenewalIsSolo(log: Events, renewed: Lease, e: Event)
    requires Solo(log) && LatestLease(log, renewed.leaseId).Some?
      && LatestLease(log, renewed.leaseId).value.state.Active?
    requires LatestLease(log, renewed.leaseId).value.unitId == renewed.unitId
    requires e.Payload().LeaseChanged? && e.Payload().lease == renewed && renewed.state.Active?
    ensures Solo(log + [e])
  {
    LatestLeaseIsRecorded(log, renewed.leaseId);
    assert renewed.leaseId in ActiveLeases(log, renewed.unitId);
    forall u ensures |ActiveLeases(log + [e], u)| <= 1 {
      LeaseEventEffect(log, e, u);
      SmallerSet(ActiveLeases(log + [e], u), ActiveLeases(log, u));
    }
  }

  lemma {:induction false} OneElement<T>(before: set<T>, x: T)
    requires x !in before
    ensures |before + {x}| <= 1 <==> before == {}
  {
    assert |before + {x}| == |before| + 1;
  }

  lemma {:induction false} NewRenewalIsSolo(log: Events, renewed: Lease, e: Event)
    requires Solo(log) && LatestLease(log, renewed.leaseId).None?
    requires e.Payload().LeaseChanged? && e.Payload().lease == renewed && renewed.state.Active?
    ensures Solo(log + [e]) <==> ActiveLeases(log, renewed.unitId) == {}
  {
    LatestLeaseIsRecorded(log, renewed.leaseId);
    LeaseEventEffect(log, e, renewed.unitId);
    var before := ActiveLeases(log, renewed.unitId);
    assert ActiveLeases(log + [e], renewed.unitId) == before + {renewed.leaseId};
    OneElement(before, renewed.leaseId);
    forall u | u != renewed.unitId ensures ActiveLeases(log + [e], u) == ActiveLeases(log, u) {
      LeaseEventEffect(log, e, u);
    }
  }

  /**
   * A heartbeat keeps one active lease per unit exactly when it renews a recorded lease, or, for a lease
   * the ledger has never seen, when the unit has no active lease yet.
   */
  lemma {:induction false} HeartbeatKeepsSolo(cfg: ProtocolConfig, log: Events, lease: Lease, at: string,
                                              correlationId: string)
    requires Keyed(log) && Solo(log) && HeartbeatWrites(cfg, log, lease, at, correlationId).Ok?
    ensures Solo(After(log, HeartbeatWrites(cfg, log, lease, at, correlationId))) <==>
      (LatestLease(log, lease.leaseId).Some? || ActiveLeases(log, lease.unitId) == {})
  {
    var renewed := RenewedLease(cfg, log, lease, at, correlationId);
    var draft := HeartbeatDraft(renewed, at, correlationId);
    var e := Event(|log| + 1, draft, None);
    if LatestLease(log, lease.leaseId).Some? {
      AppendAdds(log, draft);
      KnownRenewalIsSolo(log, renewed, e);
    } else {
      RenewedIsRecorded(log, renewed, at, correlationId);
      NewRenewalIsSolo(log, renewed, e);
    }
  }

  lemma {:induction false} RenewKeepsSolo(cfg: ProtocolConfig, log: Events, lease: Lease, at: string,
                                          correlationId: string)
    requires Keyed(log) && Solo(log)
    requires LatestLease(log, lease.leaseId).Some? || ActiveLeases(log, lease.unitId) == {}
    ensures Solo(After(log, HeartbeatWrites(cfg, log, lease, at, correlationId)))
  {
    if HeartbeatWrites(cfg, log, lease, at, correlationId).Ok? {
      HeartbeatKeepsSolo(cfg, log, lease, at, correlationId);
    }
  }

  lemma {:induction false} RecoverKeepsSolo(cfg: ProtocolConfig, log: Events, q: RecoverRequest)
    requires Solo(log)
    ensures Solo(After(log, RecoverWrites(cfg, log, q)))
  {
    if RecoverWrites(cfg, log, q).Ok? {
      var lease, attempt, unit := RecoverOutcome(cfg, log, q);
      var id, drafts := RecoveryBatch(q.actionId), RecoveryDrafts(q, lease, attempt, unit);
      BatchAdds(log, id, drafts);
      RecoveryIsSolo(log, q, lease, attempt, unit);
    }
  }

  lemma {:induction false} RecoveryIsSolo(log: Events, q: RecoverRequest, lease: Lease, attempt: Attempt,
                                          unit: TaskUnit)
    requires Solo(log) && !lease.state.Active?
    ensures Solo(log + Stamp(|log|, RecoveryBatch(q.actionId), RecoveryDrafts(q, lease, attempt, unit)))
  {
    var more := Stamp(|log|, RecoveryBatch(q.actionId), RecoveryDrafts(q, lease, attempt, unit));
    forall u ensures |ActiveLeases(log + more, u)| <= 1 {
      LeaseFirst(log, more, u);
      SmallerSet(ActiveLeases(log + more, u), ActiveLeases(log, u));
    }
  }

  lemma {:induction false} QuietKeepsSolo(log: Events, next: Events, step: Step)
    requires Solo(log) && ExtendsBy(log, next, step) && !Records(step, LeaseKind)
    ensures Solo(next)
  {
    var more := next[|log|..];
    assert next == log + more;
    forall i | 0 <= i < |more| ensures !more[i].Payload().LeaseChanged? {
      assert Records(step, KindOf(next[|log| + i].Payload()));
    }
    forall u ensures |ActiveLeases(next, u)| <= 1 { OtherEventsEffect(log, more, u); }
  }

  // ---------------------------------------------------------------- whole runs

  /** The lease is on record, or its unit has no active lease yet. */
  ghost predicate MayRenew(log: Events, lease: Lease) {
    LatestLease(log, lease.leaseId).Some? || ActiveLeases(log, lease.unitId) == {}
  }

  /** No caller-supplied lease map, and heartbeats only for leases on record or units without one. */
  ghost predicate OwnLeases(log: Events, step: Step) {
    && (step.Schedule? ==> step.schedule.suppliedActive == map[])
    && (step.RenewLease? ==> MayRenew(log, step.lease))
  }

  lemma {:induction false} QuietStepKeepsSolo(cfg: ProtocolConfig, log: Events, step: Step)
    requires Keyed(log) && Solo(log) && !Records(step, LeaseKind)
    ensures Solo(Exec(cfg, log, step))
  {
    StepAppends(cfg, log, step);
    QuietKeepsSolo(log, Exec(cfg, log, step), step);
  }

  lemma {:induction false} StepKeepsSolo(cfg: ProtocolConfig, log: Events, step: Step)
    requires Keyed(log) && Solo(log) && !cfg.allowShadowExecution && OwnLeases(log, step)
    ensures Solo(Exec(cfg, log, step))
  {
    match step {
      case Schedule(q) =>
        ExecSchedule(cfg, log, q);
        ScheduleKeepsSolo(cfg, log, q);
      case RenewLease(lease, at, correlationId) =>
        ExecRenew(cfg, log, lease, at, correlationId);
        RenewKeepsSolo(cfg, log, lease, at, correlationId);
      case Recover(q) =>
        ExecRecover(cfg, log, q);
        RecoverKeepsSolo(cfg, log, q);
      case _ => QuietStepKeepsSolo(cfg, log, step);
    }
  }

  lemma {:induction false} RunKeepsSolo(cfg: ProtocolConfig, run: Run, k: nat)
    requires IsRun(cfg, run) && EachStep(run, k, OwnLeases)
    requires Keyed(run.Start()) && Solo(run.Start()) && !cfg.allowShadowExecution
    ensures Solo(run.At(k))
  {
    if k > 0 {
      StepIsOk(run, k, OwnLeases);
      RunKeepsSolo(cfg, run, k - 1);
      RunIsKeyed(cfg, run, 0, k - 1);
      StepKeepsSolo(cfg, run.At(k - 1), run.StepAt(k - 1));
    }
  }

  /** With shadow execution off and leases kept by the ledger alone, no unit ever has two active leases. */
  lemma {:induction false} OneActiveLease(cfg: ProtocolConfig, run: Run, k: nat, u: string)
    requires IsRun(cfg, run) && run.Start() == [] && EachStep(run, k, OwnLeases)
    requires !cfg.allowShadowExecution
    ensures |ActiveLeases(run.At(k), u)| <= 1
  {
    forall v ensures ActiveLeases([], v) == {} {}
    RunKeepsSolo(cfg, run, k);
  }
}
