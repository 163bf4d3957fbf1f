/**
 * What the engine reads back from the ledger (src/tokenshare/protocol_engine.py:2131-2179, 2349-2372):
 * the latest snapshot of an object, and the leases that are still active.
 */
module Projections {
  import opened Basics
  import opened Objects
  import opened Snapshots
  import opened Ledger

  ghost function LatestAttempt(log: Events, id: string): Option<Attempt> {
    if log == [] then None
    else
      var p := log[|log| - 1].Payload();
      if p.AttemptChanged? && p.attempt.attemptId == id then Some(p.attempt)
      else LatestAttempt(log[..|log| - 1], id)
  }

  ghost function LatestLease(log: Events, id: string): Option<Lease> {
    if log == [] then None
    else
      var p := log[|log| - 1].Payload();
      if p.LeaseChanged? && p.lease.leaseId == id then Some(p.lease)
      else LatestLease(log[..|log| - 1], id)
  }

  ghost function LatestUnit(log: Events, id: string): Option<TaskUnit> {
    if log == [] then None
    else
      var p := log[|log| - 1].Payload();
      if (p.UnitChanged? || p.UnitCreated?) && p.unit.unitId == id then Some(p.unit)
      else LatestUnit(log[..|log| - 1], id)
  }

  ghost function LatestContribution(log: Events, id: string): Option<ContributionRecord> {
    if log == [] then None
    else
      var p := log[|log| - 1].Payload();
      if p.ContributionChanged? && p.contribution.contributionId == id then Some(p.contribution)
      else LatestContribution(log[..|log| - 1], id)
  }

  /** The projections read by a step that only looks at the object named `id`. */
  lemma {:induction false} ProjectionsOfAppend(log: Events, event: Event, id: string)
    ensures var p := event.Payload();
      && LatestAttempt(log + [event], id) ==
           (if p.AttemptChanged? && p.attempt.attemptId == id then Some(p.attempt) else LatestAttempt(log, id))
      && LatestLease(log + [event], id) ==
           (if p.LeaseChanged? && p.lease.leaseId == id then Some(p.lease) else LatestLease(log, id))
      && LatestUnit(log + [event], id) ==
           (if (p.UnitChanged? || p.UnitCreated?) && p.unit.unitId == id then Some(p.unit) else LatestUnit(log, id))
      && LatestContribution(log + [event], id) ==
           (if p.ContributionChanged? && p.contribution.contributionId == id then Some(p.contribution)
            else LatestContribution(log, id))
  {
    assert (log + [event])[..|log|] == log;
  }

  method FindLatestAttempt(log: Events, id: string) returns (latest: Option<Attempt>)
    ensures latest == LatestAttempt(log, id)
  {
    var i := |log|;
    assert log[..|log|] == log;
    while i > 0
      invariant 0 <= i <= |log| && LatestAttempt(log, id) == LatestAttempt(log[..i], id)
    {
      i := i - 1;
      assert log[..i + 1][..i] == log[..i];
      var p := log[i].Payload();
      if p.AttemptChanged? && p.attempt.attemptId == id { return Some(p.attempt); }
    }
    latest := None;
  }

  method FindLatestLease(log: Events, id: string) returns (latest: Option<Lease>)
    ensures latest == LatestLease(log, id)
  {
    var i := |log|;
    assert log[..|log|] == log;
    while i > 0
      invariant 0 <= i <= |log| && LatestLease(log, id) == LatestLease(log[..i], id)
    {
      i := i - 1;
      assert log[..i + 1][..i] == log[..i];
      var p := log[i].Payload();
      if p.LeaseChanged? && p.lease.leaseId == id { return Some(p.lease); }
    }
    latest := None;
  }

  /** The ledger's attempt if it has one and can read it back, else the caller's. */
  ghost function AuthoritativeAttempt(log: Events, supplied: Attempt): Result<Attempt> {
    match LatestAttempt(log, supplied.attemptId)
    case None => Ok(supplied)
    case Some(a) => if AttemptReadable(a) then Ok(a) else Err(MalformedSnapshot)
  }

  ghost function AuthoritativeLease(log: Events, supplied: Lease): Result<Lease> {
    match LatestLease(log, supplied.leaseId)
    case None => Ok(supplied)
    case Some(l) => if LeaseReadable(l) then Ok(l) else Err(MalformedSnapshot)
  }

  method FindAuthoritativeAttempt(log: Events, supplied: Attempt) returns (r: Result<Attempt>)
    ensures r == AuthoritativeAttempt(log, supplied)
  {
    var latest := FindLatestAttempt(log, supplied.attemptId);
    if latest.None? { return Ok(supplied); }
    r := if AttemptReadable(latest.value) then Ok(latest.value) else Err(MalformedSnapshot);
  }

  method FindAuthoritativeLease(log: Events, supplied: Lease) returns (r: Result<Lease>)
    ensures r == AuthoritativeLease(log, supplied)
  {
    var latest := FindLatestLease(log, supplied.leaseId);
    if latest.None? { return Ok(supplied); }
    r := if LeaseReadable(latest.value) then Ok(latest.value) else Err(MalformedSnapshot);
  }

  // ---------------------------------------------------------------- active leases

  ghost function LeaseIds(log: Events): set<string> {
    set e | e in log && e.Payload().LeaseChanged? :: e.Payload().lease.leaseId
  }

  ghost predicate ActiveOn(log: Events, leaseId: string, unitId: string) {
    && LatestLease(log, leaseId).Some?
    && LatestLease(log, leaseId).value.state.Active?
    && LatestLease(log, leaseId).value.unitId == unitId
  }

  ghost function ActiveLeases(log: Events, unitId: string): set<string> {
    set l | l in LeaseIds(log) && ActiveOn(log, l, unitId)
  }

  lemma {:induction false} LatestLeaseIsRecorded(log: Events, id: string)
    ensures LatestLease(log, id).Some? <==> id in LeaseIds(log)
    ensures LatestLease(log, id).Some? ==> LatestLease(log, id).value.leaseId == id
  {
    if log != [] {
      var last := log[|log| - 1];
      LatestLeaseIsRecorded(log[..|log| - 1], id);
      assert log == log[..|log| - 1] + [last];
      assert forall e :: e in log <==> e in log[..|log| - 1] || e == last;
    }
  }

  /** How many active leases each leased unit has. */
  ghost function LeaseCounts(log: Events): map<string, nat> {
    map u | u in LeasedUnits(log) :: |ActiveLeases(log, u)|
  }

  ghost function LeasedUnits(log: Events): set<string> {
    set l | l in LeaseIds(log) && LatestLease(log, l).Some? && LatestLease(log, l).value.state.Active?
      :: LatestLease(log, l).value.unitId
  }

  lemma {:induction false} LeaseCountsAreActive(log: Events, unitId: string)
    ensures unitId in LeaseCounts(log) <==> exists l :: ActiveOn(log, l, unitId)
    ensures unitId in LeaseCounts(log) ==> LeaseCounts(log)[unitId] > 0
  {
    if l :| ActiveOn(log, l, unitId) {
      LatestLeaseIsRecorded(log, l);
      assert unitId in LeasedUnits(log);
    }
    if unitId in LeasedUnits(log) {
      var l :| l in LeaseIds(log) && LatestLease(log, l).Some? && LatestLease(log, l).value.state.Active?
        && LatestLease(log, l).value.unitId == unitId;
      assert l in ActiveLeases(log, unitId);
    }
  }

  /** First pass of the active-lease projection: the last snapshot of every lease. */
  method LatestLeases(log: Events) returns (latest: map<string, Lease>)
    ensures latest.Keys == LeaseIds(log)
    ensures forall l :: l in latest ==> LatestLease(log, l) == Some(latest[l])
  {
    latest := map[];
    for i := 0 to |log|
      invariant latest.Keys == LeaseIds(log[..i])
      invariant forall l :: l in latest ==> LatestLease(log[..i], l) == Some(latest[l])
    {
      assert log[..i + 1] == log[..i] + [log[i]] && log[..i + 1][..i] == log[..i];
      var p := log[i].Payload();
      ghost var before := LeaseIds(log[..i]);
      assert LeaseIds(log[..i + 1]) == before + if p.LeaseChanged? then {p.lease.leaseId} else {} by {
        assert forall e :: e in log[..i + 1] <==> e in log[..i] || e == log[i];
      }
      if p.LeaseChanged? { latest := latest[p.lease.leaseId := p.lease]; }
    }
    assert log[..|log|] == log;
  }

  ghost function ActiveIn(latest: map<string, Lease>, done: set<string>, u: string): set<string> {
    set l | l in done && l in latest && latest[l].state.Active? && latest[l].unitId == u
  }

  lemma {:induction false} ActiveInGrows(latest: map<string, Lease>, done: set<string>, l: string, u: string)
    requires l in latest && l !in done
    ensures var more := latest[l].state.Active? && latest[l].unitId == u;
      && ActiveIn(latest, done + {l}, u) == ActiveIn(latest, done, u) + (if more then {l} else {})
      && |ActiveIn(latest, done + {l}, u)| == |ActiveIn(latest, done, u)| + (if more then 1 else 0)
  {
    var before := ActiveIn(latest, done, u);
    assert l !in before;
    if latest[l].state.Active? && latest[l].unitId == u {
      assert ActiveIn(latest, done + {l}, u) == before + {l};
    } else {
      assert ActiveIn(latest, done + {l}, u) == before;
    }
  }

  /** The units with an active lease among `done`, each with how many it has. */
  ghost predicate CountedIn(latest: map<string, Lease>, done: set<string>, active: map<string, nat>) {
    forall u :: CountFits(latest, done, active, u)
  }

  ghost predicate CountFits(latest: map<string, Lease>, done: set<string>, active: map<string, nat>, u: string) {
    && (u in active <==> ActiveIn(latest, done, u) != {})
    && (u in active ==> active[u] == |ActiveIn(latest, done, u)|)
  }

  lemma {:induction false} CountedGrows(latest: map<string, Lease>, done: set<string>, l: string,
                                        active: map<string, nat>)
    requires l in latest && l !in done && CountedIn(latest, done, active)
    ensures var u := latest[l].unitId;
      CountedIn(latest, done + {l},
                if latest[l].state.Active? then active[u := (if u in active then active[u] else 0) + 1] else active)
  {
    var at := latest[l].unitId;
    var next := if latest[l].state.Active? then active[at := (if at in active then active[at] else 0) + 1] else active;
    forall u ensures CountFits(latest, done + {l}, next, u) {
      assert CountFits(latest, done, active, u);
      ActiveInGrows(latest, done, l, u);
    }
  }

  /** Second pass: the active leases counted by unit. */
  method CountActive(latest: map<string, Lease>) returns (active: map<string, nat>)
    ensures CountedIn(latest, latest.Keys, active)
  {
    active := map[];
    var todo := latest.Keys;
    ghost var done: set<string> := {};
    while todo != {}
      invariant done + todo == latest.Keys && done !! todo
      invariant CountedIn(latest, done, active)
      decreases todo
    {
      var l :| l in todo;
      CountedGrows(latest, done, l, active);
      if latest[l].state.Active? {
        var u := latest[l].unitId;
        active := active[u := (if u in active then active[u] else 0) + 1];
      }
      todo, done := todo - {l}, done + {l};
    }
    assert done == latest.Keys;
  }

  method ActiveLeasesByUnit(log: Events) returns (active: map<string, nat>)
    ensures active == LeaseCounts(log)
  {
    var latest := LatestLeases(log);
    active := CountActive(latest);
    forall u ensures ActiveIn(latest, latest.Keys, u) == ActiveLeases(log, u) {}
    assert forall u :: u in active ==> CountFits(latest, latest.Keys, active, u);
    forall u ensures u in active <==> u in LeasedUnits(log) {
      LeaseCountsAreActive(log, u);
      assert CountFits(latest, latest.Keys, active, u);
      if u in active {
        var l :| l in ActiveIn(latest, latest.Keys, u);
        assert ActiveOn(log, l, u);
      }
      if u in LeasedUnits(log) {
        var l :| ActiveOn(log, l, u);
        LatestLeaseIsRecorded(log, l);
        assert l in ActiveIn(latest, latest.Keys, u);
      }
    }
  }
}
