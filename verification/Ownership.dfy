/**
 * No contribution is paid twice, whatever recorded snapshots the callers of parent completion hold, even stale
 * ones (src/tokenshare/protocol_engine.py:1170-1236, 3572-3595, 3671-3708).
 */
module Ownership {
  import opened Basics
  import opened Objects
  import Order
  import opened Ledger
  import opened Projections
  import opened Completions
  import opened Contributions
  import opened Settlement
  import opened RootSettlement
  import opened Steps
  import opened Runs
  import opened Payments

  // ---------------------------------------------------------------- an owner is completed once

  predicate CompletesOwner(e: Event, ownerId: string) {
    e.tag.Some? && e.tag.value.id.ParentCompletionBatch? && e.tag.value.id.ownerUnitId == ownerId
  }

  /** A parent completion batch of the owner is on record. */
  ghost predicate CompletedOwner(log: Events, ownerId: string) {
    exists i :: 0 <= i < |log| && CompletesOwner(log[i], ownerId)
  }

  lemma {:induction false} CompletedStays(log: Events, next: Events, ownerId: string)
    requires log <= next && CompletedOwner(log, ownerId)
    ensures CompletedOwner(next, ownerId)
  {
    var i :| 0 <= i < |log| && CompletesOwner(log[i], ownerId);
    assert next[i] == log[i];
  }

  /** An owner with a completion batch on record is never completed again: a repeat raises or appends nothing. */
  lemma {:induction false} CompletedOnce(log: Events, q: CompletionRequest)
    requires CompletedOwner(log, q.owner.unitId)
    ensures After(log, CompletionWrites(log, q)) == log
  {
    if CompletionWrites(log, q).Ok? {
      var _, completed, sorted := CompletionShape(log, q);
      var resolved := ResolvedSet(q.resolutions);
      var i :| 0 <= i < |log| && CompletesOwner(log[i], q.owner.unitId);
      assert !BlocksCompletion(log, log[i], q.owner.unitId, resolved) by { assert log[i] in log; }
      assert log[i].InBatch(ParentCompletionBatch(q.owner.unitId, resolved));
      BatchOnRecord(log, ParentCompletionBatch(q.owner.unitId, resolved),
                    CompletionDrafts(completed, EligibleOnes(sorted, q.now), resolved, q.now));
    }
  }

  /** An appended completion puts its batch on record. */
  lemma {:induction false} CompletionIsRecorded(log: Events, q: CompletionRequest)
    requires After(log, CompletionWrites(log, q)) != log
    ensures CompletedOwner(After(log, CompletionWrites(log, q)), q.owner.unitId)
  {
    var _, completed, sorted := CompletionShape(log, q);
    var bid := ParentCompletionBatch(q.owner.unitId, ResolvedSet(q.resolutions));
    BatchAdds(log, bid, CompletionDrafts(completed, EligibleOnes(sorted, q.now), ResolvedSet(q.resolutions), q.now));
    assert CompletesOwner(After(log, CompletionWrites(log, q))[|log|], q.owner.unitId);
  }

  /** In every run a parent is completed by at most one step, whoever asks and with whatever outputs. */
  lemma {:induction false} ParentCompletedOnce(cfg: ProtocolConfig, run: Run, j: nat, k: nat,
                                               q: CompletionRequest, again: CompletionRequest)
    requires IsRun(cfg, run) && Keyed(run.Start()) && j < k
    requires run.StepAt(j) == CompleteParent(q) && run.At(j + 1) != run.At(j)
    requires again.owner.unitId == q.owner.unitId
    ensures After(run.At(k), CompletionWrites(run.At(k), again)) == run.At(k)
  {
    ExecCompletion(cfg, run.At(j), q);
    CompletionIsRecorded(run.At(j), q);
    RunIsKeyed(cfg, run, j + 1, k);
    CompletedStays(run.At(j + 1), run.At(k), q.owner.unitId);
    CompletedOnce(run.At(k), again);
  }

  // ---------------------------------------------------------------- whose contribution it is

  predicate SameSource(a: ContributionRecord, b: ContributionRecord) {
    a.contributionId == b.contributionId && a.unitId == b.unitId && a.kind == b.kind
  }

  predicate RecordsSource(p: Payload, c: ContributionRecord) {
    p.ContributionChanged? && SameSource(p.contribution, c)
  }

  /** The ledger knows the contribution under this unit and kind. */
  ghost predicate SourceKnown(log: Events, c: ContributionRecord) {
    exists i :: 0 <= i < |log| && RecordsSource(log[i].Payload(), c)
  }

  /** An id belongs to one unit and one kind. */
  ghost predicate OneSource(log: Events) {
    forall i, j :: 0 <= i < |log| && 0 <= j < |log| ==> AgreeOnSource(log[i].Payload(), log[j].Payload())
  }

  predicate AgreeOnSource(p: Payload, q: Payload) {
    p.ContributionChanged? && q.ContributionChanged? && p.contribution.contributionId == q.contribution.contributionId
    ==> SameSource(p.contribution, q.contribution)
  }

  /** An expansion's contribution leaves Pending only with the completion of its unit. */
  ghost predicate Backed(log: Events, p: Payload) {
    p.ContributionChanged? && p.contribution.kind.ExpandCanonical? && !p.contribution.state.Pending?
    ==> CompletedOwner(log, p.contribution.unitId)
  }

  ghost predicate Owned(log: Events) {
    OneSource(log) && forall i :: 0 <= i < |log| ==> Backed(log, log[i].Payload())
  }

  lemma {:induction false} BackedStays(log: Events, next: Events, p: Payload)
    requires log <= next && Backed(log, p)
    ensures Backed(next, p)
  {
    if p.ContributionChanged? && CompletedOwner(log, p.contribution.unitId) {
      CompletedStays(log, next, p.contribution.unitId);
    }
  }

  lemma {:induction false} KnownSourceAgrees(log: Events, c: ContributionRecord, i: nat)
    requires OneSource(log) && SourceKnown(log, c) && i < |log|
    requires log[i].Payload().ContributionChanged? && log[i].Payload().contribution.contributionId == c.contributionId
    ensures SameSource(log[i].Payload().contribution, c)
  {
    var j :| 0 <= j < |log| && RecordsSource(log[j].Payload(), c);
    assert AgreeOnSource(log[i].Payload(), log[j].Payload());
  }

  /** New events of known contributions, each backed, keep every contribution with its owner. */
  lemma {:induction false} MoreStaysOwned(log: Events, more: Events)
    requires Owned(log) && forall k :: 0 <= k < |more| ==> Backed(log + more, more[k].Payload())
    requires forall k :: 0 <= k < |more| && more[k].Payload().ContributionChanged? ==>
      SourceKnown(log, more[k].Payload().contribution)
    ensures Owned(log + more)
  {
    var next := log + more;
    forall i | 0 <= i < |next| ensures Backed(next, next[i].Payload()) {
      if i < |log| { BackedStays(log, next, log[i].Payload()); }
    }
    forall i, j | 0 <= i < |next| && 0 <= j < |next| ensures AgreeOnSource(next[i].Payload(), next[j].Payload()) {
      MoreAgrees(log, more, i, j);
    }
  }

  lemma {:induction false} MoreAgrees(log: Events, more: Events, i: nat, j: nat)
    requires OneSource(log) && i < |log + more| && j < |log + more|
    requires forall k :: 0 <= k < |more| && more[k].Payload().ContributionChanged? ==>
      SourceKnown(log, more[k].Payload().contribution)
    ensures AgreeOnSource((log + more)[i].Payload(), (log + more)[j].Payload())
  {
    var p, q := (log + more)[i].Payload(), (log + more)[j].Payload();
    if p.ContributionChanged? && q.ContributionChanged?
      && p.contribution.contributionId == q.contribution.contributionId {
      KnownBefore(log, more, i);
      KnownBefore(log, more, j);
      var a :| 0 <= a < |log| && RecordsSource(log[a].Payload(), p.contribution);
      KnownSourceAgrees(log, q.contribution, a);
    }
  }

  lemma {:induction false} KnownBefore(log: Events, more: Events, i: nat)
    requires i < |log + more| && (log + more)[i].Payload().ContributionChanged?
    requires forall k :: 0 <= k < |more| && more[k].Payload().ContributionChanged? ==>
      SourceKnown(log, more[k].Payload().contribution)
    ensures SourceKnown(log, (log + more)[i].Payload().contribution)
  {
    if i < |log| {
      assert RecordsSource(log[i].Payload(), log[i].Payload().contribution);
    } else {
      assert (log + more)[i] == more[i - |log|];
    }
  }

  // ---------------------------------------------------------------- step by step

  lemma {:induction false} QuietKeepsOwned(log: Events, next: Events, step: Step)
    requires Owned(log) && ExtendsBy(log, next, step) && !Records(step, CreditKind)
    ensures Owned(next)
  {
    var more := next[|log|..];
    assert next == log + more;
    forall k | 0 <= k < |more| ensures !more[k].Payload().ContributionChanged? {
      assert Records(step, KindOf(next[|log| + k].Payload()));
    }
    MoreStaysOwned(log, more);
  }

  /** A creation is new to the ledger, and only an expansion's contribution starts before its unit completes. */
  lemma {:induction false} CreateKeepsOwned(log: Events, kind: ContributionKind, taskId: string, source: BatchInput,
                                            at: string)
    requires Keyed(log) && Owned(log) && forall id :: Credited(log, id)
    ensures Owned(After(log, CreateWrites(log, kind, taskId, source, at)))
  {
    if CreateWrites(log, kind, taskId, source, at).Ok? {
      var c := CreateShape(log, kind, taskId, source, at);
      AppendAdds(log, CreationDraft(c, at));
      assert Credited(log, c.contributionId);
      if History(log, c.contributionId) != [] {
        CreatedOnce(log, c, at);
      } else {
        NewContributionIsOwned(log, c, Event(|log| + 1, CreationDraft(c, at), None));
      }
    }
  }

  lemma {:induction false} NewContributionIsOwned(log: Events, c: ContributionRecord, e: Event)
    requires Owned(log) && History(log, c.contributionId) == []
    requires e.Payload().ContributionChanged? && e.Payload().contribution == c && c.state == InitialState(c.kind)
    ensures Owned(log + [e])
  {
    var next := log + [e];
    forall i | 0 <= i < |log| ensures !Credits(log[i].Payload(), c.contributionId) {
      if Credits(log[i].Payload(), c.contributionId) { RecordedInHistory(log, c.contributionId, i); }
    }
    forall i | 0 <= i < |next| ensures Backed(next, next[i].Payload()) {
      if i < |log| { BackedStays(log, next, log[i].Payload()); }
    }
  }

  predicate IsSnapshot(p: Payload, c: ContributionRecord) {
    p.ContributionChanged? && p.contribution == c
  }

  /** The ledger once recorded exactly this snapshot; it may be stale. */
  ghost predicate Snapshotted(log: Events, c: ContributionRecord) {
    exists i :: 0 <= i < |log| && IsSnapshot(log[i].Payload(), c)
  }

  lemma {:induction false} LatestIsSnapshot(log: Events, id: string)
    requires LatestContribution(log, id).Some?
    ensures Snapshotted(log, LatestContribution(log, id).value)
    ensures LatestContribution(log, id).value.contributionId == id
  {
    var n := |log| - 1;
    if Credits(log[n].Payload(), id) {
      assert IsSnapshot(log[n].Payload(), LatestContribution(log, id).value);
    } else {
      LatestIsSnapshot(log[..n], id);
      var i :| 0 <= i < n && IsSnapshot(log[..n][i].Payload(), LatestContribution(log, id).value);
      assert log[i] == log[..n][i];
    }
  }

  lemma {:induction false} SnapshotIsKnown(log: Events, c: ContributionRecord, d: ContributionRecord)
    requires Snapshotted(log, c) && SameSource(c, d)
    ensures SourceKnown(log, d)
  {
    var i :| 0 <= i < |log| && IsSnapshot(log[i].Payload(), c);
    assert RecordsSource(log[i].Payload(), d);
  }

  /**
   * A pending snapshot of an expansion's contribution is still the latest while its unit is not completed: the
   * engine's conflict check makes up for looking only at the snapshots it is given.
   */
  lemma {:induction false} SnapshotIsCurrent(log: Events, c: ContributionRecord)
    requires Owned(log) && Snapshotted(log, c) && c.kind.ExpandCanonical? && !CompletedOwner(log, c.unitId)
    ensures LatestContribution(log, c.contributionId).Some?
    ensures LatestContribution(log, c.contributionId).value.state.Pending?
  {
    var i :| 0 <= i < |log| && IsSnapshot(log[i].Payload(), c);
    RecordedInHistory(log, c.contributionId, i);
    LatestIsLast(log, c.contributionId);
    LatestIsSnapshot(log, c.contributionId);
    var last := LatestContribution(log, c.contributionId).value;
    var j :| 0 <= j < |log| && IsSnapshot(log[j].Payload(), last);
    assert AgreeOnSource(log[i].Payload(), log[j].Payload());
    assert Backed(log, log[j].Payload());
  }

  ghost predicate AllSnapshotted(log: Events, cs: seq<ContributionRecord>) {
    forall c :: c in cs ==> Snapshotted(log, c)
  }

  lemma {:induction false} SuppliedArePending(log: Events, q: CompletionRequest)
    requires Owned(log) && AllSnapshotted(log, q.contributions)
    requires After(log, CompletionWrites(log, q)) != log
    ensures PendingOnRecord(log, q.contributions)
  {
    if CompletedOwner(log, q.owner.unitId) { CompletedOnce(log, q); }
    var _, _, sorted := CompletionShape(log, q);
    Order.SortMultiset(q.contributions, Contributions.ById);
    forall c | c in q.contributions
      ensures LatestContribution(log, c.contributionId).Some?
      ensures LatestContribution(log, c.contributionId).value.state.Pending?
    {
      assert c in multiset(q.contributions);
      assert c in sorted;
      SnapshotIsCurrent(log, c);
    }
  }

  lemma {:induction false} EligibleStaysOwned(log: Events, owner: TaskUnit, completed: TaskUnit,
                                              sorted: seq<ContributionRecord>, resolved: seq<ResolvedOutput>,
                                                now: string)
    requires Owned(log) && forall c :: c in sorted ==> Snapshotted(log, c) && c.unitId == owner.unitId
    ensures Owned(log + Stamp(|log|, ParentCompletionBatch(owner.unitId, resolved),
                              CompletionDrafts(completed, EligibleOnes(sorted, now), resolved, now)))
  {
    var eligible := EligibleOnes(sorted, now);
    var more := Stamp(|log|, ParentCompletionBatch(owner.unitId, resolved),
                      CompletionDrafts(completed, eligible, resolved, now));
    assert CompletesOwner((log + more)[|log|], owner.unitId);
    forall k | 0 <= k < |more| && more[k].Payload().ContributionChanged?
      ensures SourceKnown(log, more[k].Payload().contribution) && Backed(log + more, more[k].Payload())
    {
      assert more[k].draft == EligibleDraft(eligible[k - 1], resolved, now);
      assert sorted[k - 1] in sorted;
      SnapshotIsKnown(log, sorted[k - 1], eligible[k - 1]);
    }
    MoreStaysOwned(log, more);
  }

  lemma {:induction false} CompletionKeepsOwned(log: Events, q: CompletionRequest)
    requires Owned(log) && AllSnapshotted(log, q.contributions)
    ensures Owned(After(log, CompletionWrites(log, q)))
  {
    if After(log, CompletionWrites(log, q)) != log {
      var _, completed, sorted := CompletionShape(log, q);
      var resolved := ResolvedSet(q.resolutions);
      BatchAdds(log, ParentCompletionBatch(q.owner.unitId, resolved),
                CompletionDrafts(completed, EligibleOnes(sorted, q.now), resolved, q.now));
      Order.SortMultiset(q.contributions, Contributions.ById);
      forall c | c in sorted ensures Snapshotted(log, c) && c.unitId == q.owner.unitId {
        assert c in multiset(sorted);
        assert c in q.contributions;
      }
      EligibleStaysOwned(log, q.owner, completed, sorted, resolved, q.now);
    }
  }

  lemma {:induction false} SettleKeepsOwned(log: Events, q: SettleRequest)
    requires Owned(log)
    ensures Owned(After(log, SettleWrites(log, q)))
  {
    if After(log, SettleWrites(log, q)) != log {
      SettleEffect(log, q);
      SettledStaysOwned(log, q, RecordedEligible(log, q.root));
    }
  }

  lemma {:induction false} SettledStaysOwned(log: Events, q: SettleRequest, cs: seq<ContributionRecord>)
    requires Owned(log) && Settling(cs, q.budget)
    requires forall c :: c in cs ==> LatestContribution(log, c.contributionId) == Some(c)
    ensures Owned(log + SettlementEvents(|log|, q, cs))
  {
    WeightIsPositive(cs);
    var more := SettlementEvents(|log|, q, cs);
    forall k | 0 <= k < |more| && more[k].Payload().ContributionChanged?
      ensures SourceKnown(log, more[k].Payload().contribution) && Backed(log + more, more[k].Payload())
    {
      var c := cs[k];
      assert c in cs;
      assert more[k].draft == SettledDraft(c, EntriesFor(cs, q.budget)[k], q.root, q.now);
      LatestIsSnapshot(log, c.contributionId);
      SnapshotIsKnown(log, c, more[k].Payload().contribution);
      EligibleIsBacked(log, c);
      if c.kind.ExpandCanonical? { CompletedStays(log, log + more, c.unitId); }
    }
    MoreStaysOwned(log, more);
  }

  lemma {:induction false} EligibleIsBacked(log: Events, c: ContributionRecord)
    requires Owned(log) && Snapshotted(log, c) && c.state.Eligible?
    ensures c.kind.ExpandCanonical? ==> CompletedOwner(log, c.unitId)
  {
    var i :| 0 <= i < |log| && IsSnapshot(log[i].Payload(), c);
    assert Backed(log, log[i].Payload());
  }

  // ---------------------------------------------------------------- whole runs

  /** Parent completions are given snapshots the ledger recorded at some time, not made-up contributions. */
  ghost predicate RecordedSnapshots(log: Events, step: Step) {
    step.CompleteParent? ==> AllSnapshotted(log, step.completion.contributions)
  }

  ghost predicate Tended(log: Events) {
    AllCredited(log) && Owned(log)
  }

  lemma {:induction false} CompletionStepKeepsTended(log: Events, q: CompletionRequest)
    requires Tended(log) && AllSnapshotted(log, q.contributions)
    ensures Owned(After(log, CompletionWrites(log, q)))
    ensures forall id :: Credited(After(log, CompletionWrites(log, q)), id)
  {
    CompletionKeepsOwned(log, q);
    if After(log, CompletionWrites(log, q)) != log {
      SuppliedArePending(log, q);
      CompletionStepKeepsCredits(log, q);
    }
  }

  lemma {:induction false} QuietStepKeepsOwned(cfg: ProtocolConfig, log: Events, step: Step)
    requires Tended(log) && !MovesCredit(step)
    ensures Owned(Exec(cfg, log, step)) && forall id :: Credited(Exec(cfg, log, step), id)
  {
    StepAppends(cfg, log, step);
    QuietRecords(step);
    QuietKeepsOwned(log, Exec(cfg, log, step), step);
    forall id ensures Credited(Exec(cfg, log, step), id) { QuietKeepsCredits(log, Exec(cfg, log, step), step, id); }
  }

  lemma {:induction false} StepKeepsOwned(cfg: ProtocolConfig, log: Events, step: Step)
    requires Tended(log) && RecordedSnapshots(log, step)
    ensures Owned(Exec(cfg, log, step)) && forall id :: Credited(Exec(cfg, log, step), id)
  {
    if !MovesCredit(step) {
      QuietStepKeepsOwned(cfg, log, step);
    } else {
      match step {
        case CreateContribution(kind, taskId, source, at) =>
          ExecCreate(cfg, log, kind, taskId, source, at);
          CreateKeepsOwned(log, kind, taskId, source, at);
          forall id { CreateKeepsCredits(log, kind, taskId, source, at, id); }
        case CompleteParent(q) =>
          ExecCompletion(cfg, log, q);
          CompletionStepKeepsTended(log, q);
        case Settle(q) =>
          ExecSettle(cfg, log, q);
          SettleKeepsOwned(log, q);
          forall id { SettleKeepsCredits(log, q, id); }
      }
    }
  }

  lemma {:induction false} NextIsTended(cfg: ProtocolConfig, run: Run, k: nat)
    requires IsRun(cfg, run) && Tended(run.At(k)) && RecordedSnapshots(run.At(k), run.StepAt(k))
    ensures Tended(run.At(k + 1))
  {
    NextIsKeyed(cfg, run, k);
    StepKeepsOwned(cfg, run.At(k), run.StepAt(k));
  }

  lemma {:induction false} RunKeepsTended(cfg: ProtocolConfig, run: Run, k: nat)
    requires IsRun(cfg, run) && Tended(run.Start()) && EachStep(run, k, RecordedSnapshots)
    ensures Tended(run.At(k))
  {
    if k > 0 {
      StepIsOk(run, k, RecordedSnapshots);
      RunKeepsTended(cfg, run, k - 1);
      NextIsTended(cfg, run, k - 1);
    }
  }

  /**
   * No contribution is paid twice: over every run, across any number of roots, the recorded states of a
   * contribution follow Pending, Eligible, Settled, each at most once. Completions may be repeated, and may be
   * given stale snapshots.
   */
  lemma {:induction false} PaidAtMostOnce(cfg: ProtocolConfig, run: Run, k: nat, id: string)
    requires IsRun(cfg, run) && run.Start() == [] && EachStep(run, k, RecordedSnapshots)
    ensures Lined(History(run.At(k), id))
  {
    RunKeepsTended(cfg, run, k);
    assert Credited(run.At(k), id);
  }
}
