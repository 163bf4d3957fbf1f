/**
 * Contributions and money over whole runs of creation, parent completion and settlement
 * (src/tokenshare/protocol_engine.py:1400-1553, 3671-3708, 3895-3926; src/tokenshare/core/contribution.py:345-378).
 */
module Payments {
  import opened Basics
  import opened Objects
  import Order
  import opened Ledger
  import opened Projections
  import opened Completions
  import opened Contributions
  import opened Settlement
  import opened RootSettlement
  import opened Steps
  import opened Runs

  predicate Credits(p: Payload, id: string) {
    p.ContributionChanged? && p.contribution.contributionId == id
  }

  /** The states recorded for a contribution, in order. */
  ghost function History(log: Events, id: string): seq<ContributionState> {
    if log == [] then []
    else
      var p := log[|log| - 1].Payload();
      var before := History(log[..|log| - 1], id);
      if Credits(p, id) then before + [p.contribution.state] else before
  }

  /** Pending, Eligible, Settled in this order, each at most once; only the first may be skipped. */
  predicate Lined(h: seq<ContributionState>) {
    h == [] || h == [Pending] || h == [ContributionState.Eligible] || h == [Pending, ContributionState.Eligible]
    || h == [ContributionState.Eligible, Settled] || h == [Pending, ContributionState.Eligible, Settled]
  }

  predicate CreatedAs(p: Payload, id: string) {
    && Credits(p, id) && p.oldContributionState.None?
    && p.contribution.state == InitialState(p.contribution.kind) && TellsKind(id, p.contribution.kind)
  }

  /** A recorded contribution was created by the coordinator, in the initial state of its kind. */
  ghost predicate WasCreated(log: Events, id: string) {
    History(log, id) != [] ==> exists i :: 0 <= i < |log| && CreatedAs(log[i].Payload(), id)
  }

  ghost predicate Credited(log: Events, id: string) {
    Lined(History(log, id)) && WasCreated(log, id)
  }

  // ---------------------------------------------------------------- what appended events do

  lemma {:induction false} HistoryEffect(log: Events, e: Event, id: string)
    ensures History(log + [e], id)
      == History(log, id) + if Credits(e.Payload(), id) then [e.Payload().contribution.state] else []
  {
    assert (log + [e])[..|log|] == log;
  }

  lemma {:induction false} OtherEvents(log: Events, more: Events, id: string)
    requires forall i :: 0 <= i < |more| ==> !Credits(more[i].Payload(), id)
    ensures History(log + more, id) == History(log, id)
  {
    if more == [] {
      assert log + more == log;
    } else {
      var n := |more| - 1;
      OtherEvents(log, more[..n], id);
      HistoryEffect(log + more[..n], more[n], id);
      assert log + more == log + more[..n] + [more[n]];
    }
  }

  /** One event among many concerns the contribution. */
  lemma {:induction false} OneEvent(log: Events, more: Events, id: string, k: nat)
    requires k < |more| && Credits(more[k].Payload(), id)
    requires forall i :: 0 <= i < |more| && i != k ==> !Credits(more[i].Payload(), id)
    ensures History(log + more, id) == History(log, id) + [more[k].Payload().contribution.state]
  {
    var front, back := more[..k], more[k + 1..];
    OtherEvents(log, front, id);
    HistoryEffect(log + front, more[k], id);
    OtherEvents(log + front + [more[k]], back, id);
    assert log + more == log + front + [more[k]] + back;
  }

  lemma {:induction false} CreatedStays(log: Events, next: Events, id: string)
    requires log <= next && WasCreated(log, id) && (History(log, id) == [] ==> History(next, id) == [])
    ensures WasCreated(next, id)
  {
    if History(next, id) != [] {
      var i :| 0 <= i < |log| && CreatedAs(log[i].Payload(), id);
      assert next[i] == log[i];
    }
  }

  /** The last recorded state is that of the latest snapshot. */
  lemma {:induction false} LatestIsLast(log: Events, id: string)
    ensures LatestContribution(log, id).Some? <==> History(log, id) != []
    ensures LatestContribution(log, id).Some? ==>
      LatestContribution(log, id).value.state == History(log, id)[|History(log, id)| - 1]
  {
    if log != [] { LatestIsLast(log[..|log| - 1], id); }
  }

  // ---------------------------------------------------------------- step by step

  lemma {:induction false} QuietKeepsCredits(log: Events, next: Events, step: Step, id: string)
    requires Credited(log, id) && ExtendsBy(log, next, step) && !Records(step, CreditKind)
    ensures Credited(next, id)
  {
    var more := next[|log|..];
    assert next == log + more;
    forall i | 0 <= i < |more| ensures !Credits(more[i].Payload(), id) {
      assert Records(step, KindOf(next[|log| + i].Payload()));
    }
    OtherEvents(log, more, id);
    CreatedStays(log, next, id);
  }

  /** A contribution on record cannot be created again: its id fixes its kind, and its kind the creation key. */
  lemma {:induction false} CreatedOnce(log: Events, c: ContributionRecord, at: string)
    requires Keyed(log) && WasCreated(log, c.contributionId) && History(log, c.contributionId) != []
    requires c.state == InitialState(c.kind) && TellsKind(c.contributionId, c.kind)
    ensures Commit(log, [One(CreationDraft(c, at))]) == log
  {
    var i :| 0 <= i < |log| && CreatedAs(log[i].Payload(), c.contributionId);
    CreationKey(log[i].draft, c);
    KeyTaken(log, CreationDraft(c, at), i);
  }

  lemma {:induction false} CreationKey(d: Draft, c: ContributionRecord)
    requires KeyFits(d) && CreatedAs(d.payload, c.contributionId)
    requires c.state == InitialState(c.kind) && TellsKind(c.contributionId, c.kind)
    ensures d.key == ContributionCreateKey(c.contributionId, c.state)
  {
  }

  lemma {:induction false} KeyTaken(log: Events, d: Draft, i: nat)
    requires i < |log| && log[i].Key() == d.key
    ensures Commit(log, [One(d)]) == log
  {
    LookupFinds(log, d.key);
    assert [One(d)][1..] == [];
  }

  lemma {:induction false} CreationKeepsCredits(log: Events, c: ContributionRecord, at: string, id: string)
    requires Keyed(log) && Credited(log, id) && Credited(log, c.contributionId)
    requires c.state == InitialState(c.kind) && TellsKind(c.contributionId, c.kind)
    ensures Credited(Commit(log, [One(CreationDraft(c, at))]), id)
  {
    var e := Event(|log| + 1, CreationDraft(c, at), None);
    AppendAdds(log, CreationDraft(c, at));
    if History(log, c.contributionId) != [] {
      CreatedOnce(log, c, at);
    } else {
      HistoryEffect(log, e, id);
      if id == c.contributionId {
        assert CreatedAs((log + [e])[|log|].Payload(), id);
      } else {
        CreatedStays(log, log + [e], id);
      }
    }
  }

  lemma {:induction false} CreateKeepsCredits(log: Events, kind: ContributionKind, taskId: string, source: BatchInput,
                                              at: string, id: string)
    requires Keyed(log) && forall x :: Credited(log, x)
    ensures Credited(After(log, CreateWrites(log, kind, taskId, source, at)), id)
  {
    if CreateWrites(log, kind, taskId, source, at).Ok? {
      CreationKeepsCredits(log, ContributionOf(kind, taskId, source, log).value, at, id);
    }
  }

  /** Where a completion batch credits a contribution. */
  lemma {:induction false} CompletionHistory(log: Events, completed: TaskUnit, sorted: seq<ContributionRecord>,
                                             resolved: seq<ResolvedOutput>, bid: BatchId, now: string, id: string)
    requires Distinct(ContributionIds(sorted))
    ensures var more := Stamp(|log|, bid, CompletionDrafts(completed, EligibleOnes(sorted, now), resolved, now));
      History(log + more, id)
        == History(log, id) + if id in ContributionIds(sorted) then [ContributionState.Eligible] else []
  {
    var eligible := EligibleOnes(sorted, now);
    var more := Stamp(|log|, bid, CompletionDrafts(completed, eligible, resolved, now));
    forall i | 1 <= i < |more|
      ensures more[i].Payload().ContributionChanged? && more[i].Payload().contribution.state.Eligible?
      ensures more[i].Payload().contribution.contributionId == ContributionIds(sorted)[i - 1]
    {
      assert more[i].draft == EligibleDraft(eligible[i - 1], resolved, now);
    }
    if id in ContributionIds(sorted) {
      var k :| 0 <= k < |sorted| && ContributionIds(sorted)[k] == id;
      OneEvent(log, more, id, k + 1);
    } else {
      OtherEvents(log, more, id);
    }
  }

  /** Every supplied contribution is pending in the ledger. */
  ghost predicate PendingOnRecord(log: Events, cs: seq<ContributionRecord>) {
    forall c :: c in cs ==>
      LatestContribution(log, c.contributionId).Some? && LatestContribution(log, c.contributionId).value.state.Pending?
  }

  /** Only a pending contribution may become eligible once it is on record. */
  lemma {:induction false} EligibleFollowsPending(h: seq<ContributionState>)
    requires Lined(h) && h != []
    ensures Lined(h + [ContributionState.Eligible]) <==> h[|h| - 1].Pending?
  {
    var longer := h + [ContributionState.Eligible];
    assert longer[|h|].Eligible? && longer[0] == h[0];
    if h == [Pending] { assert longer == [Pending, ContributionState.Eligible]; }
  }

  lemma {:induction false} CompletedCredit(log: Events, next: Events, id: string)
    requires Credited(log, id) && log <= next && History(next, id) == History(log, id) + [ContributionState.Eligible]
    requires forall i :: |log| <= i < |next| ==> !CreatedAs(next[i].Payload(), id)
    ensures Credited(next, id) <==>
      (LatestContribution(log, id).Some? && LatestContribution(log, id).value.state.Pending?)
  {
    var h := History(log, id);
    LatestIsLast(log, id);
    if h == [] {
      if Credited(next, id) { NotCreatedYet(log, next, id); }
    } else {
      EligibleFollowsPending(h);
      CreatedStays(log, next, id);
    }
  }

  lemma {:induction false} NotCreatedYet(log: Events, next: Events, id: string)
    requires History(log, id) == [] && log <= next && WasCreated(next, id) && History(next, id) != []
    ensures exists i :: |log| <= i < |next| && CreatedAs(next[i].Payload(), id)
  {
    var i :| 0 <= i < |next| && CreatedAs(next[i].Payload(), id);
    if i < |log| { RecordedInHistory(log, id, i); }
  }

  lemma {:induction false} RecordedInHistory(log: Events, id: string, i: nat)
    requires i < |log| && Credits(log[i].Payload(), id)
    ensures History(log, id) != []
  {
    if i < |log| - 1 { RecordedInHistory(log[..|log| - 1], id, i); }
  }

  /** The completion credits each of its contributions, once, and no other. */
  lemma {:induction false} CompletionCredits(log: Events, completed: TaskUnit, sorted: seq<ContributionRecord>,
                                             resolved: seq<ResolvedOutput>, bid: BatchId, now: string, id: string)
    requires Distinct(ContributionIds(sorted)) && Credited(log, id)
    ensures var next := log + Stamp(|log|, bid, CompletionDrafts(completed, EligibleOnes(sorted, now), resolved, now));
      Credited(next, id) <==>
        (id in ContributionIds(sorted) ==>
           LatestContribution(log, id).Some? && LatestContribution(log, id).value.state.Pending?)
  {
    var next := log + Stamp(|log|, bid, CompletionDrafts(completed, EligibleOnes(sorted, now), resolved, now));
    CompletionHistory(log, completed, sorted, resolved, bid, now, id);
    NothingCreated(log, completed, sorted, resolved, bid, now, id);
    if id in ContributionIds(sorted) { CompletedCredit(log, next, id); } else { CreatedStays(log, next, id); }
  }

  /** No supplied contribution has moved past Pending in the ledger; some may be unknown to it. */
  ghost predicate NoneMovedOn(log: Events, cs: seq<ContributionRecord>) {
    forall c :: c in cs ==> NotMovedOn(log, c.contributionId)
  }

  ghost predicate NoIdMovedOn(log: Events, ids: seq<string>) {
    forall id :: id in ids ==> NotMovedOn(log, id)
  }

  ghost predicate AllLined(log: Events) {
    forall id :: Lined(History(log, id))
  }

  ghost predicate NotMovedOn(log: Events, id: string) {
    LatestContribution(log, id).Some? ==> LatestContribution(log, id).value.state.Pending?
  }

  lemma {:induction false} CompletionLines(log: Events, completed: TaskUnit, sorted: seq<ContributionRecord>,
                                           resolved: seq<ResolvedOutput>, bid: BatchId, now: string, id: string)
    requires Distinct(ContributionIds(sorted)) && Lined(History(log, id))
    ensures var next := log + Stamp(|log|, bid, CompletionDrafts(completed, EligibleOnes(sorted, now), resolved, now));
      Lined(History(next, id)) <==> (id in ContributionIds(sorted) ==> NotMovedOn(log, id))
  {
    CompletionHistory(log, completed, sorted, resolved, bid, now, id);
    LatestIsLast(log, id);
    if History(log, id) != [] { EligibleFollowsPending(History(log, id)); }
  }

  lemma {:induction false} CompletionLinesAll(log: Events, completed: TaskUnit, sorted: seq<ContributionRecord>,
                                              resolved: seq<ResolvedOutput>, bid: BatchId, now: string)
    requires Distinct(ContributionIds(sorted)) && AllLined(log)
    ensures var next := log + Stamp(|log|, bid, CompletionDrafts(completed, EligibleOnes(sorted, now), resolved, now));
      AllLined(next) <==> NoIdMovedOn(log, ContributionIds(sorted))
  {
    var next := log + Stamp(|log|, bid, CompletionDrafts(completed, EligibleOnes(sorted, now), resolved, now));
    if AllLined(next) {
      forall id | id in ContributionIds(sorted) ensures NotMovedOn(log, id) {
        CompletionLines(log, completed, sorted, resolved, bid, now, id);
      }
    }
    if NoIdMovedOn(log, ContributionIds(sorted)) {
      forall id ensures Lined(History(next, id)) { CompletionLines(log, completed, sorted, resolved, bid, now, id); }
    }
  }

  lemma {:induction false} SuppliedNotMovedOn(sorted: seq<ContributionRecord>, cs: seq<ContributionRecord>, log: Events)
    requires forall c :: c in sorted <==> c in cs
    ensures NoneMovedOn(log, cs) <==> NoIdMovedOn(log, ContributionIds(sorted))
  {
    var ids := ContributionIds(sorted);
    if NoneMovedOn(log, cs) {
      forall id | id in ids ensures NotMovedOn(log, id) {
        var k :| 0 <= k < |sorted| && ids[k] == id;
        assert sorted[k] in sorted;
      }
    }
    if NoIdMovedOn(log, ids) {
      forall c | c in cs ensures NotMovedOn(log, c.contributionId) {
        var k :| 0 <= k < |sorted| && sorted[k] == c;
        assert ids[k] == c.contributionId && ids[k] in ids;
      }
    }
  }

  /**
   * A parent completion that is appended keeps every history in line exactly when no supplied contribution has
   * moved past Pending in the ledger: the engine itself only looks at the supplied snapshots.
   */
  lemma {:induction false} CompletionKeepsLines(log: Events, q: CompletionRequest)
    requires AllLined(log) && CompletionWrites(log, q).Ok? && After(log, CompletionWrites(log, q)) != log
    ensures AllLined(After(log, CompletionWrites(log, q))) <==> NoneMovedOn(log, q.contributions)
  {
    var _, completed, sorted := CompletionShape(log, q);
    var resolved := ResolvedSet(q.resolutions);
    var bid := ParentCompletionBatch(q.owner.unitId, resolved);
    BatchAdds(log, bid, CompletionDrafts(completed, EligibleOnes(sorted, q.now), resolved, q.now));
    CompletionLinesAll(log, completed, sorted, resolved, bid, q.now);
    Order.SortMultiset(q.contributions, Contributions.ById);
    SuppliedNotMovedOn(sorted, q.contributions, log);
  }

  /**
   * Being in line is not enough to stay in line: a contribution made eligible before it was created can still be
   * created, which sets it back to its initial state. Hence runs also keep that it was created.
   */
  lemma {:induction false} LateCreationReopens(log: Events, c: ContributionRecord, at: string)
    requires History(log, c.contributionId) != []
    requires Lookup(log, ContributionCreateKey(c.contributionId, c.state)).None? && c.state == InitialState(c.kind)
    ensures Lined(History(Commit(log, [One(CreationDraft(c, at))]), c.contributionId))
      <==> History(log, c.contributionId) == [Pending] && c.state.Eligible?
  {
    var h := History(log, c.contributionId);
    AppendAdds(log, CreationDraft(c, at));
    HistoryEffect(log, Event(|log| + 1, CreationDraft(c, at), None), c.contributionId);
    var longer := h + [c.state];
    assert longer[|h|] == c.state && longer[0] == h[0];
    if h == [Pending] && c.state.Eligible? { assert longer == [Pending, ContributionState.Eligible]; }
  }

  /**
   * A parent completion that is appended leaves every contribution created and in line exactly when each
   * contribution its caller supplied is pending in the ledger.
   */
  lemma {:induction false} CompletionKeepsCredits(log: Events, q: CompletionRequest)
    requires (forall id :: Credited(log, id)) && CompletionWrites(log, q).Ok?
    requires After(log, CompletionWrites(log, q)) != log
    ensures (forall id :: Credited(After(log, CompletionWrites(log, q)), id)) <==> PendingOnRecord(log, q.contributions)
  {
    var _, completed, sorted := CompletionShape(log, q);
    var resolved := ResolvedSet(q.resolutions);
    var bid := ParentCompletionBatch(q.owner.unitId, resolved);
    BatchAdds(log, bid, CompletionDrafts(completed, EligibleOnes(sorted, q.now), resolved, q.now));
    forall id { CompletionCredits(log, completed, sorted, resolved, bid, q.now, id); }
    Order.SortMultiset(q.contributions, Contributions.ById);
    SuppliedIds(sorted, q.contributions, log);
  }

  lemma {:induction false} NothingCreated(log: Events, completed: TaskUnit, sorted: seq<ContributionRecord>,
                                          resolved: seq<ResolvedOutput>, bid: BatchId, now: string, id: string)
    ensures var next := log + Stamp(|log|, bid, CompletionDrafts(completed, EligibleOnes(sorted, now), resolved, now));
      forall i :: |log| <= i < |next| ==> !CreatedAs(next[i].Payload(), id)
  {
    var eligible := EligibleOnes(sorted, now);
    var drafts := CompletionDrafts(completed, eligible, resolved, now);
    forall k | 1 <= k < |drafts| ensures drafts[k] == EligibleDraft(eligible[k - 1], resolved, now) {}
  }

  lemma {:induction false} SuppliedIds(sorted: seq<ContributionRecord>, cs: seq<ContributionRecord>, log: Events)
    requires forall c :: c in sorted <==> c in cs
    ensures PendingOnRecord(log, cs) <==> PendingOnRecord(log, sorted)
    ensures PendingOnRecord(log, cs) <==>
      (forall id :: id in ContributionIds(sorted) ==>
         LatestContribution(log, id).Some? && LatestContribution(log, id).value.state.Pending?)
  {
    if PendingOnRecord(log, sorted) {
      forall id | id in ContributionIds(sorted)
        ensures LatestContribution(log, id).Some? && LatestContribution(log, id).value.state.Pending?
      {
        var k :| 0 <= k < |sorted| && ContributionIds(sorted)[k] == id;
        assert sorted[k] in sorted;
      }
    } else {
      var c :| c in sorted
        && !(LatestContribution(log, c.contributionId).Some?
             && LatestContribution(log, c.contributionId).value.state.Pending?);
      var k :| 0 <= k < |sorted| && sorted[k] == c;
      assert ContributionIds(sorted)[k] == c.contributionId && ContributionIds(sorted)[k] in ContributionIds(sorted);
    }
  }

  // ---------------------------------------------------------------- settlement

  lemma {:induction false} SettledFollowsEligible(h: seq<ContributionState>)
    requires Lined(h) && h != [] && h[|h| - 1].Eligible?
    ensures Lined(h + [Settled])
  {
    var longer := h + [Settled];
    if |h| == 1 {
      assert longer == [ContributionState.Eligible, Settled];
    } else {
      assert h == [Pending, ContributionState.Eligible];
      assert longer == [Pending, ContributionState.Eligible, Settled];
    }
  }

  /** Where a settlement batch credits a contribution. */
  lemma {:induction false} SettlementHistory(log: Events, q: SettleRequest, cs: seq<ContributionRecord>, id: string)
    requires Settling(cs, q.budget)
    ensures (forall c :: c in cs ==> c.contributionId != id) ==>
      History(log + SettlementEvents(|log|, q, cs), id) == History(log, id)
    ensures (exists c :: c in cs && c.contributionId == id) ==>
      History(log + SettlementEvents(|log|, q, cs), id) == History(log, id) + [Settled]
  {
    var more := SettlementEvents(|log|, q, cs);
    WeightIsPositive(cs);
    forall i | 0 <= i < |cs|
      ensures more[i].Payload().ContributionChanged? && more[i].Payload().contribution.state.Settled?
      ensures more[i].Payload().contribution.contributionId == cs[i].contributionId
    {
      SettledEventMatches(|log|, q, cs, i);
    }
    if c :| c in cs && c.contributionId == id {
      var k :| 0 <= k < |cs| && cs[k] == c;
      OneEvent(log, more, id, k);
    } else {
      forall i | 0 <= i < |more| ensures !Credits(more[i].Payload(), id) {
        if i < |cs| { assert cs[i] in cs; }
      }
      OtherEvents(log, more, id);
    }
  }

  lemma {:induction false} SettlementKeepsCredits(log: Events, q: SettleRequest, cs: seq<ContributionRecord>,
                                                  id: string)
    requires Credited(log, id) && Settling(cs, q.budget)
    requires forall c :: c in cs ==> LatestContribution(log, c.contributionId) == Some(c)
    ensures Credited(log + SettlementEvents(|log|, q, cs), id)
  {
    var next := log + SettlementEvents(|log|, q, cs);
    SettlementHistory(log, q, cs, id);
    if c :| c in cs && c.contributionId == id {
      LatestIsLast(log, id);
      SettledFollowsEligible(History(log, id));
    }
    if History(log, id) != [] { CreatedStays(log, next, id); }
  }

  /** A settlement either changes nothing or appends the batch of the ledger's eligible contributions. */
  lemma {:induction false} SettleEffect(log: Events, q: SettleRequest)
    requires After(log, SettleWrites(log, q)) != log
    ensures var cs := RecordedEligible(log, q.root);
      && Settling(cs, q.budget) && !HasBatch(log, SettlementBatch(q.root))
      && (forall c :: c in cs ==> LatestContribution(log, c.contributionId) == Some(c))
      && After(log, SettleWrites(log, q)) == log + SettlementEvents(|log|, q, cs)
  {
    var cs := RecordedEligible(log, q.root);
    var entries := SettleShape(log, q);
    RecordedIsSettling(log, q.root, q.budget);
    RecordedEntries(log, q.root, q.budget);
    BatchAdds(log, SettlementBatch(q.root), SettlementDrafts(q, cs, entries));
  }

  lemma {:induction false} SettleKeepsCredits(log: Events, q: SettleRequest, id: string)
    requires Credited(log, id)
    ensures Credited(After(log, SettleWrites(log, q)), id)
  {
    if After(log, SettleWrites(log, q)) != log {
      SettleEffect(log, q);
      SettlementKeepsCredits(log, q, RecordedEligible(log, q.root), id);
    }
  }

  // ---------------------------------------------------------------- money

  predicate IsPayment(p: Payload) {
    p.ContributionChanged? && p.contribution.state.Settled? && p.entry.Some?
  }

  ghost function Paid(log: Events): int {
    if log == [] then 0
    else
      var p := log[|log| - 1].Payload();
      Paid(log[..|log| - 1]) + if IsPayment(p) then p.entry.value.rewardUnits else 0
  }

  ghost function Budgets(log: Events): int {
    if log == [] then 0
    else
      var p := log[|log| - 1].Payload();
      Budgets(log[..|log| - 1]) + if p.SettlementRecorded? then p.settlement.rootBudget else 0
  }

  predicate MovesMoney(p: Payload) {
    IsPayment(p) || p.SettlementRecorded?
  }

  lemma {:induction false} MoneyEffect(log: Events, e: Event)
    ensures Paid(log + [e]) == Paid(log) + if IsPayment(e.Payload()) then e.Payload().entry.value.rewardUnits else 0
    ensures Budgets(log + [e])
      == Budgets(log) + if e.Payload().SettlementRecorded? then e.Payload().settlement.rootBudget else 0
  {
    assert (log + [e])[..|log|] == log;
  }

  lemma {:induction false} NoMoneyMoves(log: Events, more: Events)
    requires forall i :: 0 <= i < |more| ==> !MovesMoney(more[i].Payload())
    ensures Paid(log + more) == Paid(log) && Budgets(log + more) == Budgets(log)
  {
    if more == [] {
      assert log + more == log;
    } else {
      var n := |more| - 1;
      NoMoneyMoves(log, more[..n]);
      MoneyEffect(log + more[..n], more[n]);
      assert log + more == log + more[..n] + [more[n]];
    }
  }

  /** Paying the first `n` entries of a settlement. */
  lemma {:induction false} PaymentsAddUp(log: Events, more: Events, rewards: seq<int>, n: nat)
    requires n <= |more| && |rewards| == n
    requires forall i :: 0 <= i < n ==>
      IsPayment(more[i].Payload()) && more[i].Payload().entry.value.rewardUnits == rewards[i]
    ensures Paid(log + more[..n]) == Paid(log) + Sum(rewards) && Budgets(log + more[..n]) == Budgets(log)
  {
    if n == 0 {
      assert log + more[..0] == log;
    } else {
      PaymentsAddUp(log, more, rewards[..n - 1], n - 1);
      MoneyEffect(log + more[..n - 1], more[n - 1]);
      assert log + more[..n] == log + more[..n - 1] + [more[n - 1]];
      SumLast(rewards);
    }
  }

  lemma {:induction false} SumLast(xs: seq<int>)
    requires xs != []
    ensures Sum(xs) == Sum(xs[..|xs| - 1]) + xs[|xs| - 1]
  {
    if |xs| > 1 {
      SumLast(xs[1..]);
      assert xs[1..][..|xs| - 2] == xs[..|xs| - 1][1..];
    }
  }

  lemma {:induction false} SettlementPays(log: Events, q: SettleRequest, cs: seq<ContributionRecord>, i: nat)
    requires Settling(cs, q.budget) && i < |cs|
    ensures var p := SettlementEvents(|log|, q, cs)[i].Payload();
      IsPayment(p) && p.entry.value.rewardUnits == RewardsOf(EntriesFor(cs, q.budget))[i]
  {
    assert SettlementEvents(|log|, q, cs)[i].draft == SettledDraft(cs[i], EntriesFor(cs, q.budget)[i], q.root, q.now);
  }

  lemma {:induction false} SettlementBalances(log: Events, q: SettleRequest, cs: seq<ContributionRecord>)
    requires Settling(cs, q.budget)
    ensures var next := log + SettlementEvents(|log|, q, cs);
      Paid(next) == Paid(log) + q.budget && Budgets(next) == Budgets(log) + q.budget
  {
    WeightIsPositive(cs);
    var more := SettlementEvents(|log|, q, cs);
    var rewards := RewardsOf(EntriesFor(cs, q.budget));
    forall i | 0 <= i < |cs|
      ensures IsPayment(more[i].Payload()) && more[i].Payload().entry.value.rewardUnits == rewards[i]
    {
      SettlementPays(log, q, cs, i);
    }
    PaymentsAddUp(log, more, rewards, |cs|);
    MoneyEffect(log + more[..|cs|], more[|cs|]);
    assert log + more == log + more[..|cs|] + [more[|cs|]];
    RewardsSumToBudget(cs, q.budget);
  }

  ghost predicate Balanced(log: Events) {
    Paid(log) == Budgets(log)
  }

  lemma {:induction false} SettleKeepsBalance(log: Events, q: SettleRequest)
    requires Balanced(log)
    ensures Balanced(After(log, SettleWrites(log, q)))
  {
    if After(log, SettleWrites(log, q)) != log {
      SettleEffect(log, q);
      SettlementBalances(log, q, RecordedEligible(log, q.root));
    }
  }

  lemma {:induction false} StillKeepsBalance(log: Events, writes: seq<Write>)
    requires Balanced(log) && forall d :: d in AllDrafts(writes) ==> !MovesMoney(d.payload)
    ensures Balanced(Commit(log, writes))
  {
    var next := Commit(log, writes);
    CommitAddsOnlyDrafts(log, writes);
    var more := next[|log|..];
    assert next == log + more;
    forall i | 0 <= i < |more| ensures !MovesMoney(more[i].Payload()) {
      assert next[|log| + i].draft in AllDrafts(writes);
    }
    NoMoneyMoves(log, more);
  }

  lemma {:induction false} CreateKeepsBalance(log: Events, kind: ContributionKind, taskId: string, source: BatchInput,
                                              at: string)
    requires Balanced(log)
    ensures Balanced(After(log, CreateWrites(log, kind, taskId, source, at)))
  {
    if CreateWrites(log, kind, taskId, source, at).Ok? {
      OneCall(CreationDraft(ContributionOf(kind, taskId, source, log).value, at));
      StillKeepsBalance(log, CreateWrites(log, kind, taskId, source, at).value);
    }
  }

  lemma {:induction false} CompletionKeepsBalance(log: Events, q: CompletionRequest)
    requires Balanced(log)
    ensures Balanced(After(log, CompletionWrites(log, q)))
  {
    if CompletionWrites(log, q).Ok? {
      var _, completed, sorted := CompletionShape(log, q);
      var resolved, eligible := ResolvedSet(q.resolutions), EligibleOnes(sorted, q.now);
      var drafts := CompletionDrafts(completed, eligible, resolved, q.now);
      OneBatch(ParentCompletionBatch(q.owner.unitId, resolved), drafts);
      forall d | d in drafts ensures !MovesMoney(d.payload) {
        var i :| 0 <= i < |drafts| && drafts[i] == d;
        if i > 0 { assert drafts[i] == EligibleDraft(eligible[i - 1], resolved, q.now); }
      }
      StillKeepsBalance(log, CompletionWrites(log, q).value);
    }
  }

  lemma {:induction false} QuietKeepsBalance(log: Events, next: Events, step: Step)
    requires Balanced(log) && ExtendsBy(log, next, step) && !Records(step, CreditKind) && !Records(step, SettlementKind)
    ensures Balanced(next)
  {
    var more := next[|log|..];
    assert next == log + more;
    forall i | 0 <= i < |more| ensures !MovesMoney(more[i].Payload()) {
      assert Records(step, KindOf(next[|log| + i].Payload()));
    }
    NoMoneyMoves(log, more);
  }

  // ---------------------------------------------------------------- whole runs

  predicate MovesCredit(step: Step) {
    step.CreateContribution? || step.CompleteParent? || step.Settle?
  }

  lemma {:induction false} QuietRecords(step: Step)
    requires !MovesCredit(step)
    ensures !Records(step, CreditKind) && !Records(step, SettlementKind)
  {
  }

  lemma {:induction false} QuietStepKeepsBooks(cfg: ProtocolConfig, log: Events, step: Step)
    requires Keyed(log) && !MovesCredit(step)
    ensures Balanced(log) ==> Balanced(Exec(cfg, log, step))
  {
    StepAppends(cfg, log, step);
    QuietRecords(step);
    if Balanced(log) { QuietKeepsBalance(log, Exec(cfg, log, step), step); }
  }

  ghost predicate AllCredited(log: Events) {
    Keyed(log) && forall id :: Credited(log, id)
  }

  lemma {:induction false} CompletionStepKeepsCredits(log: Events, q: CompletionRequest)
    requires AllCredited(log) && PendingOnRecord(log, q.contributions)
    ensures forall id :: Credited(After(log, CompletionWrites(log, q)), id)
  {
    if CompletionWrites(log, q).Ok? && After(log, CompletionWrites(log, q)) != log {
      CompletionKeepsCredits(log, q);
    }
  }

  lemma {:induction false} StepKeepsBalance(cfg: ProtocolConfig, log: Events, step: Step)
    requires Keyed(log) && Balanced(log)
    ensures Balanced(Exec(cfg, log, step))
  {
    if !MovesCredit(step) {
      QuietStepKeepsBooks(cfg, log, step);
    } else {
      match step {
        case CreateContribution(kind, taskId, source, at) =>
          ExecCreate(cfg, log, kind, taskId, source, at);
          CreateKeepsBalance(log, kind, taskId, source, at);
        case CompleteParent(q) =>
          ExecCompletion(cfg, log, q);
          CompletionKeepsBalance(log, q);
        case Settle(q) =>
          ExecSettle(cfg, log, q);
          SettleKeepsBalance(log, q);
      }
    }
  }

  lemma {:induction false} NextKeepsBalance(cfg: ProtocolConfig, run: Run, k: nat)
    requires IsRun(cfg, run) && Keyed(run.At(k)) && Balanced(run.At(k))
    ensures Balanced(run.At(k + 1))
  {
    StepKeepsBalance(cfg, run.At(k), run.StepAt(k));
  }

  lemma {:induction false} RunKeepsBalance(cfg: ProtocolConfig, run: Run, k: nat)
    requires IsRun(cfg, run) && Keyed(run.Start()) && Balanced(run.Start())
    ensures Balanced(run.At(k))
  {
    if k > 0 {
      RunKeepsBalance(cfg, run, k - 1);
      RunIsKeyed(cfg, run, 0, k - 1);
      NextKeepsBalance(cfg, run, k - 1);
    }
  }

  /** Whatever the callers supply, all rewards ever paid add up to the budgets of the settled roots. */
  lemma {:induction false} MoneyIsConserved(cfg: ProtocolConfig, run: Run, k: nat)
    requires IsRun(cfg, run) && run.Start() == []
    ensures Paid(run.At(k)) == Budgets(run.At(k))
  {
    RunKeepsBalance(cfg, run, k);
  }

  /** The hypothesis is needed: the engine accepts the same completion under any contribution id its caller makes up. */
  lemma {:induction false} SuppliedIdIsNotChecked(log: Events, q: CompletionRequest, c: ContributionRecord, id: string)
    requires q.contributions == [c] && CompletionWrites(log, q).Ok?
    ensures CompletionWrites(log, q.(contributions := [c.(contributionId := id)])).Ok?
  {
    var forged := c.(contributionId := id);
    SortOfOne(c);
    SortOfOne(forged);
    assert MayBecomeEligible(c, q.owner, DecisionIds(q.refs)) by { assert c in [c]; }
  }

  lemma {:induction false} SortOfOne(c: ContributionRecord)
    ensures Order.Sort([c], Contributions.ById) == [c]
  {
    assert [c][1..] == [];
  }

  lemma {:induction false} SettledAgain(log: Events, q: SettleRequest, later: Events, again: SettleRequest)
    requires After(log, SettleWrites(log, q)) != log && After(log, SettleWrites(log, q)) <= later && Keyed(later)
    requires again.root == q.root && again.policyId == q.policyId && again.budget == q.budget
    requires multiset(again.supplied) == multiset(RecordedEligible(log, q.root))
    ensures SettleWrites(later, again) == Ok([])
  {
    SettleEffect(log, q);
    RecordedEligibleMembers(log, q.root);
    MarkersAreKeyed(later);
    PositiveSeq(log, q);
    SettlementReplays(log, q, RecordedEligible(log, q.root), After(log, SettleWrites(log, q)), later, again);
  }

  lemma {:induction false} PositiveSeq(log: Events, q: SettleRequest)
    requires After(log, SettleWrites(log, q)) != log
    ensures q.root.completionSeq > 0
  {
    var entries := SettleShape(log, q);
  }

  /**
   * In every run, a settlement that was appended is found again at any later time: the same request with
   * the same eligible snapshots, in any order, returns it and appends nothing.
   */
  lemma {:induction false} SettlementIsPermanent(cfg: ProtocolConfig, run: Run, j: nat, k: nat,
                                                 q: SettleRequest, again: SettleRequest)
    requires IsRun(cfg, run) && Keyed(run.Start()) && j < k
    requires run.StepAt(j) == Settle(q) && run.At(j + 1) != run.At(j)
    requires again.root == q.root && again.policyId == q.policyId && again.budget == q.budget
    requires multiset(again.supplied) == multiset(RecordedEligible(run.At(j), q.root))
    ensures SettleWrites(run.At(k), again) == Ok([])
  {
    ExecSettle(cfg, run.At(j), q);
    RunIsKeyed(cfg, run, j + 1, k);
    SettledAgain(run.At(j), q, run.At(k), again);
  }

  lemma {:induction false} MarkersAreKeyed(log: Events)
    requires KeysFit(log)
    ensures MarkersKeyed(log)
  {
    forall i | 0 <= i < |log| && log[i].Payload().SettlementRecorded?
      ensures log[i].Key() == SettlementKey(log[i].Payload().settlement.root)
    {
      assert KeyFits(log[i].draft);
    }
  }
}
