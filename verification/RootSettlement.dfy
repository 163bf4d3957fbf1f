/**
 * Settling a completed root: the batch the engine writes and the validator that reads it back
 * (src/tokenshare/protocol_engine.py:1400-1553, 3850-4232).
 */
module RootSettlement {
  import opened Basics
  import opened Objects
  import opened Order
  import opened Ledger
  import opened Batches
  import opened Contributions
  import opened Projections
  import opened Settlement

  datatype SettleRequest = SettleRequest(
    root: RootCompletion,
    supplied: seq<ContributionRecord>,
    budget: int,
    policyId: string,
    now: string)

  // ---------------------------------------------------------------- the contributions of a request

  predicate InScope(c: ContributionRecord, root: RootCompletion) {
    c.taskId == root.taskId && Settleable(c, root.completionSeq)
  }

  function WithId(cs: seq<ContributionRecord>, id: string): Option<ContributionRecord> {
    if cs == [] then None
    else if cs[0].contributionId == id then Some(cs[0])
    else WithId(cs[1..], id)
  }

  lemma {:induction false} WithIdFinds(cs: seq<ContributionRecord>, id: string)
    ensures WithId(cs, id).Some? <==> exists c :: c in cs && c.contributionId == id
    ensures WithId(cs, id).Some? ==> WithId(cs, id).value in cs && WithId(cs, id).value.contributionId == id
  {
    if cs != [] {
      WithIdFinds(cs[1..], id);
      assert cs == [cs[0]] + cs[1..];
      assert forall c :: c in cs <==> c == cs[0] || c in cs[1..];
    }
  }

  /** The contributions in scope, one for each id; two different ones under one id raise. */
  function InScopeOnce(cs: seq<ContributionRecord>, root: RootCompletion): Result<seq<ContributionRecord>> {
    if cs == [] then Ok([])
    else
      var before :- InScopeOnce(cs[..|cs| - 1], root);
      var last := cs[|cs| - 1];
      if !InScope(last, root) then Ok(before)
      else match WithId(before, last.contributionId)
        case None => Ok(before + [last])
        case Some(same) => if same == last then Ok(before) else Err(DuplicateContribution)
  }

  lemma {:induction false} ScopeConflictStays(cs: seq<ContributionRecord>, root: RootCompletion, n: nat)
    requires n <= |cs| && InScopeOnce(cs[..n], root).Err?
    ensures InScopeOnce(cs, root) == InScopeOnce(cs[..n], root)
  {
    if n == |cs| {
      assert cs[..n] == cs;
    } else {
      assert cs[..|cs| - 1][..n] == cs[..n];
      ScopeConflictStays(cs[..|cs| - 1], root, n);
    }
  }

  method CollectInScope(cs: seq<ContributionRecord>, root: RootCompletion) returns (r: Result<seq<ContributionRecord>>)
    ensures r == InScopeOnce(cs, root)
  {
    var kept: seq<ContributionRecord> := [];
    for i := 0 to |cs|
      invariant InScopeOnce(cs[..i], root) == Ok(kept)
    {
      assert cs[..i + 1][..i] == cs[..i];
      if InScope(cs[i], root) {
        var same := WithId(kept, cs[i].contributionId);
        if same.None? {
          kept := kept + [cs[i]];
        } else if same.value != cs[i] {
          ScopeConflictStays(cs, root, i + 1);
          return Err(DuplicateContribution);
        }
      }
    }
    assert cs[..|cs|] == cs;
    r := Ok(kept);
  }

  /** The contribution dict: the last record of each id, in order of first appearance. */
  function Put(states: seq<ContributionRecord>, c: ContributionRecord): seq<ContributionRecord> {
    if states == [] then [c]
    else if states[0].contributionId == c.contributionId then [c] + states[1..]
    else [states[0]] + Put(states[1..], c)
  }

  function StatesOf(log: Events): seq<ContributionRecord> {
    if log == [] then []
    else
      var before := StatesOf(log[..|log| - 1]);
      var p := log[|log| - 1].Payload();
      if p.ContributionChanged? then Put(before, p.contribution) else before
  }

  method CollectStates(log: Events) returns (states: seq<ContributionRecord>)
    ensures states == StatesOf(log)
  {
    states := [];
    for i := 0 to |log|
      invariant states == StatesOf(log[..i])
    {
      assert log[..i + 1][..i] == log[..i];
      if log[i].Payload().ContributionChanged? { states := Put(states, log[i].Payload().contribution); }
    }
    assert log[..|log|] == log;
  }

  function ScopeOf(cs: seq<ContributionRecord>, root: RootCompletion): seq<ContributionRecord> {
    if cs == [] then []
    else
      var before := ScopeOf(cs[..|cs| - 1], root);
      var last := cs[|cs| - 1];
      if InScope(last, root) then before + [last] else before
  }

  function Ids(cs: seq<ContributionRecord>): set<string> {
    set c | c in cs :: c.contributionId
  }

  // ---------------------------------------------------------------- the batch

  function EntriesById(a: SettlementEntry, b: SettlementEntry): bool {
    StringLe(a.contributionId, b.contributionId)
  }

  function TotalOf(entries: seq<SettlementEntry>): int {
    Sum(RewardsOf(entries))
  }

  function RecordOf(request: SettleRequest, entries: seq<SettlementEntry>): SettlementRecord {
    SettlementRecord(request.root, request.policyId, request.budget, TotalOf(entries), |entries|,
                     Sort(entries, EntriesById), entries, request.now)
  }

  function SettledDraft(c: ContributionRecord, entry: SettlementEntry, root: RootCompletion, now: string): Draft {
    Draft(ContributionSettledKey(c.contributionId, root),
          ContributionChanged(Some(Eligible), c.(state := Settled, updatedAt := now), Some(entry)), now)
  }

  function SettlementDrafts(request: SettleRequest, cs: seq<ContributionRecord>, entries: seq<SettlementEntry>)
    : (drafts: seq<Draft>)
    requires |entries| == |cs|
    ensures |drafts| == |cs| + 1
  {
    seq(|cs|, i requires 0 <= i < |cs| => SettledDraft(cs[i], entries[i], request.root, request.now))
    + [Draft(SettlementKey(request.root), SettlementRecorded(RecordOf(request, entries)), request.now)]
  }

  // ---------------------------------------------------------------- the validator

  /** The settled event carries the entry of its own contribution. */
  predicate EntryMatches(e: Event, entries: seq<SettlementEntry>) {
    && e.Payload().ContributionChanged? && e.Payload().contribution.state.Settled? && e.Payload().entry.Some?
    && var c, entry := e.Payload().contribution, e.Payload().entry.value;
       && entry in entries && entry.contributionId == c.contributionId && entry.rewardWeight == c.rewardWeight
       && entry.sourceClientId == c.sourceClientId && entry.taskId == c.taskId && entry.unitId == c.unitId
       && entry.kind == c.kind
  }

  function EntryIds(entries: seq<SettlementEntry>): seq<string> {
    seq(|entries|, i requires 0 <= i < |entries| => entries[i].contributionId)
  }

  function SettledIds(batch: Events): set<string> {
    set e | e in batch && e.Payload().ContributionChanged? :: e.Payload().contribution.contributionId
  }

  predicate EntriesAddUp(record: SettlementRecord) {
    && Sort(record.entries, EntriesById) == record.entriesDigest && |record.entries| == record.entryCount
    && TotalOf(record.entries) == record.totalReward && record.totalReward == record.rootBudget
  }

  /** `_validate_existing_settlement_batch`. */
  function ValidateBatch(batch: Events, root: RootCompletion): Result<SettlementRecord> {
    if !IsSettlementBatch(batch) then Err(TornSettlement)
    else
      var settled, record := batch[..|batch| - 1], batch[|batch| - 1].Payload().settlement;
      :- Check(record.root == root, SettlementConflict);
      :- Check(EntriesAddUp(record), SettlementEntriesMismatch);
      :- Check(|record.entries| == |settled| && Distinct(EntryIds(record.entries)),
               SettlementEntriesMismatch);
      :- Check((forall e :: e in settled ==> EntryMatches(e, record.entries))
               && SettledIds(settled) == Elements(EntryIds(record.entries)),
               SettlementEntriesMismatch);
      Ok(record)
  }

  predicate IsMarker(e: Event, root: RootCompletion) {
    e.Payload().SettlementRecorded? && e.Payload().settlement.root == root
  }

  function MarkerTest(root: RootCompletion): Event -> bool {
    (e: Event) => IsMarker(e, root)
  }

  function Markers(log: Events, root: RootCompletion): Events {
    Matching(log, MarkerTest(root))
  }

  /** `_existing_root_settlement`. */
  ghost function ExistingSettlement(log: Events, root: RootCompletion): Result<Option<SettlementRecord>> {
    var id, markers := SettlementBatch(root), Markers(log, root);
    if markers == [] && !HasBatch(log, id) then Ok(None)
    else if |markers| > 1 then Err(SettlementConflict)
    else if markers != [] && !markers[0].InBatch(id) then Err(SettlementConflict)
    else
      var record :- ValidateBatch(BatchOf(log, id), root);
      Ok(Some(record))
  }

  predicate MatchesRequest(record: SettlementRecord, request: SettleRequest, expected: seq<SettlementEntry>) {
    && record.policyId == request.policyId && record.rootBudget == request.budget
    && record.entryCount == |expected| && record.totalReward == TotalOf(expected)
    && record.entriesDigest == Sort(expected, EntriesById) && record.entries == expected
  }

  predicate IsRootCompletion(log: Events, root: RootCompletion) {
    && 1 <= root.completionSeq <= |log|
    && var p := log[root.completionSeq - 1].Payload();
       p.UnitChanged? && p.unit.taskId == root.taskId && p.unit.unitId == root.rootUnitId && p.unit.state.Completed?
       && (p.cause.DecisionAccepted? || p.cause.OutputsResolved?)
  }

  /** The ledger's own eligible contributions, in id order. */
  function RecordedEligible(log: Events, root: RootCompletion): seq<ContributionRecord> {
    Sort(ScopeOf(StatesOf(log), root), ById)
  }

  lemma {:induction false} ScopeMembers(cs: seq<ContributionRecord>, root: RootCompletion)
    ensures forall c :: c in ScopeOf(cs, root) <==> c in cs && InScope(c, root)
  {
    if cs != [] {
      ScopeMembers(cs[..|cs| - 1], root);
      assert cs == cs[..|cs| - 1] + [cs[|cs| - 1]];
    }
  }

  lemma {:induction false} AllSettleable(cs: seq<ContributionRecord>, completionSeq: int)
    requires forall c :: c in cs ==> Settleable(c, completionSeq)
    ensures SettleableOf(cs, completionSeq) == cs
  {
    if cs != [] {
      AllSettleable(cs[..|cs| - 1], completionSeq);
      assert cs == cs[..|cs| - 1] + [cs[|cs| - 1]];
    }
  }

  /** On an id-ordered list of settleable contributions the builder makes one entry for each, in place. */
  lemma {:induction false} BuildsInPlace(cs: seq<ContributionRecord>, completionSeq: int, budget: int)
    requires forall c :: c in cs ==> Settleable(c, completionSeq)
    requires SortedBy(cs, ById) && BuildEntries(cs, completionSeq, budget).Ok?
    ensures cs != [] && budget >= 0 && TotalWeight(cs) > 0
    ensures BuildEntries(cs, completionSeq, budget) == Ok(EntriesFor(cs, budget))
  {
    AllSettleable(cs, completionSeq);
    ByIdIsTotal();
    SortOfSorted(cs, ById);
    WeightIsPositive(cs);
  }

  lemma {:induction false} RecordedEligibleMembers(log: Events, root: RootCompletion)
    ensures SortedBy(RecordedEligible(log, root), ById)
    ensures forall c :: c in RecordedEligible(log, root) <==> c in StatesOf(log) && InScope(c, root)
  {
    var inScope := ScopeOf(StatesOf(log), root);
    ScopeMembers(StatesOf(log), root);
    ByIdIsTotal();
    SortSorts(inScope, ById);
    SortMultiset(inScope, ById);
  }

  lemma {:induction false} RecordedEntries(log: Events, root: RootCompletion, budget: int)
    requires BuildEntries(RecordedEligible(log, root), root.completionSeq, budget).Ok?
    ensures var cs := RecordedEligible(log, root);
      && cs != [] && budget >= 0 && TotalWeight(cs) > 0
      && BuildEntries(cs, root.completionSeq, budget) == Ok(EntriesFor(cs, budget))
  {
    RecordedEligibleMembers(log, root);
    BuildsInPlace(RecordedEligible(log, root), root.completionSeq, budget);
  }

  /** A settlement on record is answered, not repeated, and only when it is the one requested. */
  function SettleAgain(existing: SettlementRecord, request: SettleRequest,
                       supplied: seq<ContributionRecord>): Result<seq<Write>>
  {
    var expected :- BuildEntries(supplied, request.root.completionSeq, request.budget);
    if MatchesRequest(existing, request, expected) then Ok([]) else Err(SettlementConflict)
  }

  /** The first settlement of a root takes its contributions from the ledger, not from the request. */
  ghost function SettleFirst(log: Events, request: SettleRequest, supplied: seq<ContributionRecord>): Result<seq<Write>>
  {
    var root, recorded := request.root, RecordedEligible(log, request.root);
    if !IsRootCompletion(log, root) then Err(CompletionMissing)
    else if recorded == [] then Err(ContributionMissing)
    else if Ids(recorded) != Ids(supplied) then Err(ContributionMismatch)
    else
      var entries :- BuildEntries(recorded, root.completionSeq, request.budget);
      RecordedEntries(log, root, request.budget);
      Ok([Batch(SettlementBatch(root), SettlementDrafts(request, recorded, entries))])
  }

  ghost function SettleWrites(log: Events, request: SettleRequest): Result<seq<Write>> {
    var root := request.root;
    var supplied :- InScopeOnce(request.supplied, root);
    var existing :- ExistingSettlement(log, root);
    if existing.Some? then SettleAgain(existing.value, request, supplied) else SettleFirst(log, request, supplied)
  }

  // ---------------------------------------------------------------- the latest record of each contribution

  ghost predicate IdsOnce(cs: seq<ContributionRecord>) {
    forall i, j :: 0 <= i < j < |cs| ==> cs[i].contributionId != cs[j].contributionId
  }

  lemma {:induction false} PutMembers(states: seq<ContributionRecord>, c: ContributionRecord)
    requires IdsOnce(states)
    ensures forall x :: x in Put(states, c) <==> x == c || (x in states && x.contributionId != c.contributionId)
    ensures IdsOnce(Put(states, c))
  {
    if states != [] {
      assert states == [states[0]] + states[1..];
      PutMembers(states[1..], c);
      var result := Put(states, c);
      assert forall x :: x in states <==> x == states[0] || x in states[1..];
      forall j | 1 <= j < |result| ensures result[j].contributionId != result[0].contributionId {
        assert result[j] in result[1..];
      }
      assert result == [result[0]] + result[1..];
    }
  }

  /** The dict holds exactly the latest snapshot of every contribution. */
  lemma {:induction false} StatesAreLatest(log: Events)
    ensures IdsOnce(StatesOf(log))
    ensures forall c :: c in StatesOf(log) <==> LatestContribution(log, c.contributionId) == Some(c)
  {
    if log != [] {
      var p := log[|log| - 1].Payload();
      StatesAreLatest(log[..|log| - 1]);
      if p.ContributionChanged? { PutMembers(StatesOf(log[..|log| - 1]), p.contribution); }
    }
  }

  // ---------------------------------------------------------------- writer and reader agree

  /** What the engine settles: eligible contributions in id order, one for each id. */
  ghost predicate Settling(cs: seq<ContributionRecord>, budget: int) {
    cs != [] && SortedBy(cs, ById) && IdsOnce(cs) && budget >= 0 && forall c :: c in cs ==> c.state.Eligible?
  }

  ghost function SettlementEvents(base: nat, request: SettleRequest, cs: seq<ContributionRecord>): (batch: Events)
    requires Settling(cs, request.budget)
    ensures |batch| == |cs| + 1
  {
    WeightIsPositive(cs);
    Stamp(base, SettlementBatch(request.root), SettlementDrafts(request, cs, EntriesFor(cs, request.budget)))
  }

  lemma {:induction false} BatchIsSettlement(base: nat, request: SettleRequest, cs: seq<ContributionRecord>)
    requires Settling(cs, request.budget)
    ensures IsSettlementBatch(SettlementEvents(base, request, cs))
  {
    var batch := SettlementEvents(base, request, cs);
    forall k | 0 <= k < |batch| - 1 ensures MovesContribution(batch[k], Eligible, Settled) {}
  }

  lemma {:induction false} EntriesTellApart(cs: seq<ContributionRecord>, budget: nat)
    requires TotalWeight(cs) > 0 && IdsOnce(cs)
    ensures Distinct(EntryIds(EntriesFor(cs, budget)))
  {
  }

  lemma {:induction false} SettledEventMatches(base: nat, request: SettleRequest, cs: seq<ContributionRecord>, k: nat)
    requires Settling(cs, request.budget) && k < |cs|
    ensures TotalWeight(cs) > 0
    ensures EntryMatches(SettlementEvents(base, request, cs)[k], EntriesFor(cs, request.budget))
    ensures SettlementEvents(base, request, cs)[k].Payload().contribution.contributionId == cs[k].contributionId
  {
    WeightIsPositive(cs);
    var entries := EntriesFor(cs, request.budget);
    assert entries[k] in entries;
  }

  lemma {:induction false} SameIds(settled: Events, ids: seq<string>)
    requires |settled| == |ids|
    requires forall k :: 0 <= k < |ids| ==>
      settled[k].Payload().ContributionChanged? && settled[k].Payload().contribution.contributionId == ids[k]
    ensures SettledIds(settled) == Elements(ids)
  {
    forall id | id in Elements(ids) ensures id in SettledIds(settled) {
      var k :| 0 <= k < |ids| && ids[k] == id;
      assert settled[k] in settled;
    }
  }

  lemma {:induction false} SettledIdsMatch(base: nat, request: SettleRequest, cs: seq<ContributionRecord>)
    requires Settling(cs, request.budget)
    ensures TotalWeight(cs) > 0
    ensures SettledIds(SettlementEvents(base, request, cs)[..|cs|])
      == Elements(EntryIds(EntriesFor(cs, request.budget)))
  {
    WeightIsPositive(cs);
    forall k | 0 <= k < |cs|
      ensures SettlementEvents(base, request, cs)[k].Payload().ContributionChanged?
      ensures SettlementEvents(base, request, cs)[k].Payload().contribution.contributionId == cs[k].contributionId
    {
      SettledEventMatches(base, request, cs, k);
    }
    SameIds(SettlementEvents(base, request, cs)[..|cs|], EntryIds(EntriesFor(cs, request.budget)));
  }

  lemma {:induction false} EntriesOfRecordAddUp(request: SettleRequest, cs: seq<ContributionRecord>)
    requires Settling(cs, request.budget)
    ensures TotalWeight(cs) > 0 && EntriesAddUp(RecordOf(request, EntriesFor(cs, request.budget)))
  {
    RewardsSumToBudget(cs, request.budget);
  }

  /** Every batch the engine writes passes the validator that reads settlements back. */
  lemma {:induction false} WriterPassesReader(base: nat, request: SettleRequest, cs: seq<ContributionRecord>)
    requires Settling(cs, request.budget)
    ensures TotalWeight(cs) > 0
    ensures ValidateBatch(SettlementEvents(base, request, cs), request.root)
      == Ok(RecordOf(request, EntriesFor(cs, request.budget)))
  {
    var batch := SettlementEvents(base, request, cs);
    BatchIsSettlement(base, request, cs);
    EntriesOfRecordAddUp(request, cs);
    EntriesTellApart(cs, request.budget);
    SettledIdsMatch(base, request, cs);
    forall e | e in batch[..|cs|] ensures EntryMatches(e, EntriesFor(cs, request.budget)) {
      var k :| 0 <= k < |cs| && batch[k] == e;
      SettledEventMatches(base, request, cs, k);
    }
  }

  /** The settlement recogniser accepts the batch in any order and rejects every torn part of it. */
  lemma {:induction false} TornSettlementIsSeen(events: Events, base: nat, request: SettleRequest,
                                                cs: seq<ContributionRecord>)
    requires Settling(cs, request.budget)
    requires EventsOf(events, SettlementBatch(request.root)) != []
    requires PieceOf(EventsOf(events, SettlementBatch(request.root)), SettlementEvents(base, request, cs))
    ensures SettlementBatchComplete(events, SettlementBatch(request.root))
      <==> AllOf(EventsOf(events, SettlementBatch(request.root)), SettlementEvents(base, request, cs))
  {
    WeightIsPositive(cs);
    BatchIsSettlement(base, request, cs);
    OnlyWholeIsNumbered(EventsOf(events, SettlementBatch(request.root)), base, SettlementBatch(request.root),
                        SettlementDrafts(request, cs, EntriesFor(cs, request.budget)));
  }

  // ---------------------------------------------------------------- repeating a settlement

  /** Settlement markers carry the settlement key of their root. */
  ghost predicate MarkersKeyed(log: Events) {
    forall i :: 0 <= i < |log| && log[i].Payload().SettlementRecorded? ==>
      log[i].Key() == SettlementKey(log[i].Payload().settlement.root)
  }

  /** A list of in-scope contributions without repeated ids passes the request filter unchanged. */
  lemma {:induction false} ScopedOnce(cs: seq<ContributionRecord>, root: RootCompletion)
    requires IdsOnce(cs) && forall c :: c in cs ==> InScope(c, root)
    ensures InScopeOnce(cs, root) == Ok(cs)
  {
    if cs != [] {
      var n := |cs| - 1;
      assert cs == cs[..n] + [cs[n]];
      ScopedOnce(cs[..n], root);
      WithIdFinds(cs[..n], cs[n].contributionId);
    }
  }

  lemma {:induction false} PermutedIdsOnce(cs: seq<ContributionRecord>, ds: seq<ContributionRecord>)
    requires IdsOnce(cs) && multiset(ds) == multiset(cs)
    ensures IdsOnce(ds) && forall c :: c in ds <==> c in cs
  {
    forall c ensures c in ds <==> c in cs { assert c in multiset(ds) <==> c in multiset(cs); }
    forall i, j | 0 <= i < j < |ds| ensures ds[i].contributionId != ds[j].contributionId {
      assert ds[i] in cs && ds[j] in cs;
      if ds[i] == ds[j] {
        Repeated(ds, i, j);
        OnceEach(cs, ds[i]);
      }
    }
  }

  lemma {:induction false} Repeated(ds: seq<ContributionRecord>, i: nat, j: nat)
    requires i < j < |ds| && ds[i] == ds[j]
    ensures multiset(ds)[ds[i]] >= 2
  {
    assert ds == ds[..j] + [ds[j]] + ds[j + 1..];
    assert ds[..j][i] == ds[i];
    assert ds[i] in multiset(ds[..j]);
  }

  lemma {:induction false} OnceEach(cs: seq<ContributionRecord>, c: ContributionRecord)
    requires IdsOnce(cs)
    ensures multiset(cs)[c] <= 1
  {
    if cs != [] {
      assert cs == [cs[0]] + cs[1..];
      OnceEach(cs[1..], c);
      if c == cs[0] { assert c !in multiset(cs[1..]); }
    }
  }

  /** The request that settled `cs` on `log`, and the ledger right after it. */
  ghost predicate SettledBy(log: Events, request: SettleRequest, cs: seq<ContributionRecord>, next: Events) {
    && Settling(cs, request.budget) && !HasBatch(log, SettlementBatch(request.root))
    && (forall c :: c in cs ==> InScope(c, request.root)) && request.root.completionSeq > 0
    && next == log + SettlementEvents(|log|, request, cs)
  }

  lemma {:induction false} OnlyMarker(log: Events, root: RootCompletion, i: nat)
    requires KeysUnique(log) && MarkersKeyed(log) && i < |log| && IsMarker(log[i], root)
    ensures Markers(log, root) == [log[i]]
  {
    OnlyMatch(log, MarkerTest(root), SettlementKey(root), i);
  }

  lemma {:induction false} FoundByMarker(log: Events, root: RootCompletion, marker: Event, record: SettlementRecord)
    requires Markers(log, root) == [marker] && marker.InBatch(SettlementBatch(root))
    requires ValidateBatch(BatchOf(log, SettlementBatch(root)), root) == Ok(record)
    ensures ExistingSettlement(log, root) == Ok(Some(record))
  {
  }

  lemma {:induction false} LastIsMarker(base: nat, request: SettleRequest, cs: seq<ContributionRecord>)
    requires Settling(cs, request.budget)
    ensures IsMarker(SettlementEvents(base, request, cs)[|cs|], request.root)
    ensures SettlementEvents(base, request, cs)[|cs|].InBatch(SettlementBatch(request.root))
  {
  }

  /** The recorded settlement is found again in every later ledger. */
  lemma {:induction false} SettlementIsFound(log: Events, request: SettleRequest, cs: seq<ContributionRecord>,
                                             next: Events, later: Events)
    requires SettledBy(log, request, cs, next) && next <= later && WellFormed(later) && MarkersKeyed(later)
    ensures TotalWeight(cs) > 0
    ensures ExistingSettlement(later, request.root) == Ok(Some(RecordOf(request, EntriesFor(cs, request.budget))))
  {
    WeightIsPositive(cs);
    BatchStaysReadable(log, SettlementBatch(request.root),
                       SettlementDrafts(request, cs, EntriesFor(cs, request.budget)), later);
    WriterPassesReader(|log|, request, cs);
    LastIsMarker(|log|, request, cs);
    assert later[|log| + |cs|] == SettlementEvents(|log|, request, cs)[|cs|];
    OnlyMarker(later, request.root, |log| + |cs|);
    FoundByMarker(later, request.root, later[|log| + |cs|], RecordOf(request, EntriesFor(cs, request.budget)));
  }

  /**
   * Asking again for the same root, policy and budget with the same eligible snapshots, in any order and
   * at any later time, succeeds and appends nothing.
   */
  lemma {:induction false} SettlementReplays(log: Events, request: SettleRequest, cs: seq<ContributionRecord>,
                                             next: Events,
                          later: Events, again: SettleRequest)
    requires SettledBy(log, request, cs, next) && next <= later && WellFormed(later) && MarkersKeyed(later)
    requires again.root == request.root && again.policyId == request.policyId && again.budget == request.budget
    requires multiset(again.supplied) == multiset(cs)
    ensures SettleWrites(later, again) == Ok([])
  {
    SettlementIsFound(log, request, cs, next, later);
    PermutedIdsOnce(cs, again.supplied);
    ScopedOnce(again.supplied, request.root);
    EntriesIgnoreOrder(again.supplied, cs, request.root.completionSeq, request.budget);
    BuildsAgain(cs, request.root.completionSeq, request.budget);
  }

  lemma {:induction false} BuildsAgain(cs: seq<ContributionRecord>, completionSeq: int, budget: int)
    requires Settling(cs, budget) && completionSeq > 0 && forall c :: c in cs ==> Settleable(c, completionSeq)
    ensures TotalWeight(cs) > 0 && BuildEntries(cs, completionSeq, budget) == Ok(EntriesFor(cs, budget))
  {
    AllSettleable(cs, completionSeq);
    ByIdIsTotal();
    SortOfSorted(cs, ById);
    WeightIsPositive(cs);
  }

  /** What a fresh settlement settles is exactly what the ledger holds as eligible, each contribution once. */
  lemma {:induction false} RecordedIsSettling(log: Events, root: RootCompletion, budget: int)
    requires BuildEntries(RecordedEligible(log, root), root.completionSeq, budget).Ok?
    ensures Settling(RecordedEligible(log, root), budget)
    ensures forall c :: c in RecordedEligible(log, root) <==>
      LatestContribution(log, c.contributionId) == Some(c) && InScope(c, root)
  {
    RecordedEntries(log, root, budget);
    RecordedEligibleMembers(log, root);
    StatesAreLatest(log);
    ScopeKeepsOnce(StatesOf(log), root);
    SortMultiset(ScopeOf(StatesOf(log), root), ById);
    PermutedIdsOnce(ScopeOf(StatesOf(log), root), RecordedEligible(log, root));
  }

  lemma {:induction false} ScopeKeepsOnce(cs: seq<ContributionRecord>, root: RootCompletion)
    requires IdsOnce(cs)
    ensures IdsOnce(ScopeOf(cs, root))
  {
    if cs != [] {
      var n := |cs| - 1;
      ScopeKeepsOnce(cs[..n], root);
      ScopeMembers(cs[..n], root);
      forall x | x in ScopeOf(cs[..n], root) ensures x.contributionId != cs[n].contributionId {
        assert x in cs[..n];
      }
    }
  }
}
