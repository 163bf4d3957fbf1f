/**
 * The run of `Scenario` goes on: the merge unit is paid, and the parent's completion, given a contribution the ledger
 * never recorded, reopens what is settled (src/tokenshare/protocol_engine.py:1170-1236, 3671-3708).
 */
module DoublePayment {
  import opened Basics
  import opened Objects
  import Order
  import opened Ledger
  import opened Batches
  import opened Lifecycles
  import opened Verification
  import opened Merging
  import opened Completions
  import opened Contributions
  import opened Settlement
  import opened RootSettlement
  import opened Steps
  import opened Runs
  import opened Payments
  import opened Scenario

  // ---------------------------------------------------------------- completing the merge unit

  const DECISION := "d"

  function MergeUnitIn(state: TaskState): TaskUnit { MergeUnitOf(Plan(), 0, Artifact(), NOW).(state := state) }

  function CompleteRequested(): CompleteRequest {
    CompleteRequest(ExpansionDecision(DECISION, TASK, MergeUnit(), SelectionId(TASK, MergeUnit()), Outputs(), DECISION,
                                      Complete, NOW), MergeUnitIn(TaskState.Processing), true)
  }

  function CompletePair(): (Draft, Draft) {
    (DecisionDraft(CompleteRequested().decision),
     UnitDraft(TaskState.Processing, MergeUnitIn(TaskState.Completed), DecisionAccepted(DECISION),
               ByDecision(DECISION), NOW))
  }

  /** The two units bound before the merge unit have other selection ids. */
  lemma {:induction false} OtherSelections(log: Events, j: nat)
    requires Placed(log, 9) && KeysFit(log) && BoundAt(log, PARENT, 2) && BoundAt(log, Child(), 12)
    requires j < 18 && log[j].Payload().CanonicalBound?
    ensures log[j].Payload().selection.selectionId != SelectionId(TASK, MergeUnit())
  {
    assert KeyFits(log[j].draft) && PlacedAt(log[j], j);
    assert j == 2 || j == 12;
    NamesDiffer();
  }

  lemma {:induction false} MergeUnitIsSelected(log: Events)
    requires Placed(log, 9) && KeysFit(log)
    requires BoundAt(log, PARENT, 2) && BoundAt(log, Child(), 12) && BoundAt(log, MergeUnit(), 18)
    ensures DecisionSelection(log, CompleteRequested().decision) == Ok(Selection(MergeUnit(), 17))
  {
    forall j | 0 <= j < 18 && log[j].Payload().CanonicalBound?
      ensures log[j].Payload().selection.selectionId != SelectionId(TASK, MergeUnit())
    {
      OtherSelections(log, j);
    }
    FirstSelection(log, SelectionId(TASK, MergeUnit()), 18);
  }

  lemma {:induction false} CompleteIsWritten(log: Events)
    requires DecisionSelection(log, CompleteRequested().decision) == Ok(Selection(MergeUnit(), 17))
    ensures CompleteWrites(log, CompleteRequested())
      == Ok([Batch(CompletionBatch(DECISION), [CompletePair().0, CompletePair().1])])
  {
    assert MergeUnitIn(TaskState.Processing).(state := TaskState.Completed, updatedAt := NOW)
      == MergeUnitIn(TaskState.Completed);
  }

  ghost predicate Completed(log: Events) {
    |log| > 23 && log[23].Payload() == UnitChanged(TaskState.Processing, MergeUnitIn(TaskState.Completed),
                                                   DecisionAccepted(DECISION))
  }

  lemma {:induction false} CompleteIsPlaced(log: Events, d: Draft, e: Draft)
    requires Placed(log, 9) && (d, e) == CompletePair()
    ensures Commit(log, [Batch(CompletionBatch(DECISION), [d, e])])
      == log + Stamp(22, CompletionBatch(DECISION), [d, e])
    ensures Placed(log + Stamp(22, CompletionBatch(DECISION), [d, e]), 10)
    ensures Completed(log + Stamp(22, CompletionBatch(DECISION), [d, e]))
  {
    BatchIsPlaced(log, 9, CompletionBatch(DECISION), [d, e]);
  }

  lemma {:induction false} IsCompleted(log: Events)
    requires Placed(log, 9) && KeysFit(log)
    requires BoundAt(log, PARENT, 2) && BoundAt(log, Child(), 12) && BoundAt(log, MergeUnit(), 18)
    ensures var next := After(log, CompleteWrites(log, CompleteRequested()));
      log <= next && Placed(next, 10) && Completed(next)
  {
    MergeUnitIsSelected(log);
    CompleteIsWritten(log);
    CompleteIsPlaced(log, CompletePair().0, CompletePair().1);
  }

  // ---------------------------------------------------------------- the contribution of the merge unit

  function ContributionName(): string {
    ContributionId(MergeCanonical, TASK, MergeUnit(), SelectionId(TASK, MergeUnit()))
  }

  /** What the coordinator credits for the resolution. */
  function Earned(): ContributionRecord {
    ContributionRecord(ContributionName(), TASK, MergeUnit(), MergeCanonical, Eligible, MergeUnit(), "c",
                       SelectionId(TASK, MergeUnit()), 19, MergeUnit(), 17, None, Some(RECORD), 21, 1, NOW, NOW)
  }

  function Source(): BatchInput { BatchInput(MergeResolutionBatch(RECORD), ResolveBatch(), true) }

  lemma {:induction false} LastClient(log: Events, attemptId: string, i: nat)
    requires i < |log| && log[i].Payload().AttemptChanged? && log[i].Payload().attempt.attemptId == attemptId
    requires log[i].Payload().attempt.clientId == "c"
    requires forall j :: i < j < |log| ==> !log[j].Payload().AttemptChanged?
    ensures SourceClient(log, attemptId) == Some("c")
  {
    if i < |log| - 1 { LastClient(log[..|log| - 1], attemptId, i); }
  }

  lemma {:induction false} MergeClient(log: Events)
    requires Placed(log, 10) && KeysFit(log) && BoundAt(log, MergeUnit(), 18)
    ensures SourceClient(log, MergeUnit()) == Some("c")
  {
    forall j | 19 < j < |log| ensures !log[j].Payload().AttemptChanged? {
      assert KeyFits(log[j].draft) && PlacedAt(log[j], j);
    }
    LastClient(log, MergeUnit(), 19);
  }

  lemma {:induction false} CreditIsWritten(log: Events)
    requires SourceClient(log, MergeUnit()) == Some("c")
    ensures CreateWrites(log, MergeCanonical, TASK, Source(), NOW) == Ok([One(CreationDraft(Earned(), NOW))])
  {
    assert IsMergeSource(Source());
    assert |MergeUnit()| > 0 && |SelectionId(TASK, MergeUnit())| > 0;
    assert FromMerge(TASK, ResolveBatch()[0], log) == Ok(Earned());
  }

  /** What the ledger says about the contribution and the money. */
  ghost predicate Books(log: Events, c: ContributionRecord, history: seq<ContributionState>, paid: int) {
    StatesOf(log) == [c] && History(log, ContributionName()) == history && Paid(log) == paid
  }

  lemma {:induction false} NoCredits(log: Events, id: string)
    requires forall i :: 0 <= i < |log| ==> !log[i].Payload().ContributionChanged?
    ensures StatesOf(log) == [] && History(log, id) == [] && Paid(log) == 0
  {
    if log != [] { NoCredits(log[..|log| - 1], id); }
  }

  lemma {:induction false} FirstCredit(log: Events, e: Event)
    requires forall i :: 0 <= i < |log| ==> !log[i].Payload().ContributionChanged?
    requires e.Payload() == ContributionChanged(None, Earned(), None)
    ensures Books(log + [e], Earned(), [Eligible], 0)
  {
    NoCredits(log, ContributionName());
    HistoryEffect(log, e, ContributionName());
    MoneyEffect(log, e);
    assert (log + [e])[..|log|] == log;
  }

  /** No unit but the merge unit has been paid. */
  ghost predicate OnlyMergePaid(log: Events) {
    forall i :: 0 <= i < |log| && log[i].Payload().ContributionChanged? && log[i].Payload().contribution.state.Settled?
      ==> log[i].Payload().contribution.unitId == MergeUnit()
  }

  lemma {:induction false} CreditIsPlaced(log: Events, d: Draft)
    requires Placed(log, 10) && KeysFit(log) && d == CreationDraft(Earned(), NOW)
    ensures Commit(log, [One(d)]) == log + [Event(25, d, None)] && Placed(log + [Event(25, d, None)], 11)
    ensures Books(log + [Event(25, d, None)], Earned(), [Eligible], 0) && OnlyMergePaid(log + [Event(25, d, None)])
  {
    OneIsPlaced(log, 10, d);
    forall i | 0 <= i < |log| ensures !log[i].Payload().ContributionChanged? {
      assert KeyFits(log[i].draft) && PlacedAt(log[i], i);
    }
    FirstCredit(log, Event(25, d, None));
  }

  lemma {:induction false} IsCredited(log: Events)
    requires Placed(log, 10) && KeysFit(log) && BoundAt(log, MergeUnit(), 18)
    ensures var next := After(log, CreateWrites(log, MergeCanonical, TASK, Source(), NOW));
      log <= next && Placed(next, 11) && Books(next, Earned(), [Eligible], 0) && OnlyMergePaid(next)
  {
    MergeClient(log);
    CreditIsWritten(log);
    CreditIsPlaced(log, CreationDraft(Earned(), NOW));
  }

  // ---------------------------------------------------------------- settling one contribution

  function SettleOne(root: RootCompletion, c: ContributionRecord): SettleRequest {
    SettleRequest(root, [c], 7, "b", NOW)
  }

  /** The root's completion is on record, its settlement is not, and this contribution is all there is to settle. */
  ghost predicate Due(log: Events, root: RootCompletion, c: ContributionRecord) {
    && IsRootCompletion(log, root) && InScope(c, root) && StatesOf(log) == [c]
    && !HasBatch(log, SettlementBatch(root)) && forall i :: 0 <= i < |log| ==> !IsMarker(log[i], root)
  }

  lemma {:induction false} NotYetSettled(log: Events, k: nat, root: RootCompletion)
    requires Placed(log, k) && KeysFit(log) && SettleRank(root) == k
    ensures !HasBatch(log, SettlementBatch(root)) && forall i :: 0 <= i < |log| ==> !IsMarker(log[i], root)
  {
    NewBatch(log, k, SettlementBatch(root));
    NewKey(log, k, SettlementKey(root));
    forall i | 0 <= i < |log| ensures !IsMarker(log[i], root) { assert KeyFits(log[i].draft); }
  }

  lemma {:induction false} OneIsSettling(root: RootCompletion, c: ContributionRecord)
    requires InScope(c, root)
    ensures Settling([c], 7) && InScopeOnce([c], root) == Ok([c])
    ensures ScopeOf([c], root) == [c] && Order.Sort([c], Contributions.ById) == [c]
  {
    var cs := [c];
    assert cs[..|cs| - 1] == [] && cs[1..] == [];
    ScopedOnce(cs, root);
    assert ScopeOf(cs[..|cs| - 1], root) == [];
  }

  lemma {:induction false} SettleIsWritten(log: Events, root: RootCompletion, c: ContributionRecord)
    requires Due(log, root, c)
    ensures Settling([c], 7) && TotalWeight([c]) > 0
    ensures SettleWrites(log, SettleOne(root, c))
      == Ok([Batch(SettlementBatch(root), SettlementDrafts(SettleOne(root, c), [c], EntriesFor([c], 7)))])
  {
    OneIsSettling(root, c);
    WeightIsPositive([c]);
    NothingMatches(log, MarkerTest(root));
    assert RecordedEligible(log, root) == [c];
    BuildsAgain([c], root.completionSeq, 7);
  }

  lemma {:induction false} SettlePair(root: RootCompletion, c: ContributionRecord) returns (d: Draft, e: Draft)
    requires TotalWeight([c]) > 0
    ensures SettlementDrafts(SettleOne(root, c), [c], EntriesFor([c], 7)) == [d, e]
    ensures d.key == ContributionSettledKey(c.contributionId, root) && e.key == SettlementKey(root)
    ensures e.payload.SettlementRecorded? && d.payload.ContributionChanged? && d.payload.contribution.unitId == c.unitId
  {
    var drafts := SettlementDrafts(SettleOne(root, c), [c], EntriesFor([c], 7));
    d, e := drafts[0], drafts[1];
  }

  ghost predicate SettledAlone(log: Events, root: RootCompletion, c: ContributionRecord, next: Events) {
    Settling([c], 7) && next == log + SettlementEvents(|log|, SettleOne(root, c), [c])
  }

  lemma {:induction false} SettlesOne(log: Events, k: nat, root: RootCompletion, c: ContributionRecord)
    requires Due(log, root, c) && Placed(log, k) && SettleRank(root) == k && Written(k + 1) == Written(k) + 2
    ensures var next := After(log, SettleWrites(log, SettleOne(root, c)));
      SettledAlone(log, root, c, next) && log <= next && Placed(next, k + 1)
  {
    SettleIsWritten(log, root, c);
    var d, e := SettlePair(root, c);
    SettledIsPlaced(log, k, root, c.contributionId, d, e);
  }

  lemma {:induction false} SettledIsPlaced(log: Events, k: nat, root: RootCompletion, id: string, d: Draft, e: Draft)
    requires Placed(log, k) && SettleRank(root) == k && Written(k + 1) == Written(k) + 2
    requires d.key == ContributionSettledKey(id, root) && e.key == SettlementKey(root)
    ensures var next := log + Stamp(|log|, SettlementBatch(root), [d, e]);
      Commit(log, [Batch(SettlementBatch(root), [d, e])]) == next && Placed(next, k + 1)
  {
    BatchIsPlaced(log, k, SettlementBatch(root), [d, e]);
  }

  lemma {:induction false} SettlingPays(log: Events, root: RootCompletion, c: ContributionRecord, next: Events)
    requires SettledAlone(log, root, c, next) && StatesOf(log) == [c]
    ensures Paid(next) == Paid(log) + 7 && History(next, c.contributionId) == History(log, c.contributionId) + [Settled]
  {
    StatesAreLatest(log);
    assert c in StatesOf(log);
    SettlementBalances(log, SettleOne(root, c), [c]);
    SettlementHistory(log, SettleOne(root, c), [c], c.contributionId);
    assert c in [c];
  }

  lemma {:induction false} OnePut(log: Events, e: Event, was: ContributionRecord)
    requires StatesOf(log) == [was]
    ensures var p := e.Payload();
      StatesOf(log + [e]) ==
        if p.ContributionChanged? && p.contribution.contributionId == was.contributionId then [p.contribution]
        else if p.ContributionChanged? then [was, p.contribution] else [was]
  {
    assert (log + [e])[..|log|] == log;
    var p, states := e.Payload(), [was];
    if p.ContributionChanged? {
      assert Put(states[1..], p.contribution) == [p.contribution];
      assert StatesOf(log + [e]) == Put(states, p.contribution);
    }
  }

  lemma {:induction false} SettledStates(log: Events, root: RootCompletion, c: ContributionRecord, next: Events)
    requires SettledAlone(log, root, c, next) && StatesOf(log) == [c] && c.updatedAt == NOW
    ensures StatesOf(next) == [c.(state := Settled)]
  {
    WeightIsPositive([c]);
    var more := SettlementEvents(|log|, SettleOne(root, c), [c]);
    OnePut(log, more[0], c);
    OnePut(log + [more[0]], more[1], c.(state := Settled));
    assert log + more == log + [more[0]] + [more[1]];
  }

  // ---------------------------------------------------------------- the first settlement

  function FirstRoot(): RootCompletion { RootCompletion(TASK, MergeUnit(), 24) }

  lemma {:induction false} FirstIsDue(log: Events)
    requires Placed(log, 11) && KeysFit(log) && Completed(log) && StatesOf(log) == [Earned()]
    ensures Due(log, FirstRoot(), Earned())
  {
    NotYetSettled(log, 11, FirstRoot());
  }

  lemma {:induction false} PaysOnlyMerge(log: Events, root: RootCompletion, c: ContributionRecord, next: Events)
    requires OnlyMergePaid(log) && SettledAlone(log, root, c, next) && c.unitId == MergeUnit()
    ensures OnlyMergePaid(next)
  {
    WeightIsPositive([c]);
    var d, e := SettlePair(root, c);
    assert next == log + Stamp(|log|, SettlementBatch(root), [d, e]);
    forall i | 0 <= i < |next| && next[i].Payload().ContributionChanged?
      && next[i].Payload().contribution.state.Settled?
      ensures next[i].Payload().contribution.unitId == MergeUnit()
    {
      if i < |log| { assert next[i] == log[i]; }
    }
  }

  lemma {:induction false} IsPaid(log: Events)
    requires Placed(log, 11) && KeysFit(log) && Completed(log) && Books(log, Earned(), [Eligible], 0)
    requires OnlyMergePaid(log)
    ensures var next := After(log, SettleWrites(log, SettleOne(FirstRoot(), Earned())));
      && log <= next && Placed(next, 12) && OnlyMergePaid(next)
      && Books(next, Earned().(state := Settled), [Eligible, Settled], 7)
  {
    FirstIsDue(log);
    SettlesOne(log, 11, FirstRoot(), Earned());
    var next := After(log, SettleWrites(log, SettleOne(FirstRoot(), Earned())));
    PaysOnlyMerge(log, FirstRoot(), Earned(), next);
    SettlingPays(log, FirstRoot(), Earned(), next);
    SettledStates(log, FirstRoot(), Earned(), next);
  }

  // ---------------------------------------------------------------- completing the parent reopens the contribution

  /** Not a snapshot of the ledger: the contribution's id on another unit, kind and state. */
  function Forged(): ContributionRecord {
    Earned().(unitId := PARENT, kind := ExpandCanonical, state := Pending, sourceDecisionId := Some(EXPANSION),
              mergeRecordId := None)
  }

  function ResolvedOutputs(): seq<ResolvedOutput> { [ResolvedOutput(EXPECTED, OUTPUT, "h")] }

  function CompletionRequested(): CompletionRequest {
    CompletionRequest(Parent(), [ExpectedOutputRef(EXPECTED, TASK, PARENT, OUTPUT, EXPANSION)], [Resolution()],
                      [Forged()], NOW)
  }

  function ParentDone(): TaskUnit { Parent().(state := TaskState.Completed) }

  function ReopenPair(): (Draft, Draft) {
    (Draft(UnitStateKey(PARENT, TaskState.Processing, TaskState.Completed, ByParentCompletion(ResolvedOutputs())),
           UnitChanged(TaskState.Processing, ParentDone(), OutputsResolved(ResolvedOutputs())), NOW),
     EligibleDraft(Forged().(state := Eligible), ResolvedOutputs(), NOW))
  }

  function ReopenId(): BatchId { ParentCompletionBatch(PARENT, ResolvedOutputs()) }

  lemma {:induction false} OnlyResolutions(log: Events)
    requires Placed(log, 12) && KeysFit(log) && Resolved(log)
    ensures forall i :: 0 <= i < |log| && i != 20 && i != 21 ==> !log[i].InBatch(MergeResolutionBatch(RECORD))
    ensures forall i :: 0 <= i < |log| && i != 21 ==> !log[i].Payload().OutputResolved?
  {
    forall i | 0 <= i < |log|
      ensures i != 20 && i != 21 ==> !log[i].InBatch(MergeResolutionBatch(RECORD))
      ensures i != 21 ==> !log[i].Payload().OutputResolved?
    {
      assert KeyFits(log[i].draft) && PlacedAt(log[i], i);
    }
  }

  /** The ledger reads the resolution batch back as it was written. */
  lemma {:induction false} ResolutionIsRead(log: Events)
    requires Resolved(log)
    requires forall i :: 0 <= i < |log| && i != 20 && i != 21 ==> !log[i].InBatch(MergeResolutionBatch(RECORD))
    ensures MergeBatchComplete(log, MergeResolutionBatch(RECORD), RECORD)
  {
    var id, drafts := MergeResolutionBatch(RECORD), [ResolvePair().0, ResolvePair().1];
    var front, rest := log[..20], log[22..];
    NoBatchNoEvents(front, id);
    NoBatchNoEvents(rest, id);
    assert Stamp(20, id, drafts) == ResolveBatch();
    assert log == front + ResolveBatch() + rest;
    EventsOfAppend(front + ResolveBatch(), rest, id);
    AppendedBatchIsRead(front, id, drafts);
    assert EventsOf(log, id) == EventsOf(front + ResolveBatch(), id);
    assert BatchOf(log, id) == ResolveBatch();
  }

  lemma {:induction false} OnlyOneCounts(log: Events, n: nat)
    requires n <= |log| && 21 < |log| && log[21].Payload() == OutputResolved(Resolution()) && Counts(log, log[21])
    requires forall i :: 0 <= i < |log| && i != 21 ==> !log[i].Payload().OutputResolved?
    ensures RecordedUpTo(log, n) == Ok(if n > 21 then map[EXPECTED := Resolution()] else map[])
  {
    if n > 0 { OnlyOneCounts(log, n - 1); }
  }

  lemma {:induction false} ResolutionIsRecorded(log: Events)
    requires Placed(log, 12) && KeysFit(log) && Resolved(log)
    ensures RecordedUpTo(log, |log|) == Ok(map[EXPECTED := Resolution()])
  {
    OnlyResolutions(log);
    ResolutionIsRead(log);
    assert ResolveBatch()[1].Payload() == OutputResolved(Resolution());
    OnlyOneCounts(log, |log|);
  }

  lemma {:induction false} ResolvesAll()
    ensures ResolvedSet([Resolution()]) == ResolvedOutputs()
    ensures FullyResolved(CompletionRequested().owner, CompletionRequested().refs, [Resolution()],
                          map[EXPECTED := Resolution()])
  {
    var rs, refs := [Resolution()], CompletionRequested().refs;
    assert seq(|rs|, i requires 0 <= i < |rs| => Completions.EntryOf(rs[i])) == ResolvedOutputs();
    SortedSingle(ResolvedOutputs(), ByOutputId);
    assert RefIds(refs) == [EXPECTED] && ResolutionIds(rs) == [EXPECTED];
  }

  lemma {:induction false} ForgedMayBecomeEligible()
    ensures EligibleContributions(CompletionRequested().owner, CompletionRequested().refs, [Forged()], NOW)
      == Ok([Forged().(state := Eligible)])
  {
    var refs := CompletionRequested().refs;
    SortedSingle([Forged()], Contributions.ById);
    assert refs[0] in refs && EXPANSION in DecisionIds(refs);
    assert EligibleOnes([Forged()], NOW) == [Forged().(state := Eligible)];
  }

  lemma {:induction false} NotYetCompleted(log: Events)
    requires Placed(log, 12)
    ensures !CompletionConflicts(log, PARENT, ResolvedOutputs())
  {
    forall e | e in log ensures !BlocksCompletion(log, e, PARENT, ResolvedOutputs()) {
      var i :| 0 <= i < |log| && log[i] == e;
      assert PlacedAt(log[i], i);
    }
  }

  lemma {:induction false} ReopenIsWritten(log: Events)
    requires Placed(log, 12) && KeysFit(log) && Resolved(log)
    ensures CompletionWrites(log, CompletionRequested()) == Ok([Batch(ReopenId(), [ReopenPair().0, ReopenPair().1])])
  {
    NotYetCompleted(log);
    ResolutionIsRecorded(log);
    ResolvesAll();
    ForgedMayBecomeEligible();
    assert TransitionUnit(Parent(), TaskState.Completed, NOW) == Ok(ParentDone());
    assert CompletionDrafts(ParentDone(), [Forged().(state := Eligible)], ResolvedOutputs(), NOW)
      == [ReopenPair().0, ReopenPair().1];
  }

  ghost predicate ParentCompleted(log: Events) {
    |log| > 27 && log[27].Payload() == UnitChanged(TaskState.Processing, ParentDone(),
                                                   OutputsResolved(ResolvedOutputs()))
  }

  /** The settled contribution is eligible again. */
  lemma {:induction false} ReopenBooks(log: Events, d: Event, e: Event)
    requires Books(log, Earned().(state := Settled), [Eligible, Settled], 7)
    requires d.draft == ReopenPair().0 && e.draft == ReopenPair().1
    ensures Books(log + [d, e], Forged().(state := Eligible), [Eligible, Settled, Eligible], 7)
  {
    OnePut(log, d, Earned().(state := Settled));
    OnePut(log + [d], e, Earned().(state := Settled));
    HistoryEffect(log, d, ContributionName());
    HistoryEffect(log + [d], e, ContributionName());
    MoneyEffect(log, d);
    MoneyEffect(log + [d], e);
    assert log + [d, e] == log + [d] + [e];
  }

  lemma {:induction false} ReopenIsPlaced(log: Events, d: Draft, e: Draft)
    requires Placed(log, 12) && (d, e) == ReopenPair()
    ensures Commit(log, [Batch(ReopenId(), [d, e])])
      == log + [Event(28, d, Some(BatchTag(ReopenId(), 1, 2))), Event(29, e, Some(BatchTag(ReopenId(), 2, 2)))]
    ensures Placed(Commit(log, [Batch(ReopenId(), [d, e])]), 13)
    ensures ParentCompleted(Commit(log, [Batch(ReopenId(), [d, e])]))
  {
    NamesDiffer();
    BatchIsPlaced(log, 12, ReopenId(), [d, e]);
    assert Stamp(27, ReopenId(), [d, e])
      == [Event(28, d, Some(BatchTag(ReopenId(), 1, 2))), Event(29, e, Some(BatchTag(ReopenId(), 2, 2)))];
  }

  lemma {:induction false} IsReopened(log: Events)
    requires Placed(log, 12) && KeysFit(log) && Resolved(log) && OnlyMergePaid(log)
    requires Books(log, Earned().(state := Settled), [Eligible, Settled], 7)
    ensures var next := After(log, CompletionWrites(log, CompletionRequested()));
      && log <= next && Placed(next, 13) && ParentCompleted(next) && OnlyMergePaid(next)
      && Books(next, Forged().(state := Eligible), [Eligible, Settled, Eligible], 7)
  {
    ReopenIsWritten(log);
    var d, e := ReopenPair().0, ReopenPair().1;
    ReopenIsPlaced(log, d, e);
    ReopenBooks(log, Event(28, d, Some(BatchTag(ReopenId(), 1, 2))), Event(29, e, Some(BatchTag(ReopenId(), 2, 2))));
  }

  // ---------------------------------------------------------------- the second settlement

  function SecondRoot(): RootCompletion { RootCompletion(TASK, PARENT, 28) }

  ghost predicate PaidTwice(log: Events) {
    History(log, ContributionName()) == [Eligible, Settled, Eligible, Settled] && Paid(log) == 14
  }

  lemma {:induction false} SecondIsDue(log: Events)
    requires Placed(log, 13) && KeysFit(log) && ParentCompleted(log) && StatesOf(log) == [Forged().(state := Eligible)]
    ensures SettleRank(SecondRoot()) == 13 && Due(log, SecondRoot(), Forged().(state := Eligible))
  {
    NamesDiffer();
    NotYetSettled(log, 13, SecondRoot());
  }

  lemma {:induction false} IsPaidTwice(log: Events)
    requires Placed(log, 13) && KeysFit(log) && ParentCompleted(log)
    requires Books(log, Forged().(state := Eligible), [Eligible, Settled, Eligible], 7)
    ensures PaidTwice(After(log, SettleWrites(log, SettleOne(SecondRoot(), Forged().(state := Eligible)))))
  {
    var c := Forged().(state := Eligible);
    SecondIsDue(log);
    SettlesOne(log, 13, SecondRoot(), c);
    SettlingPays(log, SecondRoot(), c, After(log, SettleWrites(log, SettleOne(SecondRoot(), c))));
  }

  // ---------------------------------------------------------------- the run

  function VerifyOf(unitId: string): Step {
    Verify(Report(unitId), AttemptIn(unitId, AttemptState.Submitted), ANY)
  }

  ghost function StepOf(k: nat): Step {
    ExpansionSize();
    match k
    case 0 => VerifyOf(PARENT)
    case 1 => Bind(BindRequested(PARENT, 1))
    case 2 => ExpandUnit(ExpandRequested(MergedProposal()))
    case 3 => VerifyOf(Child())
    case 4 => Bind(BindRequested(Child(), 11))
    case 5 => CreateMergeTask(MergeTaskRequested())
    case 6 => VerifyOf(MergeUnit())
    case 7 => Bind(BindRequested(MergeUnit(), 17))
    case 8 => ResolveOutputs(Record(), [Resolution()], NOW)
    case 9 => CompleteUnit(CompleteRequested())
    case 10 => CreateContribution(MergeCanonical, TASK, Source(), NOW)
    case 11 => Settle(SettleOne(FirstRoot(), Earned()))
    case 12 => CompleteParent(CompletionRequested())
    case _ => Settle(SettleOne(SecondRoot(), Forged().(state := Eligible)))
  }

  /** The plan and the canonical outputs of parent and child. */
  ghost predicate Traced(log: Events) {
    Planned(log) && BoundAt(log, PARENT, 2) && BoundAt(log, Child(), 12)
  }

  ghost predicate ParentVerified(log: Events) {
    Placed(log, 1) && VerifiedAt(log, PARENT, 0)
  }

  ghost predicate ParentBound(log: Events) {
    Placed(log, 2) && BoundAt(log, PARENT, 2)
  }

  ghost predicate ParentExpanded(log: Events) {
    Placed(log, 3) && Planned(log) && BoundAt(log, PARENT, 2)
  }

  ghost predicate ChildVerified(log: Events) {
    Placed(log, 4) && Planned(log) && BoundAt(log, PARENT, 2) && VerifiedAt(log, Child(), 10)
  }

  ghost predicate ChildIsBound(log: Events) {
    Placed(log, 5) && Traced(log)
  }

  ghost predicate TaskLinked(log: Events) {
    Placed(log, 6) && Traced(log) && Linked(log)
  }

  ghost predicate MergeVerified(log: Events) {
    Placed(log, 7) && Traced(log) && Linked(log) && VerifiedAt(log, MergeUnit(), 16)
  }

  ghost predicate MergeBound(log: Events) {
    Placed(log, 8) && Traced(log) && Linked(log) && BoundAt(log, MergeUnit(), 18)
  }

  ghost predicate ParentResolved(log: Events) {
    Placed(log, 9) && Traced(log) && BoundAt(log, MergeUnit(), 18) && Resolved(log)
  }

  ghost predicate MergeCompleted(log: Events) {
    Placed(log, 10) && Planned(log) && BoundAt(log, MergeUnit(), 18) && Resolved(log) && Completed(log)
  }

  ghost predicate MergeCredited(log: Events) {
    Placed(log, 11) && Planned(log) && Resolved(log) && Completed(log) && OnlyMergePaid(log)
    && Books(log, Earned(), [Eligible], 0)
  }

  ghost predicate MergePaid(log: Events) {
    Placed(log, 12) && Planned(log) && Resolved(log) && OnlyMergePaid(log)
    && Books(log, Earned().(state := Settled), [Eligible, Settled], 7)
  }

  ghost predicate Reopened(log: Events) {
    Placed(log, 13) && Planned(log) && ParentCompleted(log) && OnlyMergePaid(log)
    && Books(log, Forged().(state := Eligible), [Eligible, Settled, Eligible], 7)
  }

  /** What a ledger holds it keeps. */
  lemma {:induction false} FactsStay(log: Events, next: Events)
    requires log <= next
    ensures Planned(log) ==> Planned(next)
    ensures BoundAt(log, PARENT, 2) ==> BoundAt(next, PARENT, 2)
    ensures BoundAt(log, Child(), 12) ==> BoundAt(next, Child(), 12)
    ensures BoundAt(log, MergeUnit(), 18) ==> BoundAt(next, MergeUnit(), 18)
    ensures Linked(log) ==> Linked(next)
    ensures Resolved(log) ==> Resolved(next)
    ensures Completed(log) ==> Completed(next)
  {
    if |log| >= 10 { assert next[4..10] == log[4..10]; }
  }

  lemma {:induction false} VerifyStage(cfg: ProtocolConfig, log: Events, k: nat, unitId: string)
    requires Placed(log, k) && VerifyRank(unitId) == k && Written(k + 1) == Written(k) + 2
    ensures var next := Exec(cfg, log, VerifyOf(unitId));
      log <= next && Placed(next, k + 1) && VerifiedAt(next, unitId, |log|)
  {
    ExecVerify(cfg, log, Report(unitId), AttemptIn(unitId, AttemptState.Submitted), ANY);
    IsVerified(log, k, unitId);
  }

  lemma {:induction false} VerifiesParent(cfg: ProtocolConfig, log: Events)
    requires log == [] && Keyed(log)
    ensures ParentVerified(Exec(cfg, log, VerifyOf(PARENT)))
  {
    VerifyStage(cfg, log, 0, PARENT);
  }

  lemma {:induction false} BindsParent(cfg: ProtocolConfig, log: Events)
    requires ParentVerified(log) && Keyed(log)
    ensures ParentBound(Exec(cfg, log, Bind(BindRequested(PARENT, 1))))
  {
    ExecBind(cfg, log, BindRequested(PARENT, 1));
    IsBound(log, 1, PARENT);
  }

  lemma {:induction false} ExpandsParent(cfg: ProtocolConfig, log: Events)
    requires ParentBound(log) && Keyed(log)
    ensures ParentExpanded(Exec(cfg, log, ExpandUnit(ExpandRequested(MergedProposal()))))
  {
    ExecExpand(cfg, log, ExpandRequested(MergedProposal()));
    IsExpanded(log);
    FactsStay(log, Exec(cfg, log, ExpandUnit(ExpandRequested(MergedProposal()))));
  }

  lemma {:induction false} VerifiesChild(cfg: ProtocolConfig, log: Events)
    requires ParentExpanded(log) && Keyed(log)
    ensures ChildVerified(Exec(cfg, log, VerifyOf(Child())))
  {
    NamesDiffer();
    VerifyStage(cfg, log, 3, Child());
    FactsStay(log, Exec(cfg, log, VerifyOf(Child())));
  }

  lemma {:induction false} BindsChild(cfg: ProtocolConfig, log: Events)
    requires ChildVerified(log) && Keyed(log)
    ensures ChildIsBound(Exec(cfg, log, Bind(BindRequested(Child(), 11))))
  {
    NamesDiffer();
    ExecBind(cfg, log, BindRequested(Child(), 11));
    IsBound(log, 4, Child());
    FactsStay(log, Exec(cfg, log, Bind(BindRequested(Child(), 11))));
  }

  lemma {:induction false} CreatesMergeTask(cfg: ProtocolConfig, log: Events)
    requires ChildIsBound(log) && Keyed(log)
    ensures |ExpansionEvents()| == 6
    ensures TaskLinked(Exec(cfg, log, CreateMergeTask(MergeTaskRequested())))
  {
    ExpansionSize();
    ExecMergeTask(cfg, log, MergeTaskRequested());
    IsLinked(log);
    FactsStay(log, Exec(cfg, log, CreateMergeTask(MergeTaskRequested())));
  }

  lemma {:induction false} VerifiesMerge(cfg: ProtocolConfig, log: Events)
    requires TaskLinked(log) && Keyed(log)
    ensures MergeVerified(Exec(cfg, log, VerifyOf(MergeUnit())))
  {
    NamesDiffer();
    VerifyStage(cfg, log, 6, MergeUnit());
    FactsStay(log, Exec(cfg, log, VerifyOf(MergeUnit())));
  }

  lemma {:induction false} BindsMerge(cfg: ProtocolConfig, log: Events)
    requires MergeVerified(log) && Keyed(log)
    ensures MergeBound(Exec(cfg, log, Bind(BindRequested(MergeUnit(), 17))))
  {
    NamesDiffer();
    ExecBind(cfg, log, BindRequested(MergeUnit(), 17));
    IsBound(log, 7, MergeUnit());
    FactsStay(log, Exec(cfg, log, Bind(BindRequested(MergeUnit(), 17))));
  }

  lemma {:induction false} ResolvesParent(cfg: ProtocolConfig, log: Events)
    requires MergeBound(log) && Keyed(log)
    ensures ParentResolved(Exec(cfg, log, ResolveOutputs(Record(), [Resolution()], NOW)))
  {
    ExecResolve(cfg, log, Record(), [Resolution()], NOW);
    IsResolved(log);
    FactsStay(log, Exec(cfg, log, ResolveOutputs(Record(), [Resolution()], NOW)));
  }

  lemma {:induction false} CompletesMerge(cfg: ProtocolConfig, log: Events)
    requires ParentResolved(log) && Keyed(log)
    ensures MergeCompleted(Exec(cfg, log, CompleteUnit(CompleteRequested())))
  {
    ExecComplete(cfg, log, CompleteRequested());
    IsCompleted(log);
    FactsStay(log, Exec(cfg, log, CompleteUnit(CompleteRequested())));
  }

  lemma {:induction false} CreditsMerge(cfg: ProtocolConfig, log: Events)
    requires MergeCompleted(log) && Keyed(log)
    ensures MergeCredited(Exec(cfg, log, CreateContribution(MergeCanonical, TASK, Source(), NOW)))
  {
    ExecCreate(cfg, log, MergeCanonical, TASK, Source(), NOW);
    IsCredited(log);
    FactsStay(log, Exec(cfg, log, CreateContribution(MergeCanonical, TASK, Source(), NOW)));
  }

  lemma {:induction false} PaysMerge(cfg: ProtocolConfig, log: Events)
    requires MergeCredited(log) && Keyed(log)
    ensures MergePaid(Exec(cfg, log, Settle(SettleOne(FirstRoot(), Earned()))))
  {
    ExecSettle(cfg, log, SettleOne(FirstRoot(), Earned()));
    IsPaid(log);
    FactsStay(log, Exec(cfg, log, Settle(SettleOne(FirstRoot(), Earned()))));
  }

  lemma {:induction false} ReopensCredit(cfg: ProtocolConfig, log: Events)
    requires MergePaid(log) && Keyed(log)
    ensures Reopened(Exec(cfg, log, CompleteParent(CompletionRequested())))
  {
    ExecCompletion(cfg, log, CompletionRequested());
    IsReopened(log);
    FactsStay(log, Exec(cfg, log, CompleteParent(CompletionRequested())));
  }

  lemma {:induction false} PaysAgain(cfg: ProtocolConfig, log: Events)
    requires Reopened(log) && Keyed(log)
    ensures PaidTwice(Exec(cfg, log, Settle(SettleOne(SecondRoot(), Forged().(state := Eligible)))))
  {
    ExecSettle(cfg, log, SettleOne(SecondRoot(), Forged().(state := Eligible)));
    IsPaidTwice(log);
  }

  /** The ledger of the run after `k` steps. */
  ghost predicate Stage(k: nat, log: Events) {
    match k
    case 0 => log == []
    case 1 => ParentVerified(log)
    case 2 => ParentBound(log)
    case 3 => ParentExpanded(log)
    case 4 => ChildVerified(log)
    case 5 => ChildIsBound(log)
    case 6 => TaskLinked(log)
    case 7 => MergeVerified(log)
    case 8 => MergeBound(log)
    case 9 => ParentResolved(log)
    case 10 => MergeCompleted(log)
    case 11 => MergeCredited(log)
    case 12 => MergePaid(log)
    case 13 => Reopened(log)
    case _ => PaidTwice(log)
  }

  lemma {:induction false} EarlyStage(cfg: ProtocolConfig, log: Events, k: nat)
    requires 0 <= k < 7 && Stage(k, log) && Keyed(log)
    ensures Stage(k + 1, Exec(cfg, log, StepOf(k)))
  {
    match k
    case 0 => VerifiesParent(cfg, log);
    case 1 => BindsParent(cfg, log);
    case 2 => ExpandsParent(cfg, log);
    case 3 => VerifiesChild(cfg, log);
    case 4 => BindsChild(cfg, log);
    case 5 => CreatesMergeTask(cfg, log);
    case 6 => VerifiesMerge(cfg, log);
  }

  lemma {:induction false} LateStage(cfg: ProtocolConfig, log: Events, k: nat)
    requires 7 <= k < 14 && Stage(k, log) && Keyed(log)
    ensures Stage(k + 1, Exec(cfg, log, StepOf(k)))
  {
    match k
    case 7 => BindsMerge(cfg, log);
    case 8 => ResolvesParent(cfg, log);
    case 9 => CompletesMerge(cfg, log);
    case 10 => CreditsMerge(cfg, log);
    case 11 => PaysMerge(cfg, log);
    case 12 => ReopensCredit(cfg, log);
    case 13 => PaysAgain(cfg, log);
  }

  lemma {:induction false} NextStage(cfg: ProtocolConfig, log: Events, k: nat)
    requires k < 14 && Stage(k, log) && Keyed(log)
    ensures Stage(k + 1, Exec(cfg, log, StepOf(k)))
  {
    if k < 7 { EarlyStage(cfg, log, k); } else { LateStage(cfg, log, k); }
  }

  lemma {:induction false} NextReached(cfg: ProtocolConfig, run: Run, k: nat)
    requires IsRun(cfg, run) && k < 14 && run.StepAt(k) == StepOf(k)
    requires Stage(k, run.At(k)) && Keyed(run.At(k))
    ensures Stage(k + 1, run.At(k + 1))
  {
    NextStage(cfg, run.At(k), k);
  }

  /** A run that begins with the first `n` steps reaches the stage of each of them. */
  lemma {:induction false} StageReached(cfg: ProtocolConfig, run: Run, n: nat, k: nat)
    requires IsRun(cfg, run) && run.Start() == [] && k <= n <= 14
    requires forall i: nat {:trigger run.StepAt(i)} :: i < n ==> run.StepAt(i) == StepOf(i)
    ensures Stage(k, run.At(k)) && Keyed(run.At(k))
  {
    RunIsKeyed(cfg, run, 0, k);
    if k > 0 {
      StageReached(cfg, run, n, k - 1);
      assert run.StepAt(k - 1) == StepOf(k - 1);
      NextReached(cfg, run, k - 1);
    }
  }

  /** The first `n` steps, and after them this one. */
  ghost function StepsThen(n: nat, last: Step): nat -> Step {
    (k: nat) => if k < n then StepOf(k) else last
  }

  lemma {:induction false} RunThen(cfg: ProtocolConfig, n: nat, last: Step) returns (run: Run, j: nat)
    requires n <= 14
    ensures IsRun(cfg, run) && run.Start() == [] && run.steps == StepsThen(n, last)
    ensures j == n && run.StepAt(j) == last && run.At(j + 1) == Exec(cfg, run.At(j), last)
    ensures Stage(j, run.At(j)) && Keyed(run.At(j))
  {
    run := EveryStepRuns(cfg, [], StepsThen(n, last));
    j := n;
    assert run.StepAt(j) == last;
    StageReached(cfg, run, n, n);
  }

  lemma {:induction false} LaterStagesPay(log: Events)
    ensures Stage(12, log) ==> Paid(log) == 7
    ensures Stage(14, log) ==> PaidTwice(log)
  {
  }

  /** The plan and the canonical event that the merge task is created from are on record. */
  ghost predicate Owns(log: Events) {
    |log| == 14 && log[4..10] == ExpansionEvents() && log[12] == ChildBound()
  }

  lemma {:induction false} StagesOwn(log: Events)
    ensures Stage(5, log) ==> Owns(log)
  {
    NamesDiffer();
  }

  /**
   * Fourteen steps from the empty ledger pay one contribution twice. Both settlements name it, each with the whole of
   * its own root's budget of 7. The merge task is created from the ledger's own plan and canonical event; only the
   * contribution record given to the parent completion between the settlements is made up, and the settled
   * contribution is eligible again.
   */
  lemma {:induction false} ForgedContributionIsPaidTwice(cfg: ProtocolConfig) returns (run: Run)
    ensures IsRun(cfg, run) && run.Start() == [] && forall k: nat :: run.StepAt(k) == StepOf(k)
    ensures Owns(run.At(5))
    ensures History(run.At(14), ContributionName()) == [Eligible, Settled, Eligible, Settled]
    ensures Paid(run.At(12)) == 7 && Paid(run.At(14)) == 14
  {
    run := EveryStepRuns(cfg, [], StepOf);
    assert forall k: nat :: run.StepAt(k) == StepOf(k);
    StageReached(cfg, run, 14, 5);
    StageReached(cfg, run, 14, 12);
    StageReached(cfg, run, 14, 14);
    StagesOwn(run.At(5));
    LaterStagesPay(run.At(12));
    LaterStagesPay(run.At(14));
  }
}
