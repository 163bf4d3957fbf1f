/**
 * Completing an expanded parent once its expected outputs are resolved
 * (src/tokenshare/protocol_engine.py:1165-1240, 3572-3847).
 */
module Completions {
  import opened Basics
  import opened Objects
  import opened Order
  import opened Ledger
  import opened Batches
  import opened Merging
  import opened Contributions

  // ---------------------------------------------------------------- the resolved set

  function EntryOf(r: OutputResolution): ResolvedOutput {
    ResolvedOutput(r.expectedOutputId, r.expectedOutputName, r.outputDigest)
  }

  function ByOutputId(a: ResolvedOutput, b: ResolvedOutput): bool {
    StringLe(a.expectedOutputId, b.expectedOutputId)
  }

  /** What a parent completion commits to: its resolved outputs in id order. */
  function ResolvedSet(rs: seq<OutputResolution>): seq<ResolvedOutput> {
    Sort(seq(|rs|, i requires 0 <= i < |rs| => EntryOf(rs[i])), ByOutputId)
  }

  lemma {:induction false} ResolvedSetMembers(rs: seq<OutputResolution>, entry: ResolvedOutput)
    ensures entry in ResolvedSet(rs) <==> exists r :: r in rs && EntryOf(r) == entry
  {
    var entries := seq(|rs|, i requires 0 <= i < |rs| => EntryOf(rs[i]));
    SortMultiset(entries, ByOutputId);
    if entry in ResolvedSet(rs) {
      var i :| 0 <= i < |rs| && entries[i] == entry;
      assert rs[i] in rs;
    }
    if r :| r in rs && EntryOf(r) == entry {
      var i :| 0 <= i < |rs| && rs[i] == r;
      assert entries[i] == entry;
    }
  }

  // ---------------------------------------------------------------- recorded resolutions

  /** A resolution counts only when the batch it came in is a complete resolution of its merge record. */
  predicate InCompleteBatch(log: Events, e: Event) {
    e.Payload().OutputResolved? && e.tag.Some?
    && MergeBatchComplete(log, e.tag.value.id, e.Payload().resolution.recordId)
  }

  predicate Counts(log: Events, e: Event) {
    e.Payload().OutputResolved? && InCompleteBatch(log, e) && |e.Payload().resolution.expectedOutputId| > 0
  }

  function RecordedUpTo(log: Events, n: nat): Result<map<string, OutputResolution>>
    requires n <= |log|
  {
    if n == 0 then Ok(map[])
    else
      var before :- RecordedUpTo(log, n - 1);
      var e := log[n - 1];
      if !Counts(log, e) then Ok(before)
      else
        var r := e.Payload().resolution;
        if r.expectedOutputId in before && before[r.expectedOutputId] != r then Err(ResolutionConflict)
        else Ok(before[r.expectedOutputId := r])
  }

  lemma {:induction false} ConflictStays(log: Events, n: nat, m: nat)
    requires n <= m <= |log| && RecordedUpTo(log, n).Err?
    ensures RecordedUpTo(log, m) == RecordedUpTo(log, n)
    decreases m
  {
    if n < m { ConflictStays(log, n, m - 1); }
  }

  method RecordedResolutions(log: Events) returns (r: Result<map<string, OutputResolution>>)
    ensures r == RecordedUpTo(log, |log|)
  {
    var recorded: map<string, OutputResolution> := map[];
    for i := 0 to |log|
      invariant RecordedUpTo(log, i) == Ok(recorded)
    {
      if Counts(log, log[i]) {
        var resolution := log[i].Payload().resolution;
        if resolution.expectedOutputId in recorded && recorded[resolution.expectedOutputId] != resolution {
          ConflictStays(log, i + 1, |log|);
          return Err(ResolutionConflict);
        }
        recorded := recorded[resolution.expectedOutputId := resolution];
      }
    }
    r := Ok(recorded);
  }

  predicate CarriesResolution(log: Events, e: Event, r: OutputResolution) {
    Counts(log, e) && e.Payload().resolution == r
  }

  /** Everything read back stands in a complete batch of the ledger. */
  lemma {:induction false} RecordedAreCarried(log: Events, n: nat, id: string)
    requires n <= |log| && RecordedUpTo(log, n).Ok? && id in RecordedUpTo(log, n).value
    ensures RecordedUpTo(log, n).value[id].expectedOutputId == id
    ensures exists i :: 0 <= i < n && CarriesResolution(log, log[i], RecordedUpTo(log, n).value[id])
  {
    var e := log[n - 1];
    if Counts(log, e) && e.Payload().resolution.expectedOutputId == id {
      assert CarriesResolution(log, log[n - 1], RecordedUpTo(log, n).value[id]);
    } else {
      RecordedAreCarried(log, n - 1, id);
    }
  }

  // ---------------------------------------------------------------- what completion requires

  function RefIds(refs: seq<ExpectedOutputRef>): seq<string> {
    seq(|refs|, i requires 0 <= i < |refs| => refs[i].expectedOutputId)
  }

  predicate OwnRef(ref: ExpectedOutputRef, owner: TaskUnit) {
    ref.taskId == owner.taskId && ref.ownerUnitId == owner.unitId
  }

  /** The resolution is the recorded one for this output. */
  predicate ResolvesRef(r: OutputResolution, ref: ExpectedOutputRef, owner: TaskUnit,
                        recorded: map<string, OutputResolution>)
  {
    && r.expectedOutputId == ref.expectedOutputId && r.taskId == owner.taskId && r.ownerUnitId == owner.unitId
    && r.expectedOutputName == ref.outputName
    && ref.expectedOutputId in recorded && recorded[ref.expectedOutputId] == r
  }

  ghost predicate FullyResolved(owner: TaskUnit, refs: seq<ExpectedOutputRef>, rs: seq<OutputResolution>,
                                recorded: map<string, OutputResolution>) {
    && refs != [] && (forall ref :: ref in refs ==> OwnRef(ref, owner))
    && Distinct(RefIds(refs)) && Distinct(ResolutionIds(rs)) && Elements(RefIds(refs)) == Elements(ResolutionIds(rs))
    && (forall ref, r :: ref in refs && r in rs && ref.expectedOutputId == r.expectedOutputId ==>
          ResolvesRef(r, ref, owner, recorded))
  }

  /** The resolutions by id, as the source's dict. */
  ghost predicate IsIndexOf(byId: map<string, OutputResolution>, rs: seq<OutputResolution>) {
    && byId.Keys == Elements(ResolutionIds(rs))
    && forall r :: r in rs ==> r.expectedOutputId in byId && byId[r.expectedOutputId] == r
  }

  method IndexResolutions(rs: seq<OutputResolution>) returns (byId: Option<map<string, OutputResolution>>)
    ensures byId.Some? <==> Distinct(ResolutionIds(rs))
    ensures byId.Some? ==> IsIndexOf(byId.value, rs)
  {
    var repeated := HasRepeat(ResolutionIds(rs));
    if repeated { return None; }
    var index: map<string, OutputResolution> := map[];
    for i := 0 to |rs|
      invariant index.Keys == Elements(ResolutionIds(rs)[..i])
      invariant forall j :: 0 <= j < i ==> rs[j].expectedOutputId in index && index[rs[j].expectedOutputId] == rs[j]
    {
      var ids := ResolutionIds(rs);
      assert ids[..i + 1] == ids[..i] + [ids[i]];
      OneMore(ids[..i], ids[i]);
      forall j | 0 <= j < i ensures rs[j].expectedOutputId != rs[i].expectedOutputId {
        assert ids[j] != ids[i];
      }
      index := index[rs[i].expectedOutputId := rs[i]];
    }
    assert ResolutionIds(rs)[..|rs|] == ResolutionIds(rs);
    byId := Some(index);
  }

  lemma {:induction false} IndexIsUnique(byId: map<string, OutputResolution>, rs: seq<OutputResolution>, id: string)
    requires IsIndexOf(byId, rs) && id in byId
    ensures byId[id] in rs && byId[id].expectedOutputId == id
  {
    var ids := ResolutionIds(rs);
    assert id in Elements(ids);
    var i :| 0 <= i < |ids| && ids[i] == id;
    assert rs[i] in rs;
  }

  method ValidateResolutions(owner: TaskUnit, refs: seq<ExpectedOutputRef>, rs: seq<OutputResolution>,
                             recorded: map<string, OutputResolution>) returns (ok: bool)
    ensures ok <==> FullyResolved(owner, refs, rs, recorded)
  {
    if refs == [] { return false; }
    for i := 0 to |refs|
      invariant forall j :: 0 <= j < i ==> OwnRef(refs[j], owner)
    {
      if !OwnRef(refs[i], owner) { return false; }
    }
    var repeated := HasRepeat(RefIds(refs));
    if repeated { return false; }
    var indexed := IndexResolutions(rs);
    if indexed.None? || indexed.value.Keys != Elements(RefIds(refs)) { return false; }
    var byId := indexed.value;
    for i := 0 to |refs|
      invariant forall j :: 0 <= j < i ==>
        refs[j].expectedOutputId in byId && ResolvesRef(byId[refs[j].expectedOutputId], refs[j], owner, recorded)
    {
      assert RefIds(refs)[i] in Elements(RefIds(refs));
      IndexIsUnique(byId, rs, refs[i].expectedOutputId);
      if !ResolvesRef(byId[refs[i].expectedOutputId], refs[i], owner, recorded) { return false; }
    }
    ok := true;
  }

  // ---------------------------------------------------------------- the contributions it makes eligible

  function DecisionIds(refs: seq<ExpectedOutputRef>): set<string> {
    set ref | ref in refs :: ref.decisionId
  }

  predicate MayBecomeEligible(c: ContributionRecord, owner: TaskUnit, decisions: set<string>) {
    && c.kind.ExpandCanonical? && c.taskId == owner.taskId && c.unitId == owner.unitId && c.state.Pending?
    && c.sourceDecisionId.Some? && c.sourceDecisionId.value in decisions
  }

  function ContributionIds(cs: seq<ContributionRecord>): seq<string> {
    seq(|cs|, i requires 0 <= i < |cs| => cs[i].contributionId)
  }

  function MakeEligible(c: ContributionRecord, now: string): ContributionRecord {
    c.(state := Eligible, updatedAt := now)
  }

  function EligibleOnes(sorted: seq<ContributionRecord>, now: string): seq<ContributionRecord> {
    seq(|sorted|, i requires 0 <= i < |sorted| => MakeEligible(sorted[i], now))
  }

  ghost function EligibleContributions(owner: TaskUnit, refs: seq<ExpectedOutputRef>, cs: seq<ContributionRecord>,
                                       now: string)
    : Result<seq<ContributionRecord>>
  {
    var sorted := Sort(cs, ById);
    if cs == [] then Err(ContributionMissing)
    else if !Distinct(ContributionIds(sorted)) then Err(DuplicateContribution)
    else if exists c :: c in sorted && !MayBecomeEligible(c, owner, DecisionIds(refs)) then Err(ContributionMismatch)
    else Ok(EligibleOnes(sorted, now))
  }

  method CollectEligible(owner: TaskUnit, refs: seq<ExpectedOutputRef>, cs: seq<ContributionRecord>, now: string)
    returns (r: Result<seq<ContributionRecord>>)
    ensures r.Ok? <==> EligibleContributions(owner, refs, cs, now).Ok?
    ensures r.Ok? ==> r == EligibleContributions(owner, refs, cs, now)
  {
    if cs == [] { return Err(ContributionMissing); }
    var sorted := Sort(cs, ById);
    var repeated := HasRepeat(ContributionIds(sorted));
    if repeated { return Err(DuplicateContribution); }
    var eligible: seq<ContributionRecord> := [];
    for i := 0 to |sorted|
      invariant |eligible| == i
      invariant forall j :: 0 <= j < i ==> MayBecomeEligible(sorted[j], owner, DecisionIds(refs))
      invariant forall j :: 0 <= j < i ==> eligible[j] == MakeEligible(sorted[j], now)
    {
      if !MayBecomeEligible(sorted[i], owner, DecisionIds(refs)) { return Err(ContributionMismatch); }
      var moved := TransitionContribution(sorted[i], Eligible, now, false);
      eligible := eligible + [moved.value];
    }
    assert eligible == EligibleOnes(sorted, now);
    r := Ok(eligible);
  }

  // ---------------------------------------------------------------- conflicts and drafts

  /** An earlier completion batch of the owner is torn, or commits to other outputs. */
  predicate BlocksCompletion(log: Events, e: Event, ownerId: string, resolved: seq<ResolvedOutput>) {
    && e.tag.Some? && e.tag.value.id.ParentCompletionBatch? && e.tag.value.id.ownerUnitId == ownerId
    && (!CompletionBatchComplete(log, e.tag.value.id, ownerId) || e.tag.value.id.resolved != resolved)
  }

  predicate CompletionConflicts(log: Events, ownerId: string, resolved: seq<ResolvedOutput>) {
    exists e :: e in log && BlocksCompletion(log, e, ownerId, resolved)
  }

  method FindCompletionConflict(log: Events, ownerId: string, resolved: seq<ResolvedOutput>) returns (found: bool)
    ensures found <==> CompletionConflicts(log, ownerId, resolved)
  {
    for i := 0 to |log|
      invariant forall j :: 0 <= j < i ==> !BlocksCompletion(log, log[j], ownerId, resolved)
    {
      if BlocksCompletion(log, log[i], ownerId, resolved) { return true; }
    }
    found := false;
  }

  function EligibleDraft(c: ContributionRecord, resolved: seq<ResolvedOutput>, now: string): Draft {
    Draft(ContributionEligibleKey(c.contributionId, resolved), ContributionChanged(Some(Pending), c, None), now)
  }

  function CompletionDrafts(completed: TaskUnit, eligible: seq<ContributionRecord>, resolved: seq<ResolvedOutput>,
                            now: string)
    : (drafts: seq<Draft>)
    ensures |drafts| == |eligible| + 1
  {
    [Draft(UnitStateKey(completed.unitId, TaskState.Processing, TaskState.Completed, ByParentCompletion(resolved)),
           UnitChanged(TaskState.Processing, completed, OutputsResolved(resolved)), now)]
    + seq(|eligible|, i requires 0 <= i < |eligible| => EligibleDraft(eligible[i], resolved, now))
  }

  /** The completion recogniser accepts the batch in any order and rejects every torn part of it. */
  lemma {:induction false} TornCompletionIsSeen(events: Events, base: nat, id: BatchId, completed: TaskUnit,
                                                eligible: seq<ContributionRecord>,
                             resolved: seq<ResolvedOutput>, now: string)
    requires eligible != [] && completed.state.Completed?
    requires forall c :: c in eligible ==> c.state.Eligible?
    requires EventsOf(events, id) != []
    requires PieceOf(EventsOf(events, id), Stamp(base, id, CompletionDrafts(completed, eligible, resolved, now)))
    ensures var whole := Stamp(base, id, CompletionDrafts(completed, eligible, resolved, now));
      CompletionBatchComplete(events, id, completed.unitId) <==> AllOf(EventsOf(events, id), whole)
  {
    OnlyWholeIsNumbered(EventsOf(events, id), base, id, CompletionDrafts(completed, eligible, resolved, now));
  }
}
