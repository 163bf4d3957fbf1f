/**
 * Recognising complete batches on replay (src/tokenshare/protocol_engine.py:3545-3569, 3817-3847, 3978-4000,
 * 4586-4610; src/tokenshare/core/contribution.py:628-645; src/tokenshare/core/merge_coordinator.py:26-47).
 */
module Batches {
  import opened Basics
  import opened Objects
  import opened Order
  import opened Ledger

  function EventsOf(events: Events, id: BatchId): Events {
    if events == [] then []
    else
      var before := EventsOf(events[..|events| - 1], id);
      var last := events[|events| - 1];
      if last.InBatch(id) then before + [last] else before
  }

  function IndexOf(e: Event): int {
    if e.tag.Some? then e.tag.value.index else 0
  }

  function ByIndex(a: Event, b: Event): bool {
    IndexOf(a) <= IndexOf(b)
  }

  /** The events of one batch, sorted by their batch index. */
  function BatchOf(events: Events, id: BatchId): Events {
    Sort(EventsOf(events, id), ByIndex)
  }

  /** One size, equal to the number of events. */
  predicate SizeFits(batch: Events) {
    forall k :: 0 <= k < |batch| ==> batch[k].tag.Some? && batch[k].tag.value.size == |batch|
  }

  /** ... and indexes that count from 1. */
  predicate Numbered(batch: Events) {
    SizeFits(batch) && forall k :: 0 <= k < |batch| ==> batch[k].tag.value.index == k + 1
  }

  // ---------------------------------------------------------------- the recognisers

  predicate IsMergeHead(e: Event, recordId: string) {
    e.Payload().MergeRecorded? && e.Payload().record.recordId == recordId
  }

  predicate IsMergeBatch(batch: Events, recordId: string) {
    && |batch| >= 2 && Numbered(batch) && IsMergeHead(batch[0], recordId)
    && forall k :: 1 <= k < |batch| ==> batch[k].Payload().OutputResolved?
  }

  /** `_is_complete_merge_resolution_batch`. */
  predicate MergeBatchComplete(events: Events, id: BatchId, recordId: string) {
    IsMergeBatch(BatchOf(events, id), recordId)
  }

  predicate IsCompletionHead(e: Event, ownerId: string) {
    && e.Payload().UnitChanged? && e.Payload().unit.unitId == ownerId
    && e.Payload().oldUnitState.Processing? && e.Payload().unit.state.Completed?
  }

  predicate MovesContribution(e: Event, before: ContributionState, after: ContributionState) {
    && e.Payload().ContributionChanged?
    && e.Payload().oldContributionState == Some(before) && e.Payload().contribution.state == after
  }

  predicate IsCompletionBatch(batch: Events, ownerId: string) {
    && |batch| >= 2 && Numbered(batch) && IsCompletionHead(batch[0], ownerId)
    && forall k :: 1 <= k < |batch| ==> MovesContribution(batch[k], Pending, Eligible)
  }

  /** `_is_complete_parent_completion_batch`. */
  predicate CompletionBatchComplete(events: Events, id: BatchId, ownerId: string) {
    IsCompletionBatch(BatchOf(events, id), ownerId)
  }

  /** The envelope checks of `_validate_existing_settlement_batch`. */
  predicate IsSettlementBatch(batch: Events) {
    && |batch| >= 2 && Numbered(batch) && batch[|batch| - 1].Payload().SettlementRecorded?
    && forall k :: 0 <= k < |batch| - 1 ==> MovesContribution(batch[k], Eligible, Settled)
  }

  predicate SettlementBatchComplete(events: Events, id: BatchId) {
    IsSettlementBatch(BatchOf(events, id))
  }

  predicate IsCancellation(e: Event) {
    && e.Payload().UnitChanged? && e.Payload().unit.state.Cancelled?
    && (e.Payload().oldUnitState.Ready? || e.Payload().oldUnitState.Processing? || e.Payload().oldUnitState.Blocked?)
  }

  /** The envelope checks of `_validate_existing_subtree_pruning_batch`. */
  predicate IsPruningBatch(batch: Events) {
    && |batch| >= 2 && Numbered(batch) && batch[|batch| - 1].Payload().SubtreePruned?
    && forall k :: 0 <= k < |batch| - 1 ==> IsCancellation(batch[k])
  }

  predicate PruningBatchComplete(events: Events, id: BatchId) {
    IsPruningBatch(BatchOf(events, id))
  }

  /** `_validated_batch_events` of the contribution coordinator: unlike the others it does not sort. */
  predicate OrderedBatchComplete(events: Events, id: BatchId) {
    events != [] && Numbered(events) && forall k :: 0 <= k < |events| ==> events[k].InBatch(id)
  }

  /** `BatchView.is_complete`: sizes and ids only. */
  predicate ViewComplete(events: Events) {
    && events != [] && SizeFits(events)
    && forall k :: 0 <= k < |events| ==> events[k].tag.value.id == events[0].tag.value.id
  }

  // ---------------------------------------------------------------- torn batches

  /** `piece` consists of some of the events of `whole`, in any order. */
  ghost predicate PieceOf(piece: Events, whole: Events) {
    multiset(piece) <= multiset(whole)
  }

  ghost predicate AllOf(piece: Events, whole: Events) {
    multiset(piece) == multiset(whole)
  }

  lemma {:induction false} PieceMember(piece: Events, whole: Events, e: Event)
    requires PieceOf(piece, whole) && e in piece
    ensures e in whole
  {
    assert e in multiset(piece) && e in multiset(whole);
  }

  lemma {:induction false} FullPiece(piece: Events, whole: Events)
    requires PieceOf(piece, whole) && |piece| == |whole|
    ensures AllOf(piece, whole)
  {
    var rest := multiset(whole) - multiset(piece);
    assert multiset(whole) == multiset(piece) + rest;
    assert |rest| == 0;
    assert rest == multiset{};
  }

  lemma {:induction false} ByIndexIsTotal()
    ensures TotalPreorder(ByIndex)
  {
  }

  lemma {:induction false} StampIsSorted(base: nat, id: BatchId, drafts: seq<Draft>)
    ensures SortedBy(Stamp(base, id, drafts), ByIndex) && SeparatesIn(Stamp(base, id, drafts), ByIndex)
    ensures Numbered(Stamp(base, id, drafts))
  {
    var whole := Stamp(base, id, drafts);
    forall a, b | a in whole && b in whole && ByIndex(a, b) && ByIndex(b, a) ensures a == b {
      var i :| 0 <= i < |whole| && whole[i] == a;
      var j :| 0 <= j < |whole| && whole[j] == b;
    }
  }

  lemma {:induction false} SortedWhole(piece: Events, base: nat, id: BatchId, drafts: seq<Draft>)
    requires AllOf(piece, Stamp(base, id, drafts))
    ensures Sort(piece, ByIndex) == Stamp(base, id, drafts)
  {
    var whole := Stamp(base, id, drafts);
    ByIndexIsTotal();
    StampIsSorted(base, id, drafts);
    forall x, y | x in piece && y in piece && ByIndex(x, y) && ByIndex(y, x) ensures x == y {
      assert x in multiset(piece) && y in multiset(piece);
      assert x in whole && y in whole;
    }
    SortIgnoresOrder(piece, whole, ByIndex);
    SortOfSorted(whole, ByIndex);
  }

  /** A non-empty piece that its sizes admit is the whole batch. */
  lemma {:induction false} SizeFitsOnlyWhole(piece: Events, sorted: Events, base: nat, id: BatchId, drafts: seq<Draft>)
    requires piece != [] && PieceOf(piece, Stamp(base, id, drafts)) && multiset(sorted) == multiset(piece)
    requires SizeFits(sorted)
    ensures AllOf(piece, Stamp(base, id, drafts))
  {
    var whole := Stamp(base, id, drafts);
    assert |multiset(sorted)| == |multiset(piece)|;
    assert sorted[0] in multiset(sorted) && sorted[0] in multiset(whole);
    var k :| 0 <= k < |whole| && whole[k] == sorted[0];
    FullPiece(piece, whole);
  }

  /**
   * Torn batches are detected: among the non-empty pieces of a batch, in any order, exactly the whole
   * batch is numbered after sorting, and sorting restores it as written.
   */
  lemma {:induction false} OnlyWholeIsNumbered(piece: Events, base: nat, id: BatchId, drafts: seq<Draft>)
    requires piece != [] && PieceOf(piece, Stamp(base, id, drafts))
    ensures Numbered(Sort(piece, ByIndex)) <==> AllOf(piece, Stamp(base, id, drafts))
    ensures AllOf(piece, Stamp(base, id, drafts)) ==> Sort(piece, ByIndex) == Stamp(base, id, drafts)
  {
    SortMultiset(piece, ByIndex);
    if Numbered(Sort(piece, ByIndex)) {
      SizeFitsOnlyWhole(piece, Sort(piece, ByIndex), base, id, drafts);
    }
    if AllOf(piece, Stamp(base, id, drafts)) {
      SortedWhole(piece, base, id, drafts);
      StampIsSorted(base, id, drafts);
    }
  }

  /** The unsorted recogniser accepts exactly the batch in written order. */
  lemma {:induction false} OnlyWrittenOrderIsAccepted(piece: Events, base: nat, id: BatchId, drafts: seq<Draft>)
    requires piece != [] && PieceOf(piece, Stamp(base, id, drafts))
    ensures OrderedBatchComplete(piece, id) <==> piece == Stamp(base, id, drafts)
  {
    StampIsSorted(base, id, drafts);
    if OrderedBatchComplete(piece, id) {
      SizeFitsOnlyWhole(piece, piece, base, id, drafts);
      SortedWhole(piece, base, id, drafts);
      ByIndexIsTotal();
      SortOfSorted(piece, ByIndex);
    }
  }

  lemma {:induction false} OnlyWholeViewIsComplete(piece: Events, base: nat, id: BatchId, drafts: seq<Draft>)
    requires piece != [] && PieceOf(piece, Stamp(base, id, drafts))
    ensures ViewComplete(piece) <==> AllOf(piece, Stamp(base, id, drafts))
  {
    var whole := Stamp(base, id, drafts);
    if ViewComplete(piece) { SizeFitsOnlyWhole(piece, piece, base, id, drafts); }
    if AllOf(piece, whole) {
      assert |multiset(piece)| == |multiset(whole)|;
      forall k | 0 <= k < |piece|
        ensures piece[k].tag.Some? && piece[k].tag.value.size == |piece| && piece[k].tag.value.id == id {
        PieceMember(piece, whole, piece[k]);
        var j :| 0 <= j < |whole| && whole[j] == piece[k];
      }
    }
  }

  // ---------------------------------------------------------------- batches inside a ledger

  lemma {:induction false} EventsOfAppend(log: Events, more: Events, id: BatchId)
    ensures EventsOf(log + more, id) == EventsOf(log, id) + EventsOf(more, id)
  {
    if more == [] {
      assert log + more == log;
    } else {
      var n := |more| - 1;
      assert (log + more)[..|log + more| - 1] == log + more[..n];
      EventsOfAppend(log, more[..n], id);
    }
  }

  lemma {:induction false} EventsOfStamp(base: nat, id: BatchId, drafts: seq<Draft>, n: nat)
    requires n <= |drafts|
    ensures EventsOf(Stamp(base, id, drafts)[..n], id) == Stamp(base, id, drafts)[..n]
  {
    if n > 0 {
      var whole := Stamp(base, id, drafts);
      assert whole[..n][..n - 1] == whole[..n - 1];
      EventsOfStamp(base, id, drafts, n - 1);
    }
  }

  lemma {:induction false} NoBatchNoEvents(log: Events, id: BatchId)
    requires !HasBatch(log, id)
    ensures EventsOf(log, id) == []
  {
    if log != [] {
      var n := |log| - 1;
      assert !log[n].InBatch(id);
      assert forall i :: 0 <= i < n ==> log[..n][i] == log[i];
      NoBatchNoEvents(log[..n], id);
    }
  }

  /** Right after a fresh batch append the ledger holds that batch and reads it back as written. */
  lemma {:induction false} AppendedBatchIsRead(log: Events, id: BatchId, drafts: seq<Draft>)
    requires !HasBatch(log, id)
    ensures BatchOf(log + Stamp(|log|, id, drafts), id) == Stamp(|log|, id, drafts)
  {
    var whole := Stamp(|log|, id, drafts);
    NoBatchNoEvents(log, id);
    EventsOfAppend(log, whole, id);
    EventsOfStamp(|log|, id, drafts, |drafts|);
    assert whole[..|drafts|] == whole;
    assert EventsOf(log + whole, id) == [] + whole == whole;
    SortedWhole(whole, |log|, id, drafts);
  }

  /** A well-formed ledger keeps reading back a batch as it was appended. */
  lemma {:induction false} BatchStaysReadable(log: Events, id: BatchId, drafts: seq<Draft>, later: Events)
    requires !HasBatch(log, id) && drafts != []
    requires log + Stamp(|log|, id, drafts) <= later && WellFormed(later)
    ensures BatchOf(later, id) == Stamp(|log|, id, drafts)
  {
    var next := log + Stamp(|log|, id, drafts);
    var rest := later[|next|..];
    assert later == next + rest;
    assert later[|log|] == next[|log|] && BatchWhole(later, |log|);
    assert forall i :: 0 <= i < |rest| ==> rest[i] == later[|next| + i];
    EventsOfAppend(next, rest, id);
    NoBatchNoEvents(rest, id);
    AppendedBatchIsRead(log, id, drafts);
    assert EventsOf(later, id) == EventsOf(next, id);
  }

  // ---------------------------------------------------------------- marker events

  function Matching(log: Events, test: Event -> bool): Events {
    if log == [] then []
    else
      var before := Matching(log[..|log| - 1], test);
      var last := log[|log| - 1];
      if test(last) then before + [last] else before
  }

  lemma {:induction false} NothingMatches(log: Events, test: Event -> bool)
    requires forall i :: 0 <= i < |log| ==> !test(log[i])
    ensures Matching(log, test) == []
  {
    if log != [] { NothingMatches(log[..|log| - 1], test); }
  }

  /** Markers that share one idempotency key are recorded at most once. */
  lemma {:induction false} OnlyMatch(log: Events, test: Event -> bool, key: Key, i: nat)
    requires KeysUnique(log) && i < |log| && test(log[i])
    requires forall j :: 0 <= j < |log| && test(log[j]) ==> log[j].Key() == key
    ensures Matching(log, test) == [log[i]]
  {
    var n := |log| - 1;
    if i == n {
      forall j | 0 <= j < n ensures !test(log[j]) { assert log[j].Key() != log[i].Key(); }
      NothingMatches(log[..n], test);
    } else {
      assert log[i].Key() != log[n].Key();
      OnlyMatch(log[..n], test, key, i);
    }
  }
}
