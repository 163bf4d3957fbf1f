/** The ledger object itself (src/tokenshare/storage/events.py:157-332): a list and a key index updated in place. */
module EventLedgers {
  import opened Basics
  import opened Ledger

  /** `index` holds exactly the recorded events, under their own keys. */
  ghost predicate Indexes(index: map<Key, Event>, log: Events) {
    && (forall i :: 0 <= i < |log| ==> log[i].Key() in index)
    && (forall k :: k in index ==> Lookup(log, k) == Some(index[k]))
  }

  lemma {:induction false} IndexAgrees(index: map<Key, Event>, log: Events, key: Key)
    requires Indexes(index, log)
    ensures key in index <==> Lookup(log, key).Some?
    ensures key in index ==> index[key] == Lookup(log, key).value
  {
    LookupFinds(log, key);
  }

  lemma {:induction false} IndexAfterAppend(index: map<Key, Event>, log: Events, event: Event)
    requires Indexes(index, log) && event.Key() !in index
    ensures Indexes(index[event.Key() := event], log + [event])
  {
    var next := log + [event];
    var grown := index[event.Key() := event];
    assert next[..|next| - 1] == log;
    forall i | 0 <= i < |next| ensures next[i].Key() in grown {
      if i < |log| { assert log[i].Key() in index; }
    }
  }

  class EventLedger {
    var events: Events
    var byKey: map<Key, Event>

    ghost predicate Valid()
      reads this
    {
      WellFormed(events) && Indexes(byKey, events)
    }

    constructor ()
      ensures Valid() && events == []
    {
      events := [];
      byKey := map[];
    }

    method Append(draft: Draft) returns (r: Result<Event>)
      requires Valid()
      modifies this
      ensures Valid()
      ensures r.Ok? <==> Ledger.Append(old(events), draft).Ok?
      ensures events == if r.Ok? then Ledger.Append(old(events), draft).value else old(events)
      ensures events == Commit(old(events), [One(draft)])
      ensures r.Ok? ==> Lookup(events, draft.key) == Some(r.value)
    {
      OneAppend(events, draft);
      IndexAgrees(byKey, events, draft.key);
      if draft.key in byKey {
        var existing := byKey[draft.key];
        if existing.Payload() != draft.payload {
          return Err(KeyConflict);
        }
        return Ok(existing);
      }
      var event := AddNew(draft);
      r := Ok(event);
    }

    /** An event with a new key. */
    method AddNew(draft: Draft) returns (event: Event)
      requires Valid() && Lookup(events, draft.key).None?
      modifies this
      ensures Valid() && event == Event(|old(events)| + 1, draft, None) && events == old(events) + [event]
      ensures Lookup(events, draft.key) == Some(event)
    {
      event := Event(|events| + 1, draft, None);
      AppendKeepsWellFormed(events, draft);
      IndexAgrees(byKey, events, draft.key);
      IndexAfterAppend(byKey, events, event);
      events := events + [event];
      byKey := byKey[draft.key := event];
      LookupUnique(events, |events| - 1);
    }

    method AppendBatch(drafts: seq<Draft>, id: BatchId) returns (r: Result<Events>)
      requires Valid()
      modifies this
      ensures Valid()
      ensures r.Ok? <==> Ledger.AppendBatch(old(events), drafts, id).Ok?
      ensures events == if r.Ok? then Ledger.AppendBatch(old(events), drafts, id).value else old(events)
      ensures events == Commit(old(events), [Batch(id, drafts)])
      ensures r.Ok? ==> |r.value| == |drafts|
      ensures r.Ok? ==> forall j :: 0 <= j < |drafts| ==> Lookup(events, drafts[j].key) == Some(r.value[j])
    {
      OneBatchAppend(events, id, drafts);
      if drafts == [] { return Err(EmptyBatch); }
      var distinct := KeysAreDistinct(drafts);
      if !distinct { return Err(DuplicateKeyInBatch); }
      var existing := RecordedDrafts(drafts);
      if |existing| == |drafts| {
        var matches := MatchesExisting(drafts, existing, id);
        if !matches { return Err(KeyConflict); }
        return Ok(existing);
      }
      if |existing| > 0 { return Err(PartialBatch); }
      var taken := BatchIdTaken(id);
      if taken { return Err(BatchIdConflict); }
      var added := AppendNew(drafts, id);
      r := Ok(added);
    }

    /** The batch once nothing stands against it: all its events are built, indexed and added. */
    method AppendNew(drafts: seq<Draft>, id: BatchId) returns (added: Events)
      requires Valid() && drafts != [] && DistinctKeys(drafts) && NoneRecorded(events, drafts) && !HasBatch(events, id)
      modifies this
      ensures Valid() && added == Stamp(|old(events)|, id, drafts) && events == old(events) + added
      ensures forall j :: 0 <= j < |drafts| ==> Lookup(events, drafts[j].key) == Some(added[j])
    {
      added := BuildBatchEvents(drafts, id);
      ghost var next := events + added;
      AppendBatchKeepsWellFormed(events, drafts, id);
      IndexNewEvents(added, next);
      events := events + added;
      forall j | 0 <= j < |drafts| ensures Lookup(events, drafts[j].key) == Some(added[j]) {
        LookupUnique(events, |events| - |added| + j);
      }
    }

    /** Puts the new events in the key index, before they are put in the list. */
    method IndexNewEvents(added: Events, ghost next: Events)
      requires next == events + added && KeysUnique(next) && Indexes(byKey, events)
      modifies this`byKey
      ensures Indexes(byKey, next)
    {
      assert events + added[..0] == events;
      for i := 0 to |added|
        invariant Indexes(byKey, events + added[..i])
      {
        ghost var prefix := events + added[..i];
        assert forall k :: 0 <= k < |prefix| ==> prefix[k] == next[k];
        assert next[|prefix|] == added[i];
        IndexAgrees(byKey, prefix, added[i].Key());
        LookupFinds(prefix, added[i].Key());
        IndexAfterAppend(byKey, prefix, added[i]);
        assert prefix + [added[i]] == events + added[..i + 1];
        byKey := byKey[added[i].Key() := added[i]];
      }
      assert events + added[..|added|] == next;
    }

    method KeysAreDistinct(drafts: seq<Draft>) returns (distinct: bool)
      ensures distinct <==> DistinctKeys(drafts)
    {
      var seen: set<Key> := {};
      for i := 0 to |drafts|
        invariant seen == set j | 0 <= j < i :: drafts[j].key
        invariant DistinctKeys(drafts[..i])
      {
        if drafts[i].key in seen { return false; }
        seen := seen + {drafts[i].key};
      }
      assert drafts[..|drafts|] == drafts;
      distinct := true;
    }

    /** The recorded events of the drafts whose keys are taken. */
    method RecordedDrafts(drafts: seq<Draft>) returns (existing: Events)
      requires Valid()
      ensures |existing| <= |drafts|
      ensures |existing| == |drafts| <==> AllRecorded(events, drafts)
      ensures |existing| == 0 <==> NoneRecorded(events, drafts)
      ensures |existing| == |drafts| ==>
        forall j :: 0 <= j < |drafts| ==> Lookup(events, drafts[j].key) == Some(existing[j])
    {
      existing := [];
      for i := 0 to |drafts|
        invariant |existing| <= i
        invariant |existing| == i <==> forall j :: 0 <= j < i ==> Lookup(events, drafts[j].key).Some?
        invariant |existing| == 0 <==> forall j :: 0 <= j < i ==> Lookup(events, drafts[j].key).None?
        invariant |existing| == i ==> forall j :: 0 <= j < i ==> Lookup(events, drafts[j].key) == Some(existing[j])
      {
        IndexAgrees(byKey, events, drafts[i].key);
        if drafts[i].key in byKey {
          existing := existing + [byKey[drafts[i].key]];
        }
      }
    }

    method MatchesExisting(drafts: seq<Draft>, existing: Events, id: BatchId) returns (matches: bool)
      requires |existing| == |drafts|
      requires forall j :: 0 <= j < |drafts| ==> Lookup(events, drafts[j].key) == Some(existing[j])
      ensures matches <==> MatchesRecorded(events, id, drafts)
    {
      for i := 0 to |drafts|
        invariant forall j :: 0 <= j < i ==>
          existing[j].Payload() == drafts[j].payload && existing[j].tag == Some(BatchTag(id, j + 1, |drafts|))
      {
        if existing[i].Payload() != drafts[i].payload || existing[i].tag != Some(BatchTag(id, i + 1, |drafts|)) {
          return false;
        }
      }
      matches := true;
    }

    method BatchIdTaken(id: BatchId) returns (taken: bool)
      ensures taken <==> HasBatch(events, id)
    {
      for i := 0 to |events|
        invariant forall k :: 0 <= k < i ==> !events[k].InBatch(id)
      {
        if events[i].InBatch(id) { return true; }
      }
      taken := false;
    }

    method BuildBatchEvents(drafts: seq<Draft>, id: BatchId) returns (added: Events)
      ensures added == Stamp(|events|, id, drafts)
    {
      added := [];
      for i := 0 to |drafts|
        invariant |added| == i
        invariant forall j :: 0 <= j < i ==> added[j] == Stamp(|events|, id, drafts)[j]
      {
        added := added + [Event(|events| + i + 1, drafts[i], Some(BatchTag(id, i + 1, |drafts|)))];
      }
    }
  }
}
