/** What the constructor of a merge plan accepts (src/tokenshare/core/expansion.py:343-365, 586-630). */
module Plans {
  import opened Basics
  import opened Objects

  function SlotKeys(slots: seq<RequiredSlot>): seq<string> {
    seq(|slots|, i requires 0 <= i < |slots| => slots[i].slotKey)
  }

  function MappedNames(mappings: seq<OutputMapping>): seq<string> {
    seq(|mappings|, i requires 0 <= i < |mappings| => mappings[i].parentOutputName)
  }

  predicate SlotOk(slot: RequiredSlot) {
    |slot.slotKey| > 0 && slot.required && slot.missingPolicy == BLOCK_MERGE
  }

  predicate SlotsOk(slots: seq<RequiredSlot>) {
    slots != [] && (forall s :: s in slots ==> SlotOk(s)) && Distinct(SlotKeys(slots))
  }

  /** The output is merged from slots of the plan. */
  predicate MappingOk(m: OutputMapping, slotKeys: set<string>) {
    && |m.parentOutputName| > 0 && m.resolutionKind == MERGE_PLAN_OUTPUT
    && m.mergeSlotKeys != [] && forall k :: k in m.mergeSlotKeys ==> k in slotKeys
  }

  predicate MappingsOk(mappings: seq<OutputMapping>, slotKeys: set<string>) {
    mappings != [] && (forall m :: m in mappings ==> MappingOk(m, slotKeys)) && Distinct(MappedNames(mappings))
  }

  predicate PlanOk(plan: MergePlan) {
    SlotsOk(plan.requiredSlots) && MappingsOk(plan.parentOutputMapping, Elements(SlotKeys(plan.requiredSlots)))
  }

  /** The slot loop: each slot is checked and its key is new. */
  method ValidateSlots(slots: seq<RequiredSlot>) returns (r: Result<set<string>>)
    ensures r.Ok? <==> SlotsOk(slots)
    ensures r.Ok? ==> r.value == Elements(SlotKeys(slots))
  {
    if slots == [] { return Err(MalformedMergePlan); }
    var seen: set<string> := {};
    for i := 0 to |slots|
      invariant forall j :: 0 <= j < i ==> SlotOk(slots[j])
      invariant Distinct(SlotKeys(slots)[..i]) && seen == Elements(SlotKeys(slots)[..i])
    {
      assert SlotKeys(slots)[..i + 1] == SlotKeys(slots)[..i] + [slots[i].slotKey];
      OneMore(SlotKeys(slots)[..i], slots[i].slotKey);
      if !SlotOk(slots[i]) || slots[i].slotKey in seen {
        assert slots[i] in slots;
        if slots[i].slotKey in seen { RepeatInPrefix(SlotKeys(slots), i + 1); }
        return Err(MalformedMergePlan);
      }
      seen := seen + {slots[i].slotKey};
    }
    assert SlotKeys(slots)[..|slots|] == SlotKeys(slots);
    r := Ok(seen);
  }

  method ValidateMappings(mappings: seq<OutputMapping>, slotKeys: set<string>) returns (r: Result<()>)
    ensures r.Ok? <==> MappingsOk(mappings, slotKeys)
  {
    if mappings == [] { return Err(MalformedMergePlan); }
    var seen: set<string> := {};
    for i := 0 to |mappings|
      invariant forall j :: 0 <= j < i ==> MappingOk(mappings[j], slotKeys)
      invariant Distinct(MappedNames(mappings)[..i]) && seen == Elements(MappedNames(mappings)[..i])
    {
      var name := mappings[i].parentOutputName;
      assert MappedNames(mappings)[..i + 1] == MappedNames(mappings)[..i] + [name];
      OneMore(MappedNames(mappings)[..i], name);
      if !MappingOk(mappings[i], slotKeys) || name in seen {
        assert mappings[i] in mappings;
        if name in seen { RepeatInPrefix(MappedNames(mappings), i + 1); }
        return Err(MalformedMergePlan);
      }
      seen := seen + {name};
    }
    assert MappedNames(mappings)[..|mappings|] == MappedNames(mappings);
    r := Ok(());
  }

  /** `MergePlan.__post_init__`: the slots, then the mapping over their keys. */
  method ValidatePlan(plan: MergePlan) returns (r: Result<()>)
    ensures r.Ok? <==> PlanOk(plan)
  {
    var slotKeys :- ValidateSlots(plan.requiredSlots);
    r := ValidateMappings(plan.parentOutputMapping, slotKeys);
  }
}
