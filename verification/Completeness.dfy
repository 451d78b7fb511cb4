/** Which slots are complete, which is still required, and which to ask next. */
module Completeness {
  import opened Prelude
  import opened Schemas
  import opened Slots

  function BudgetSatisfied(value: Value): bool {
    value.Nested? && (Get(value.parts, Amount) != Null || Get(value.parts, DeferToAdvisor) == Truth(true))
  }

  function PassengersSatisfied(value: Value): bool {
    value.Nested? && Get(value.parts, Adults) != Null
  }

  predicate IsSatisfied(slot: SlotSpec, slots: SlotMap) {
    var value := Get(slots, slot.name);
    match slot.rule
    case Plain => value != Null
    case Destination => value != Null || (slot.escapeSlot.Some? && Get(slots, slot.escapeSlot.value) != Null)
    case BudgetRule => BudgetSatisfied(value)
    case PassengersRule => PassengersSatisfied(value)
  }

  predicate Unmet(s: SlotSpec, slots: SlotMap) {
    s.required && !IsSatisfied(s, slots)
  }

  /** The first required slot, in flow order, that is not satisfied. */
  function NextRequiredSlot(schema: Schema, slots: SlotMap): (r: Option<SlotSpec>)
    ensures r.None? <==> forall s :: s in schema ==> !Unmet(s, slots)
    ensures r.Some? ==> exists i :: 0 <= i < |schema| && schema[i] == r.value && Unmet(schema[i], slots)
                                    && forall j :: 0 <= j < i ==> !Unmet(schema[j], slots)
  {
    if schema == [] then None
    else
      assert schema[0] in schema;
      if schema[0].required && !IsSatisfied(schema[0], slots) then Some(schema[0])
      else
        var r := NextRequiredSlot(schema[1..], slots);
        assert forall i :: 0 <= i < |schema| - 1 ==> schema[1..][i] == schema[i + 1];
        r
  }

  /** A slot the flow still has to ask about. */
  predicate StillToAsk(s: SlotSpec, slots: SlotMap, asked: set<SlotName>, pending: set<SlotName>) {
    && s.askable
    && !IsSatisfied(s, slots)
    && (if s.required then s.name !in pending else s.name !in asked)
  }

  /** The next slot to ask in flow order; `None` means nothing askable is left. */
  function NextSlotToAsk(schema: Schema, slots: SlotMap, asked: set<SlotName>, pending: set<SlotName>): (r: Option<SlotSpec>)
    ensures r.None? <==> forall s :: s in schema ==> !StillToAsk(s, slots, asked, pending)
    ensures r.Some? ==> exists i :: 0 <= i < |schema| && schema[i] == r.value && StillToAsk(schema[i], slots, asked, pending)
                                    && forall j :: 0 <= j < i ==> !StillToAsk(schema[j], slots, asked, pending)
  {
    if schema == [] then None
    else
      var s := schema[0];
      assert s in schema;
      var r := NextSlotToAsk(schema[1..], slots, asked, pending);
      assert forall i :: 0 <= i < |schema| - 1 ==> schema[1..][i] == schema[i + 1];
      if !s.askable then r
      else if IsSatisfied(s, slots) then r
      else if s.required then
        if s.name !in pending then Some(s) else r
      else if s.name !in asked then Some(s)
      else r
  }

  // ---- What a merge does to satisfaction ----

  /** Typed extraction: a value fits the kind of its slot. */
  predicate FitsKind(kind: FieldKind, v: Value) {
    match kind
    case TextField => v == Null || v.Text?
    case BudgetField =>
      v == Null || (v.Nested? && (forall p :: p in v.parts ==>
        match p
        case Amount => v.parts[p] == Null || v.parts[p].Text?
        case DeferToAdvisor => v.parts[p] == Null || v.parts[p].Truth?
        case _ => false))
    case PassengersField =>
      v == Null || (v.Nested? && (forall p :: p in v.parts ==>
        match p
        case Adults => v.parts[p] == Null || v.parts[p].Whole?
        case MinorsMentioned => v.parts[p] == Null || v.parts[p].Truth?
        case MinorAges => v.parts[p] == Null || v.parts[p].Ages?
        case _ => false))
  }

  /** Slots that the budget and passenger models accept: re-validating them never raises. */
  predicate WellTyped(schema: Schema, slots: SlotMap) {
    forall s :: s in schema ==> FitsKind(s.kind, Get(slots, s.name))
  }

  lemma MergeKeepsTypes(schema: Schema, existing: SlotMap, filled: SlotMap)
    requires WellTyped(schema, existing) && WellTyped(schema, filled)
    ensures WellTyped(schema, MergeSlots(existing, filled))
  {
    forall s | s in schema ensures FitsKind(s.kind, Get(MergeSlots(existing, filled), s.name)) {
      MergedAt(existing, filled, s.name);
      assert FitsKind(s.kind, Get(existing, s.name)) && FitsKind(s.kind, Get(filled, s.name));
    }
  }

  predicate Named(schema: Schema, name: SlotName) {
    exists s :: s in schema && s.name == name
  }

  /** Only slots of the descriptor are filled: extraction has a field for each and no others. */
  predicate OwnSlots(schema: Schema, slots: SlotMap) {
    forall n :: n in slots ==> Named(schema, n)
  }

  lemma MergeKeepsOwn(schema: Schema, existing: SlotMap, filled: SlotMap)
    requires OwnSlots(schema, existing) && OwnSlots(schema, filled)
    ensures OwnSlots(schema, MergeSlots(existing, filled))
  {
    forall n | n in MergeSlots(existing, filled) ensures Named(schema, n) {
      MergedAt(existing, filled, n);
      assert n in existing || n in filled;
    }
  }

  /** The new turn takes back a budget that rested only on "review it with an advisor". */
  predicate RevokesBudget(existing: SlotMap, filled: SlotMap, name: SlotName) {
    var older, newer := Get(existing, name), Get(filled, name);
    && older.Nested? && newer.Nested?
    && Get(older.parts, Amount) == Null && Get(older.parts, DeferToAdvisor) == Truth(true)
    && Get(newer.parts, Amount) == Null && Get(newer.parts, DeferToAdvisor) == Truth(false)
  }

  /** A merge never un-satisfies a slot, with one exact exception: a revoked budget. */
  lemma SatisfactionSurvivesMerge(s: SlotSpec, existing: SlotMap, filled: SlotMap)
    requires SpecOk(s) && IsSatisfied(s, existing)
    requires FitsKind(s.kind, Get(existing, s.name)) && FitsKind(s.kind, Get(filled, s.name))
    ensures IsSatisfied(s, MergeSlots(existing, filled))
            <==> !(s.rule == BudgetRule && RevokesBudget(existing, filled, s.name))
  {
    MergedAt(existing, filled, s.name);
    if s.rule == Destination && s.escapeSlot.Some? {
      MergedAt(existing, filled, s.escapeSlot.value);
    }
  }
}
