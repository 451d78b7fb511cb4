/** What the advisor finds on the lead of any conversation the bot can reach: a readable,
    unambiguous note, and every captured requirement among the custom fields. */
module AdvisorView {
  import opened Prelude
  import opened Schemas
  import opened Slots
  import opened Completeness
  import opened Conversations
  import opened TurnInvariants
  import opened Concepts
  import opened HandoffNotes
  import LeadPayload

  /** The topics a shipped descriptor may require. */
  predicate MayBeRequired(topic: Topic, trip: TripType) {
    topic in {Destino, Fechas, Pasajeros, Presupuesto} || (topic == Duracion && trip != Cruise)
  }

  /** A shipped slot is the customer's name, or one of its own trip's. */
  predicate NamedFor(trip: TripType, s: SlotSpec) {
    || s.name == NombreCliente
    || (s.name.TripSlot? && s.name.trip == trip && (s.required ==> MayBeRequired(s.name.topic, trip)))
  }

  lemma NamesInCruise(i: nat)
    requires i < |CRUISE_SCHEMA|
    ensures NamedFor(Cruise, CRUISE_SCHEMA[i])
  {
  }

  lemma NamesInContinent(trip: TripType, i: nat)
    requires trip != Cruise && i < |ContinentSchema(trip)|
    ensures NamedFor(trip, ContinentSchema(trip)[i])
  {
  }

  lemma ShippedNames(trip: TripType, s: SlotSpec)
    requires s in SHIPPED.For(trip)
    ensures NamedFor(trip, s)
  {
    var i :| 0 <= i < |SHIPPED.For(trip)| && SHIPPED.For(trip)[i] == s;
    if trip == Cruise {
      NamesInCruise(i);
    } else {
      NamesInContinent(trip, i);
    }
  }

  // ---- The note ----

  lemma ListedLabel(table: seq<Entry>, i: nat, slot: SlotName)
    requires Truthful(table) && i < |table| && table[i].slot == slot
    ensures LabelFor(table, slot) == Readable(ConceptLabel(MeaningOf(slot).value))
  {
    LookupIsMeaning(table, slot);
  }

  lemma NameLabel(table: seq<Entry>)
    requires Truthful(table)
    ensures LabelFor(table, NombreCliente) == Readable(CUSTOMER_NAME_LABEL)
  {
    LookupIsMeaning(table, NombreCliente);
  }

  /** A table that knows every slot the trip collects. */
  ghost predicate Covers(table: seq<Entry>, trip: TripType) {
    && Truthful(table)
    && forall topic :: Collects(trip, topic) ==> exists i :: 0 <= i < |table| && table[i].slot == TripSlot(topic, trip)
  }

  lemma ShippedTableCovers(trip: TripType)
    ensures Covers(SLOT_CONCEPTS, trip)
  {
    ShippedTableTruthful();
    forall topic | Collects(trip, topic)
      ensures exists i :: 0 <= i < |SLOT_CONCEPTS| && SLOT_CONCEPTS[i].slot == TripSlot(topic, trip)
    {
      Listed(topic, trip);
    }
  }

  /** The label of a slot that can be given up on, in closed form. */
  function RequiredLabel(name: SlotName): string {
    if name.TripSlot? then
      match name.topic
      case Destino => "el destino"
      case Fechas => "las fechas"
      case Duracion => "la duración"
      case Pasajeros => "los pasajeros"
      case _ => "el presupuesto"
    else CUSTOMER_NAME_LABEL
  }

  lemma RequiredLabelsDiffer(trip: TripType, a: SlotName, b: SlotName)
    requires a != b
    requires a == NombreCliente || (a.TripSlot? && a.trip == trip && MayBeRequired(a.topic, trip))
    requires b == NombreCliente || (b.TripSlot? && b.trip == trip && MayBeRequired(b.topic, trip))
    ensures RequiredLabel(a) != RequiredLabel(b)
  {
    var x, y := RequiredLabel(a), RequiredLabel(b);
    assert |x| == |y| ==> {x, y} == {"el destino", "las fechas"};
    if |x| == |y| {
      assert "el destino"[0] != "las fechas"[0];
    }
  }

  lemma PendingName(c: Conversation, name: SlotName)
    requires Usable(SHIPPED) && Sound(SHIPPED, c) && name in c.pending
    ensures c.tripType.Some?
    ensures name == NombreCliente || (name.TripSlot? && name.trip == c.tripType.value && MayBeRequired(name.topic, name.trip))
  {
    PendingIsRequired(SHIPPED, c, name);
    var s :| s in SHIPPED.For(c.tripType.value) && s.name == name && s.required;
    ShippedNames(c.tripType.value, s);
  }

  lemma PendingLabel(table: seq<Entry>, trip: TripType, name: SlotName)
    requires Covers(table, trip)
    requires name == NombreCliente || (name.TripSlot? && name.trip == trip && MayBeRequired(name.topic, trip))
    ensures LabelFor(table, name) == Readable(RequiredLabel(name))
  {
    if name == NombreCliente {
      NameLabel(table);
    } else {
      var i :| 0 <= i < |table| && table[i].slot == name;
      ListedLabel(table, i, name);
    }
  }

  /** In the note of a stuck handoff every label is readable and no two are the same, in
      whatever order the given-up slots are listed. */
  lemma StuckLabelsReadable(c: Conversation, listed: seq<SlotName>)
    requires Sound(SHIPPED, c)
    requires forall i :: 0 <= i < |listed| ==> listed[i] in c.pending
    requires forall i, j :: 0 <= i < j < |listed| ==> listed[i] != listed[j]
    ensures var labels := PendingLabels(SLOT_CONCEPTS, listed);
            && ComposeHandoffNote(SLOT_CONCEPTS, Stuck, listed) == StuckNote(labels)
            && (forall i :: 0 <= i < |listed| ==> labels[i].Readable?)
            && (forall i, j :: 0 <= i < j < |listed| ==> labels[i] != labels[j])
  {
    if listed != [] {
      ShippedIsUsable();
      PendingName(c, listed[0]);
      var trip := c.tripType.value;
      ShippedTableCovers(trip);
      LabelsReadable(SLOT_CONCEPTS, c, trip, listed);
    }
  }

  lemma LabelsReadable(table: seq<Entry>, c: Conversation, trip: TripType, listed: seq<SlotName>)
    requires Usable(SHIPPED) && Sound(SHIPPED, c) && c.tripType == Some(trip) && Covers(table, trip)
    requires forall i :: 0 <= i < |listed| ==> listed[i] in c.pending
    requires forall i, j :: 0 <= i < j < |listed| ==> listed[i] != listed[j]
    ensures var labels := PendingLabels(table, listed);
            && (forall i :: 0 <= i < |listed| ==> labels[i] == Readable(RequiredLabel(listed[i])))
            && (forall i, j :: 0 <= i < j < |listed| ==> labels[i] != labels[j])
  {
    forall i | 0 <= i < |listed| ensures PendingLabels(table, listed)[i] == Readable(RequiredLabel(listed[i])) {
      PendingName(c, listed[i]);
      PendingLabel(table, trip, listed[i]);
    }
    forall i, j | 0 <= i < j < |listed| ensures RequiredLabel(listed[i]) != RequiredLabel(listed[j]) {
      PendingName(c, listed[i]);
      PendingName(c, listed[j]);
      RequiredLabelsDiffer(trip, listed[i], listed[j]);
    }
  }

  // ---- The custom fields ----

  /** The value satisfies its slot but consists of blank text only. */
  predicate RestsOnBlank(s: SlotSpec, v: Value) {
    match s.kind
    case TextField => v.Text? && IsBlank(v.text)
    case BudgetField =>
      v.Nested? && Get(v.parts, DeferToAdvisor) != Truth(true)
      && Get(v.parts, Amount).Text? && IsBlank(Get(v.parts, Amount).text)
    case PassengersField => false
  }

  lemma JoinNonEmpty(parts: seq<string>)
    requires parts != [] && parts[0] != ""
    ensures Join(parts, LeadPayload.SEPARATOR) != ""
  {
  }

  /** A value that satisfies its slot has no text exactly when it rests on blank text. */
  lemma OmittedExactlyWhenBlank(s: SlotSpec, v: Value)
    requires FitsKind(s.kind, v) && v != Null
    requires s.kind == BudgetField ==> BudgetSatisfied(v)
    requires s.kind == PassengersField ==> PassengersSatisfied(v)
    ensures LeadPayload.Serialize(v).None? <==> RestsOnBlank(s, v)
  {
    match s.kind
    case TextField =>
    case BudgetField =>
      assert Adults !in v.parts && MinorsMentioned !in v.parts && MinorAges !in v.parts;
      assert v.parts.Keys * {Adults, MinorsMentioned, MinorAges} == {};
      assert Amount in v.parts || DeferToAdvisor in v.parts;
      assert Amount in v.parts.Keys * {Amount, DeferToAdvisor} || DeferToAdvisor in v.parts.Keys * {Amount, DeferToAdvisor};
    case PassengersField =>
      assert Adults in v.parts.Keys * {Adults, MinorsMentioned, MinorAges};
      var adults := LeadPayload.AdultsPart(Get(v.parts, Adults));
      JoinNonEmpty(adults + LeadPayload.MinorsPart(Get(v.parts, MinorsMentioned), Get(v.parts, MinorAges)));
  }

  lemma EscapeAt(trip: TripType, i: nat)
    requires i < |SHIPPED.For(trip)| && SHIPPED.For(trip)[i].escapeSlot.Some?
    ensures trip != Cruise && i == 1
  {
  }

  lemma DestinationOf(trip: TripType, s: SlotSpec)
    requires s in SHIPPED.For(trip) && s.escapeSlot.Some?
    ensures trip != Cruise && s == DestinationSlot(TripSlot(Destino, trip), Some(TripSlot(Experiencia, trip)))
  {
    var i :| 0 <= i < |SHIPPED.For(trip)| && SHIPPED.For(trip)[i] == s;
    EscapeAt(trip, i);
  }

  /** The slot has no value, or one that consists of blank text only. */
  predicate SaysNothing(s: SlotSpec, slots: SlotMap) {
    Get(slots, s.name) == Null || RestsOnBlank(s, Get(slots, s.name))
  }

  /** Neither the slot nor the experience it escapes to says anything. */
  predicate NothingToShow(s: SlotSpec, slots: SlotMap) {
    SaysNothing(s, slots) && (s.escapeSlot.Some? ==> SaysNothing(PassiveText(s.escapeSlot.value), slots))
  }

  predicate Shows(slots: SlotMap, name: SlotName) {
    LeadPayload.Serialize(Get(slots, name)).Some?
  }

  /** Every escape is itself a plain text slot of the descriptor. */
  predicate EscapesListed(schema: Schema) {
    forall s :: s in schema && s.escapeSlot.Some? ==> PassiveText(s.escapeSlot.value) in schema
  }

  lemma ShippedEscapesListed(trip: TripType)
    ensures EscapesListed(SHIPPED.For(trip))
  {
    forall s | s in SHIPPED.For(trip) && s.escapeSlot.Some? ensures PassiveText(s.escapeSlot.value) in SHIPPED.For(trip) {
      DestinationOf(trip, s);
      assert SHIPPED.For(trip)[2] == PassiveText(TripSlot(Experiencia, trip));
    }
  }

  /** For a satisfied slot, showing something is the contrary of saying nothing. */
  lemma ShowsUnlessNothing(schema: Schema, s: SlotSpec, slots: SlotMap)
    requires s in schema && WellFormed(schema) && EscapesListed(schema) && WellTyped(schema, slots) && IsSatisfied(s, slots)
    ensures Shows(slots, s.name) <==> !SaysNothing(s, slots)
    ensures s.escapeSlot.Some? ==> (Shows(slots, s.escapeSlot.value) <==> !SaysNothing(PassiveText(s.escapeSlot.value), slots))
  {
    assert SpecOk(s) && FitsKind(s.kind, Get(slots, s.name));
    if Get(slots, s.name) != Null {
      OmittedExactlyWhenBlank(s, Get(slots, s.name));
    }
    if s.escapeSlot.Some? {
      var e := PassiveText(s.escapeSlot.value);
      assert FitsKind(e.kind, Get(slots, e.name));
      if Get(slots, e.name) != Null {
        OmittedExactlyWhenBlank(e, Get(slots, e.name));
      }
    }
  }

  lemma ContinentEscape(trip: TripType, s: SlotSpec)
    requires s in SHIPPED.For(trip) && s.name == TripSlot(Destino, trip)
    ensures s.escapeSlot == if trip == Cruise then None else Some(TripSlot(Experiencia, trip))
  {
    DescriptorsWellFormed(trip);
    var i :| 0 <= i < |SHIPPED.For(trip)| && SHIPPED.For(trip)[i] == s;
    assert SHIPPED.For(trip)[1].name == s.name;
  }

  /** Within a trip a required slot shares its concept with its escape only. */
  lemma SharedConcept(trip: TripType, a: Topic, b: Topic)
    requires MayBeRequired(a, trip) && MeaningOf(TripSlot(a, trip)) == MeaningOf(TripSlot(b, trip))
    ensures b == a || (a == Destino && b == Experiencia && trip != Cruise)
  {
  }

  /** A listed slot that shows something, of the concept of a requirement of the same trip, is the
      required slot or its escape. */
  lemma ShownByItself(trip: TripType, s: SlotSpec, slot: SlotName)
    requires s in SHIPPED.For(trip) && s.required && s.name != NombreCliente
    requires slot.TripSlot? && slot.trip == trip && MeaningOf(slot) == MeaningOf(s.name)
    ensures slot == s.name || s.escapeSlot == Some(slot)
  {
    ShippedNames(trip, s);
    SharedConcept(trip, s.name.topic, slot.topic);
    if slot != s.name {
      ContinentEscape(trip, s);
    }
  }

  /** A required slot and its escape are both listed under its concept. */
  lemma ListedRequirement(trip: TripType, s: SlotSpec, slot: SlotName) returns (i: nat)
    requires s in SHIPPED.For(trip) && s.required && s.name != NombreCliente
    requires slot == s.name || s.escapeSlot == Some(slot)
    ensures i < |SLOT_CONCEPTS| && SLOT_CONCEPTS[i].slot == slot && MeaningOf(s.name) == Some(SLOT_CONCEPTS[i].concept)
  {
    ShippedNames(trip, s);
    if slot != s.name {
      DestinationOf(trip, s);
    }
    Listed(slot.topic, trip);
    i := IndexOf(slot.topic, trip);
    EntryMeans(i);
  }

  /** A filled slot of a requirement's concept is the required slot or its escape. */
  lemma SpeaksForItself(trip: TripType, s: SlotSpec, slots: SlotMap, i: nat)
    requires i < |SLOT_CONCEPTS| && SLOT_CONCEPTS[i].slot in slots && Some(SLOT_CONCEPTS[i].concept) == MeaningOf(s.name)
    requires s in SHIPPED.For(trip) && s.required && s.name != NombreCliente && OwnSlots(SHIPPED.For(trip), slots)
    ensures SLOT_CONCEPTS[i].slot == s.name || s.escapeSlot == Some(SLOT_CONCEPTS[i].slot)
  {
    EntryMeans(i);
    assert Named(SHIPPED.For(trip), SLOT_CONCEPTS[i].slot);
    var filled :| filled in SHIPPED.For(trip) && filled.name == SLOT_CONCEPTS[i].slot;
    ShippedNames(trip, filled);
    ShownByItself(trip, s, SLOT_CONCEPTS[i].slot);
  }

  /** On the conversation's own slots, a requirement's field is written if and only if the slot
      or its escape shows something. */
  lemma WrittenByItself(trip: TripType, tables: LeadPayload.FieldTables, s: SlotSpec, slots: SlotMap)
    requires tables.concepts == SLOT_CONCEPTS && LeadPayload.HasAllIds(tables) && LeadPayload.InjectiveIds(tables)
    requires s in SHIPPED.For(trip) && s.required && s.name != NombreCliente && OwnSlots(SHIPPED.For(trip), slots)
    ensures MeaningOf(s.name).Some? && MeaningOf(s.name).value in tables.fieldIds
    ensures LeadPayload.IsWritten(tables, slots, MeaningOf(s.name).value)
            <==> Shows(slots, s.name) || (s.escapeSlot.Some? && Shows(slots, s.escapeSlot.value))
  {
    var own := ListedRequirement(trip, s, s.name);
    assert SLOT_CONCEPTS[own] in tables.concepts;
    var concept := MeaningOf(s.name).value;
    LeadPayload.WrittenExactly(tables, slots, concept);
    if i :| LeadPayload.Speaks(tables, slots, i) && tables.concepts[i].concept == concept {
      SpeaksForItself(trip, s, slots, i);
    }
    if Shows(slots, s.name) {
      assert LeadPayload.Speaks(tables, slots, own);
    }
    if s.escapeSlot.Some? && Shows(slots, s.escapeSlot.value) {
      var e := ListedRequirement(trip, s, s.escapeSlot.value);
      assert LeadPayload.Speaks(tables, slots, e);
    }
  }

  /** A satisfied requirement (but the name, which goes to the contact) is left out of the lead
      if and only if it and its escape rest on blank text or on nothing. */
  lemma LeftOutExactly(trip: TripType, tables: LeadPayload.FieldTables, s: SlotSpec, slots: SlotMap)
    requires tables.concepts == SLOT_CONCEPTS && LeadPayload.HasAllIds(tables) && LeadPayload.InjectiveIds(tables)
    requires s in SHIPPED.For(trip) && s.required && s.name != NombreCliente && OwnSlots(SHIPPED.For(trip), slots)
    requires WellTyped(SHIPPED.For(trip), slots) && IsSatisfied(s, slots)
    ensures MeaningOf(s.name).Some? && MeaningOf(s.name).value in tables.fieldIds
    ensures !LeadPayload.IsWritten(tables, slots, MeaningOf(s.name).value) <==> NothingToShow(s, slots)
  {
    DescriptorsWellFormed(trip);
    ShippedEscapesListed(trip);
    ShowsUnlessNothing(SHIPPED.For(trip), s, slots);
    WrittenByItself(trip, tables, s, slots);
  }

  /** Whatever else was filled, a satisfied requirement with something to show has its field
      written. */
  lemma RequirementsAreWritten(trip: TripType, tables: LeadPayload.FieldTables, s: SlotSpec, slots: SlotMap)
    requires tables.concepts == SLOT_CONCEPTS && LeadPayload.HasAllIds(tables)
    requires s in SHIPPED.For(trip) && s.required && s.name != NombreCliente
    requires WellTyped(SHIPPED.For(trip), slots) && IsSatisfied(s, slots) && !NothingToShow(s, slots)
    ensures MeaningOf(s.name).Some? && MeaningOf(s.name).value in tables.fieldIds
    ensures LeadPayload.IsWritten(tables, slots, MeaningOf(s.name).value)
  {
    DescriptorsWellFormed(trip);
    ShippedEscapesListed(trip);
    ShowsUnlessNothing(SHIPPED.For(trip), s, slots);
    var i := ListedRequirement(trip, s, if Shows(slots, s.name) then s.name else s.escapeSlot.value);
    WrittenAt(tables, slots, i);
  }

  /** The name is never a lead field: it has no influence on the fields at all. */
  lemma NameIsNoField(tables: LeadPayload.FieldTables, slots: SlotMap, value: Value)
    requires Truthful(tables.concepts) && LeadPayload.HasAllIds(tables)
    ensures LeadPayload.CustomFields(tables, slots[NombreCliente := value]) == LeadPayload.CustomFields(tables, slots)
  {
    forall e | e in tables.concepts ensures e.slot != NombreCliente {
      var i :| 0 <= i < |tables.concepts| && tables.concepts[i] == e;
      assert MeaningOf(tables.concepts[i].slot).Some?;
    }
    LeadPayload.UnlistedSaysNothing(tables, slots, NombreCliente, value, |tables.concepts|);
  }

  lemma WrittenAt(tables: LeadPayload.FieldTables, slots: SlotMap, i: nat)
    requires LeadPayload.HasAllIds(tables) && LeadPayload.Speaks(tables, slots, i)
    ensures tables.concepts[i].concept in tables.fieldIds
    ensures LeadPayload.IsWritten(tables, slots, tables.concepts[i].concept)
  {
    assert tables.concepts[i] in tables.concepts;
    LeadPayload.SpokenConceptIsWritten(tables, slots, i);
  }

  /** A destination is marked as a mere preference only when no concrete one was given. */
  lemma EscapeOnlyWithoutDestination(tables: LeadPayload.FieldTables, slots: SlotMap, i: int)
    requires tables.concepts == SLOT_CONCEPTS && tables.escapes == {TripSlot(Experiencia, Europe), TripSlot(Experiencia, Asia)}
    requires LeadPayload.Wins(tables, slots, i) && SLOT_CONCEPTS[i].slot in tables.escapes
    ensures forall trip :: LeadPayload.Serialize(Get(slots, TripSlot(Destino, trip))).None?
  {
    EscapesComeLast(i);
    forall trip: TripType ensures LeadPayload.Serialize(Get(slots, TripSlot(Destino, trip))).None? {
      Listed(Destino, trip);
      var j := IndexOf(Destino, trip);
      EscapesComeLast(j);
      assert j < i && SLOT_CONCEPTS[j].concept == DESTINO == SLOT_CONCEPTS[i].concept;
      assert !LeadPayload.Speaks(tables, slots, j);
    }
  }

  lemma ShippedEscapes()
    ensures EscapeSlotNames(SHIPPED) == {TripSlot(Experiencia, Europe), TripSlot(Experiencia, Asia)}
  {
    forall trip, s | s in SHIPPED.For(trip) && s.escapeSlot.Some?
      ensures s.escapeSlot.value == TripSlot(Experiencia, trip) && trip != Cruise
    {
      DestinationOf(trip, s);
    }
    assert SHIPPED.For(Europe)[1].escapeSlot == Some(TripSlot(Experiencia, Europe));
    assert SHIPPED.For(Asia)[1].escapeSlot == Some(TripSlot(Experiencia, Asia));
  }
}
