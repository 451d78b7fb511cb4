/** What the advisor reads in each field of a lead: whose value it is, as what text, and when a
    destination is only a preference. */
module LeadTexts {
  import opened Prelude
  import opened Schemas
  import opened Slots
  import opened Completeness
  import opened Concepts
  import opened LeadPayload
  import opened TurnDecisions
  import opened AdvisorView

  // ---- Whose value a field carries ----

  /** Entry `i` lists a slot of the concept that has something to say, and no entry of the concept
      before it does. */
  predicate FirstToSay(tables: FieldTables, slots: SlotMap, concept: Concept, i: nat)
    requires i < |tables.concepts|
  {
    && tables.concepts[i].concept == concept && Serialize(Get(slots, tables.concepts[i].slot)).Some?
    && forall j: nat :: j < i && tables.concepts[j].concept == concept ==> Serialize(Get(slots, tables.concepts[j].slot)).None?
  }

  function AsWish(text: string): string {
    "Sin destino definido — busca: " + text
  }

  /** The text of a slot's value: bare for a concrete slot, and marked as a wish for an escape. */
  predicate ReadsAs(tables: FieldTables, slots: SlotMap, slot: SlotName, text: string) {
    var said := Serialize(Get(slots, slot));
    && said.Some?
    && text == if slot in tables.escapes then AsWish(said.value) else said.value
  }

  predicate SaidFirst(tables: FieldTables, slots: SlotMap, concept: Concept, i: nat, text: string)
    requires i < |tables.concepts|
  {
    FirstToSay(tables, slots, concept, i) && ReadsAs(tables, slots, tables.concepts[i].slot, text)
  }

  lemma WinnerReads(tables: FieldTables, slots: SlotMap, i: nat)
    requires HasAllIds(tables) && i < |tables.concepts| && Wins(tables, slots, i)
    ensures tables.concepts[i].concept in tables.fieldIds
    ensures var f := FieldOf(tables, slots, i);
            && f.fieldId == tables.fieldIds[tables.concepts[i].concept]
            && SaidFirst(tables, slots, tables.concepts[i].concept, i, f.text)
  {
    assert tables.concepts[i] in tables.concepts;
  }

  /** A concept's field carries a text if and only if that is how the first of its slots with
      something to say reads. */
  lemma FieldTextExactly(tables: FieldTables, slots: SlotMap, concept: Concept, text: string)
    requires HasAllIds(tables) && InjectiveIds(tables) && concept in tables.fieldIds
    ensures FieldValue(tables.fieldIds[concept], text) in CustomFields(tables, slots)
            <==> exists i: nat :: i < |tables.concepts| && SaidFirst(tables, slots, concept, i, text)
  {
    var f := FieldValue(tables.fieldIds[concept], text);
    FieldsAreWon(tables, slots, |tables.concepts|, f);
    if f in CustomFields(tables, slots) {
      var i :| 0 <= i < |tables.concepts| && Wins(tables, slots, i) && FieldOf(tables, slots, i) == f;
      WinnerReads(tables, slots, i);
    }
    if i: nat :| i < |tables.concepts| && SaidFirst(tables, slots, concept, i, text) {
      assert Wins(tables, slots, i);
      WinnerReads(tables, slots, i);
    }
  }

  // ---- The destination ----

  predicate Concrete(slots: SlotMap, trip: TripType) {
    Serialize(Get(slots, TripSlot(Destino, trip))).Some?
  }

  function Wish(slots: SlotMap, trip: TripType): Option<string> {
    match Serialize(Get(slots, TripSlot(Experiencia, trip)))
    case None => None
    case Some(text) => Some(AsWish(text))
  }

  /** How the destination reads: the first concrete one, or else the first experience wanted. */
  function DestinationText(slots: SlotMap): Option<string> {
    if Concrete(slots, Cruise) then Serialize(Get(slots, TripSlot(Destino, Cruise)))
    else if Concrete(slots, Europe) then Serialize(Get(slots, TripSlot(Destino, Europe)))
    else if Concrete(slots, Asia) then Serialize(Get(slots, TripSlot(Destino, Asia)))
    else if Wish(slots, Europe).Some? then Wish(slots, Europe)
    else Wish(slots, Asia)
  }

  /** The first five entries, and only they, are the destination's: concrete ones by trip, then
      the experiences wanted. */
  ghost predicate DestinationFirst(table: seq<Entry>) {
    && |table| >= 5
    && table[0].slot == TripSlot(Destino, Cruise) && table[1].slot == TripSlot(Destino, Europe)
    && table[2].slot == TripSlot(Destino, Asia)
    && table[3].slot == TripSlot(Experiencia, Europe) && table[4].slot == TripSlot(Experiencia, Asia)
    && forall i :: 0 <= i < |table| ==> (table[i].concept == DESTINO <==> i < 5)
  }

  lemma ShippedDestinationFirst()
    ensures DestinationFirst(SLOT_CONCEPTS)
  {
    forall i | 0 <= i < |SLOT_CONCEPTS| ensures SLOT_CONCEPTS[i].concept == DESTINO <==> i < 5 {
      EscapesComeLast(i);
    }
    Listed(Destino, Cruise);
    Listed(Destino, Europe);
    Listed(Destino, Asia);
    Listed(Experiencia, Europe);
    Listed(Experiencia, Asia);
  }

  predicate MarksExperiences(tables: FieldTables) {
    tables.escapes == {TripSlot(Experiencia, Europe), TripSlot(Experiencia, Asia)}
  }

  lemma DestinationSaid(tables: FieldTables, slots: SlotMap, i: nat, text: string)
    requires DestinationFirst(tables.concepts) && MarksExperiences(tables) && i < |tables.concepts|
    requires SaidFirst(tables, slots, DESTINO, i, text)
    ensures DestinationText(slots) == Some(text)
  {
    var table := tables.concepts;
    assert i < 5;
    assert forall j: nat :: j < i ==> table[j].concept == DESTINO;
    assert i > 0 ==> Serialize(Get(slots, table[0].slot)).None?;
    assert i > 1 ==> Serialize(Get(slots, table[1].slot)).None?;
    assert i > 2 ==> Serialize(Get(slots, table[2].slot)).None?;
    assert i > 3 ==> Serialize(Get(slots, table[3].slot)).None?;
  }

  lemma SomethingIsFirst(tables: FieldTables, slots: SlotMap) returns (i: nat)
    requires DestinationFirst(tables.concepts) && DestinationText(slots).Some?
    ensures i < |tables.concepts| && FirstToSay(tables, slots, DESTINO, i)
  {
    i := if Concrete(slots, Cruise) then 0 else if Concrete(slots, Europe) then 1 else if Concrete(slots, Asia) then 2
         else if Serialize(Get(slots, TripSlot(Experiencia, Europe))).Some? then 3 else 4;
  }

  /** On the shipped tables the destination field carries the first concrete destination as it was
      given; it carries a wish, marked as one, if and only if there is no concrete one and some
      experience was wanted; and it is left out if and only if there is neither. */
  lemma DestinationExactly(tables: FieldTables, slots: SlotMap, text: string)
    requires tables.concepts == SLOT_CONCEPTS && MarksExperiences(tables)
    requires HasAllIds(tables) && InjectiveIds(tables) && DESTINO in tables.fieldIds
    ensures FieldValue(tables.fieldIds[DESTINO], text) in CustomFields(tables, slots) <==> DestinationText(slots) == Some(text)
  {
    ShippedDestinationFirst();
    FieldTextExactly(tables, slots, DESTINO, text);
    if i: nat :| i < |tables.concepts| && SaidFirst(tables, slots, DESTINO, i, text) {
      DestinationSaid(tables, slots, i, text);
    } else if DestinationText(slots) == Some(text) {
      var i := SomethingIsFirst(tables, slots);
      var shown := if tables.concepts[i].slot in tables.escapes
                   then AsWish(Serialize(Get(slots, tables.concepts[i].slot)).value)
                   else Serialize(Get(slots, tables.concepts[i].slot)).value;
      assert SaidFirst(tables, slots, DESTINO, i, shown);
      DestinationSaid(tables, slots, i, shown);
    }
  }

  // ---- The fields of the account ----

  /** The account's field for what a slot asks about, whatever the trip. */
  function AccountField(topic: Topic): int {
    match topic
    case Destino => 1112708
    case Servicios => 1112712
    case Fechas => 1112714
    case Duracion => 1112716
    case Pasajeros => 1112718
    case CiudadSalida => 1112720
    case NivelHospedaje => 1112722
    case Vuelos => 1112724
    case Ocasion => 1112726
    case Pasaporte => 1112730
    case Presupuesto => 1114102
    case Cabinas => 1114110
    case TipoCabina => 1114112
    case Experiencia => 1114114
  }

  /** Slots that share their concept with no other slot of the trip. */
  predicate HasOwnField(trip: TripType, topic: Topic) {
    Collects(trip, topic) && topic != Destino && (topic == Experiencia ==> trip == Cruise)
  }

  lemma MeaningIsOwn(trip: TripType, topic: Topic, other: Topic)
    requires HasOwnField(trip, topic) && MeaningOf(TripSlot(other, trip)) == MeaningOf(TripSlot(topic, trip))
    ensures other == topic
  {
  }

  predicate OfTrip(trip: TripType, name: SlotName) {
    name == NombreCliente || (name.TripSlot? && name.trip == trip)
  }

  /** Only the name and slots of one trip are filled. */
  predicate OneTrip(trip: TripType, slots: SlotMap) {
    forall n :: n in slots ==> OfTrip(trip, n)
  }

  lemma OwnSlotsAreOneTrip(trip: TripType, slots: SlotMap)
    requires OwnSlots(SHIPPED.For(trip), slots)
    ensures OneTrip(trip, slots)
  {
    forall n | n in slots ensures OfTrip(trip, n) {
      assert Named(SHIPPED.For(trip), n);
      var s :| s in SHIPPED.For(trip) && s.name == n;
      ShippedRules(trip, s);
    }
  }

  /** Of a concept's entries only the trip's own slot can have something to say. */
  lemma OwnEntry(table: seq<Entry>, trip: TripType, topic: Topic, slots: SlotMap, i: nat)
    requires Truthful(table) && HasOwnField(trip, topic) && OneTrip(trip, slots) && i < |table|
    requires Some(table[i].concept) == MeaningOf(TripSlot(topic, trip)) && Get(slots, table[i].slot) != Null
    ensures table[i].slot == TripSlot(topic, trip)
  {
    assert OfTrip(trip, table[i].slot);
    MeaningIsOwn(trip, topic, table[i].slot.topic);
  }

  lemma OnlyOwnReads(tables: FieldTables, trip: TripType, topic: Topic, slots: SlotMap, i: nat, text: string)
    requires Truthful(tables.concepts) && MarksExperiences(tables) && i < |tables.concepts|
    requires HasOwnField(trip, topic) && OneTrip(trip, slots)
    requires SaidFirst(tables, slots, MeaningOf(TripSlot(topic, trip)).value, i, text)
    ensures Serialize(Get(slots, TripSlot(topic, trip))) == Some(text)
  {
    OwnEntry(tables.concepts, trip, topic, slots, i);
  }

  lemma OwnReads(tables: FieldTables, trip: TripType, topic: Topic, slots: SlotMap) returns (first: nat)
    requires Covers(tables.concepts, trip) && MarksExperiences(tables)
    requires HasOwnField(trip, topic) && OneTrip(trip, slots) && Serialize(Get(slots, TripSlot(topic, trip))).Some?
    ensures first < |tables.concepts|
    ensures SaidFirst(tables, slots, MeaningOf(TripSlot(topic, trip)).value, first, Serialize(Get(slots, TripSlot(topic, trip))).value)
  {
    var own: nat :| own < |tables.concepts| && tables.concepts[own].slot == TripSlot(topic, trip);
    assert Speaks(tables, slots, own);
    first := SomeoneWins(tables, slots, own);
    OwnEntry(tables.concepts, trip, topic, slots, first);
  }

  lemma OwnConceptHasId(tables: FieldTables, trip: TripType, topic: Topic)
    requires Covers(tables.concepts, trip) && HasAllIds(tables) && Collects(trip, topic)
    ensures MeaningOf(TripSlot(topic, trip)).value in tables.fieldIds
  {
    var own: nat :| own < |tables.concepts| && tables.concepts[own].slot == TripSlot(topic, trip);
    assert tables.concepts[own] in tables.concepts;
  }

  lemma OwnFieldReads(tables: FieldTables, trip: TripType, topic: Topic, slots: SlotMap, text: string)
    requires Covers(tables.concepts, trip) && MarksExperiences(tables) && HasAllIds(tables) && InjectiveIds(tables)
    requires HasOwnField(trip, topic) && OneTrip(trip, slots)
    ensures var concept := MeaningOf(TripSlot(topic, trip)).value;
            && concept in tables.fieldIds
            && (FieldValue(tables.fieldIds[concept], text) in CustomFields(tables, slots)
                <==> Serialize(Get(slots, TripSlot(topic, trip))) == Some(text))
  {
    var concept := MeaningOf(TripSlot(topic, trip)).value;
    OwnConceptHasId(tables, trip, topic);
    FieldTextExactly(tables, slots, concept, text);
    if i: nat :| i < |tables.concepts| && SaidFirst(tables, slots, concept, i, text) {
      OnlyOwnReads(tables, trip, topic, slots, i, text);
    } else if Serialize(Get(slots, TripSlot(topic, trip))) == Some(text) {
      var first := OwnReads(tables, trip, topic, slots);
    }
  }

  /** Everything a conversation of one trip captured reads in its own field of the account exactly as
      it was given: no field carries another slot's value. */
  lemma AnswersLandInTheirFields(trip: TripType, topic: Topic, slots: SlotMap, text: string)
    requires HasOwnField(trip, topic) && OwnSlots(SHIPPED.For(trip), slots)
    ensures var tables := TopViajesTables(SLOT_CONCEPTS, EscapeSlotNames(SHIPPED));
            && HasAllIds(tables)
            && (FieldValue(AccountField(topic), text) in CustomFields(tables, slots)
                <==> Serialize(Get(slots, TripSlot(topic, trip))) == Some(text))
  {
    TopViajesFields(SLOT_CONCEPTS, EscapeSlotNames(SHIPPED));
    ShippedEscapes();
    ShippedTableCovers(trip);
    OwnSlotsAreOneTrip(trip, slots);
    OwnFieldReads(TopViajesTables(SLOT_CONCEPTS, EscapeSlotNames(SHIPPED)), trip, topic, slots, text);
    FieldOfTopic(trip, topic);
  }

  lemma FieldOfTopic(trip: TripType, topic: Topic)
    requires Collects(trip, topic)
    ensures MeaningOf(TripSlot(topic, trip)).Some?
    ensures topic != Experiencia || trip == Cruise ==> TopViajesField(MeaningOf(TripSlot(topic, trip)).value) == AccountField(topic)
  {
  }

  /** The destination a conversation of one trip reads as. */
  function OwnDestination(trip: TripType, slots: SlotMap): Option<string> {
    if Concrete(slots, trip) || trip == Cruise then Serialize(Get(slots, TripSlot(Destino, trip))) else Wish(slots, trip)
  }

  lemma OwnDestinationIsRead(trip: TripType, slots: SlotMap)
    requires OneTrip(trip, slots)
    ensures DestinationText(slots) == OwnDestination(trip, slots)
  {
    assert forall t: TripType :: t != trip ==> !OfTrip(trip, TripSlot(Destino, t)) && !OfTrip(trip, TripSlot(Experiencia, t));
    match trip
    case Cruise =>
    case Europe =>
    case Asia =>
  }

  /** The account's destination field is a place if and only if one was given, and otherwise the
      experience wanted, marked as a wish. */
  lemma DestinationLandsInItsField(trip: TripType, slots: SlotMap, text: string)
    requires OwnSlots(SHIPPED.For(trip), slots)
    ensures var tables := TopViajesTables(SLOT_CONCEPTS, EscapeSlotNames(SHIPPED));
            && HasAllIds(tables)
            && (FieldValue(AccountField(Destino), text) in CustomFields(tables, slots) <==> OwnDestination(trip, slots) == Some(text))
  {
    TopViajesFields(SLOT_CONCEPTS, EscapeSlotNames(SHIPPED));
    ShippedEscapes();
    DestinationExactly(TopViajesTables(SLOT_CONCEPTS, EscapeSlotNames(SHIPPED)), slots, text);
    OwnSlotsAreOneTrip(trip, slots);
    OwnDestinationIsRead(trip, slots);
  }

  // ---- Texts ----

  predicate AllSpace(s: string) {
    forall i :: 0 <= i < |s| ==> IsSpace(s[i])
  }

  lemma MoreSpace(c: char, s: string)
    requires IsSpace(c) && AllSpace(s)
    ensures AllSpace([c] + s) && AllSpace(s + [c])
  {
  }

  lemma {:induction false} LeftStripped(s: string) returns (left: string)
    ensures AllSpace(left) && s == left + StripLeft(s)
  {
    if s != "" && IsSpace(s[0]) {
      var rest := LeftStripped(s[1..]);
      left := [s[0]] + rest;
      MoreSpace(s[0], rest);
      assert s == [s[0]] + s[1..];
    } else {
      left := "";
    }
  }

  lemma {:induction false} RightStripped(s: string) returns (right: string)
    ensures AllSpace(right) && s == StripRight(s) + right
  {
    if s != "" && IsSpace(s[|s| - 1]) {
      var rest := RightStripped(s[..|s| - 1]);
      right := rest + [s[|s| - 1]];
      MoreSpace(s[|s| - 1], rest);
      assert s == s[..|s| - 1] + [s[|s| - 1]];
    } else {
      right := "";
    }
  }

  /** `shown` is the text without the white space around it. */
  ghost predicate Trims(text: string, shown: string) {
    && (shown != "" ==> !IsSpace(shown[0]) && !IsSpace(shown[|shown| - 1]))
    && exists left, right :: AllSpace(left) && AllSpace(right) && text == left + shown + right
  }

  lemma StripTrims(text: string)
    ensures Trims(text, Strip(text))
  {
    var left := LeftStripped(text);
    var right := RightStripped(StripLeft(text));
    assert text == left + Strip(text) + right;
    if Strip(text) != "" {
      assert Strip(text)[0] == StripLeft(text)[0];
    }
  }

  /** A text reads trimmed, and is left out if and only if it is all white space. */
  lemma TextReadsTrimmed(text: string)
    ensures Serialize(Text(text)).None? <==> AllSpace(text)
    ensures Serialize(Text(text)).Some? ==> Serialize(Text(text)).value != "" && Trims(text, Serialize(Text(text)).value)
  {
    StripTrims(text);
    var left, right :| AllSpace(left) && AllSpace(right) && text == left + Strip(text) + right;
    if Strip(text) == "" {
      assert text == left + right;
    } else {
      assert text[|left|] == Strip(text)[0];
    }
  }

  /** A budget reads as left to the advisor if and only if it is; otherwise as its amount, trimmed. */
  lemma BudgetReads(value: Value)
    requires FitsKind(BudgetField, value) && value != Null && BudgetSatisfied(value)
    ensures var defers, amount := Get(value.parts, DeferToAdvisor) == Truth(true), Get(value.parts, Amount);
            && (defers ==> Serialize(value) == Some("Prefiere revisarlo con un asesor"))
            && (!defers ==> amount.Text? && Serialize(value) == Serialize(amount))
  {
    assert Adults !in value.parts && MinorsMentioned !in value.parts && MinorAges !in value.parts;
    assert value.parts.Keys * {Adults, MinorsMentioned, MinorAges} == {};
    assert Amount in value.parts.Keys * {Amount, DeferToAdvisor} || DeferToAdvisor in value.parts.Keys * {Amount, DeferToAdvisor};
  }

  function Grown(adults: int): string {
    Decimal(adults) + if adults == 1 then " adulto" else " adultos"
  }

  /** How the minors read, if there are any. */
  function Young(mentioned: bool, ages: seq<int>): Option<string> {
    if |ages| == 1 then Some(Decimal(1) + " menor" + " (" + Decimal(ages[0]) + ")")
    else if |ages| > 1 then Some(Decimal(|ages|) + " menores" + " (" + Join(AgeTexts(ages), ", ") + ")")
    else if mentioned then Some("menores (edades sin especificar)")
    else None
  }

  function AgesOf(value: Value): seq<int> {
    if value.Ages? then value.ages else []
  }

  lemma MinorsRead(mentioned: Value, ages: Value)
    ensures MinorsPart(mentioned, ages) ==
            match Young(mentioned == Truth(true), AgesOf(ages)) case None => [] case Some(text) => [text]
  {
    if |AgesOf(ages)| == 1 {
      assert AgeTexts(ages.ages) == [Decimal(ages.ages[0])];
    }
  }

  lemma Joined(a: string, b: string, separator: string)
    ensures Join([a], separator) == a && Join([a, b], separator) == a + separator + b
  {
    assert [a, b][..1] == [a];
  }

  /** The passengers read as so many adults, and then the minors: how many with their ages, or only
      that there are some. */
  lemma PassengersRead(value: Value)
    requires FitsKind(PassengersField, value) && value != Null && PassengersSatisfied(value)
    ensures var grown := Grown(Get(value.parts, Adults).number);
            Serialize(value) ==
              match Young(Get(value.parts, MinorsMentioned) == Truth(true), AgesOf(Get(value.parts, MinorAges)))
              case None => Some(grown)
              case Some(young) => Some(grown + ", " + young)
  {
    assert Adults in value.parts.Keys * {Adults, MinorsMentioned, MinorAges};
    var grown := Grown(Get(value.parts, Adults).number);
    MinorsRead(Get(value.parts, MinorsMentioned), Get(value.parts, MinorAges));
    assert AdultsPart(Get(value.parts, Adults)) == [grown];
    assert grown != "";
    match Young(Get(value.parts, MinorsMentioned) == Truth(true), AgesOf(Get(value.parts, MinorAges)))
    case None => Joined(grown, "", SEPARATOR);
    case Some(young) =>
      Joined(grown, young, SEPARATOR);
      assert [grown] + [young] == [grown, young];
  }

  // ---- Numbers ----

  function Digit(c: char): nat {
    if '0' <= c <= '9' then (c as int) - ('0' as int) else 0
  }

  function Number(text: string): nat {
    if text == "" then 0 else 10 * Number(text[..|text| - 1]) + Digit(text[|text| - 1])
  }

  /** A count or an age reads back as itself. */
  lemma {:induction false} DecimalReadsBack(n: nat)
    ensures Number(Decimal(n)) == n
  {
    assert "0123456789"[n % 10] as int == '0' as int + n % 10;
    if n >= 10 {
      DecimalReadsBack(n / 10);
      assert Decimal(n)[..|Decimal(n)| - 1] == Decimal(n / 10);
    }
  }
}
