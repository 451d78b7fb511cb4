/** What each slot means, whatever trip it belongs to: the grouping shared by the custom
    fields of a lead and by the note its advisor reads. */
module Concepts {
  import opened Prelude
  import opened Schemas

  datatype Concept =
    | DESTINO | FECHA | DURACION | PASAJEROS | INVERSION | CIUDAD_SALIDA | SERVICIOS
    | NIVEL_HOSPEDAJE | VUELOS | OCASION | DOCUMENTACION | CABINAS | TIPO_CABINA
    | EXPERIENCIA_CRUCERO

  datatype Entry = Entry(slot: SlotName, concept: Concept)

  /** Slot to concept, in precedence order: concrete destinations come before the experience
      escapes. The customer's name is absent: it goes to the contact. */
  const SLOT_CONCEPTS: seq<Entry> := [
    Entry(TripSlot(Destino, Cruise), DESTINO),
    Entry(TripSlot(Destino, Europe), DESTINO),
    Entry(TripSlot(Destino, Asia), DESTINO),
    Entry(TripSlot(Experiencia, Europe), DESTINO),
    Entry(TripSlot(Experiencia, Asia), DESTINO),
    Entry(TripSlot(Fechas, Cruise), FECHA),
    Entry(TripSlot(Fechas, Europe), FECHA),
    Entry(TripSlot(Fechas, Asia), FECHA),
    Entry(TripSlot(Duracion, Europe), DURACION),
    Entry(TripSlot(Duracion, Asia), DURACION),
    Entry(TripSlot(Pasajeros, Cruise), PASAJEROS),
    Entry(TripSlot(Pasajeros, Europe), PASAJEROS),
    Entry(TripSlot(Pasajeros, Asia), PASAJEROS),
    Entry(TripSlot(Presupuesto, Cruise), INVERSION),
    Entry(TripSlot(Presupuesto, Europe), INVERSION),
    Entry(TripSlot(Presupuesto, Asia), INVERSION),
    Entry(TripSlot(CiudadSalida, Cruise), CIUDAD_SALIDA),
    Entry(TripSlot(CiudadSalida, Europe), CIUDAD_SALIDA),
    Entry(TripSlot(CiudadSalida, Asia), CIUDAD_SALIDA),
    Entry(TripSlot(Servicios, Cruise), SERVICIOS),
    Entry(TripSlot(Servicios, Europe), SERVICIOS),
    Entry(TripSlot(Servicios, Asia), SERVICIOS),
    Entry(TripSlot(NivelHospedaje, Europe), NIVEL_HOSPEDAJE),
    Entry(TripSlot(NivelHospedaje, Asia), NIVEL_HOSPEDAJE),
    Entry(TripSlot(Vuelos, Europe), VUELOS),
    Entry(TripSlot(Vuelos, Asia), VUELOS),
    Entry(TripSlot(Ocasion, Europe), OCASION),
    Entry(TripSlot(Ocasion, Asia), OCASION),
    Entry(TripSlot(Pasaporte, Cruise), DOCUMENTACION),
    Entry(TripSlot(Pasaporte, Europe), DOCUMENTACION),
    Entry(TripSlot(Pasaporte, Asia), DOCUMENTACION),
    Entry(TripSlot(Cabinas, Cruise), CABINAS),
    Entry(TripSlot(TipoCabina, Cruise), TIPO_CABINA),
    Entry(TripSlot(Experiencia, Cruise), EXPERIENCIA_CRUCERO)
  ]

  /** Looking a slot up in such a table. */
  function ConceptIn(table: seq<Entry>, slot: SlotName): (r: Option<Concept>)
    ensures r.Some? ==> Entry(slot, r.value) in table
    ensures r.None? ==> forall e :: e in table ==> e.slot != slot
  {
    if table == [] then None
    else if table[0].slot == slot then Some(table[0].concept)
    else ConceptIn(table[1..], slot)
  }

  /** The concept of a slot, read off its name alone. */
  ghost function MeaningOf(slot: SlotName): Option<Concept> {
    match slot
    case TripSlot(topic, trip) =>
      (match topic
       case Destino => Some(DESTINO)
       case Experiencia => Some(if trip == Cruise then EXPERIENCIA_CRUCERO else DESTINO)
       case Fechas => Some(FECHA)
       case Duracion => Some(DURACION)
       case Pasajeros => Some(PASAJEROS)
       case Cabinas => Some(CABINAS)
       case TipoCabina => Some(TIPO_CABINA)
       case CiudadSalida => Some(CIUDAD_SALIDA)
       case NivelHospedaje => Some(NIVEL_HOSPEDAJE)
       case Vuelos => Some(VUELOS)
       case Ocasion => Some(OCASION)
       case Presupuesto => Some(INVERSION)
       case Pasaporte => Some(DOCUMENTACION)
       case Servicios => Some(SERVICIOS))
    case _ => None
  }

  lemma EntryMeans(i: nat)
    requires i < |SLOT_CONCEPTS|
    ensures MeaningOf(SLOT_CONCEPTS[i].slot) == Some(SLOT_CONCEPTS[i].concept)
  {
  }

  /** A table whose entries all say what the slot's name means. */
  ghost predicate Truthful(table: seq<Entry>) {
    forall i :: 0 <= i < |table| ==> MeaningOf(table[i].slot) == Some(table[i].concept)
  }

  lemma LookupIsMeaning(table: seq<Entry>, slot: SlotName)
    requires Truthful(table)
    ensures ConceptIn(table, slot) == if exists i :: 0 <= i < |table| && table[i].slot == slot then MeaningOf(slot) else None
  {
    if i :| 0 <= i < |table| && table[i].slot == slot {
      assert table[i] in table;
      var found := ConceptIn(table, slot);
      var j :| 0 <= j < |table| && table[j] == Entry(slot, found.value);
    }
  }

  lemma ShippedTableTruthful()
    ensures Truthful(SLOT_CONCEPTS)
  {
    forall i | 0 <= i < |SLOT_CONCEPTS| ensures MeaningOf(SLOT_CONCEPTS[i].slot) == Some(SLOT_CONCEPTS[i].concept) {
      EntryMeans(i);
    }
  }

  lemma EscapesComeLast(i: nat)
    requires i < |SLOT_CONCEPTS|
    ensures SLOT_CONCEPTS[i].slot in {TripSlot(Experiencia, Europe), TripSlot(Experiencia, Asia)} <==> 3 <= i <= 4
    ensures SLOT_CONCEPTS[i].concept == DESTINO <==> i <= 4
  {
  }

  /** Where a shipped slot stands in the table. */
  ghost function IndexOf(topic: Topic, trip: TripType): nat {
    var step := match trip case Cruise => 0 case Europe => 1 case Asia => 2;
    match topic
    case Destino => step
    case Experiencia => if trip == Cruise then 33 else step + 2
    case Fechas => step + 5
    case Duracion => step + 7
    case Pasajeros => step + 10
    case Presupuesto => step + 13
    case CiudadSalida => step + 16
    case Servicios => step + 19
    case NivelHospedaje => step + 21
    case Vuelos => step + 23
    case Ocasion => step + 25
    case Pasaporte => step + 28
    case Cabinas => 31
    case TipoCabina => 32
  }

  /** The topics a trip's descriptor collects. */
  predicate Collects(trip: TripType, topic: Topic) {
    if trip == Cruise then topic !in {Duracion, NivelHospedaje, Vuelos, Ocasion}
    else topic !in {Cabinas, TipoCabina}
  }

  lemma Listed(topic: Topic, trip: TripType)
    requires Collects(trip, topic)
    ensures IndexOf(topic, trip) < |SLOT_CONCEPTS|
    ensures SLOT_CONCEPTS[IndexOf(topic, trip)].slot == TripSlot(topic, trip)
  {
  }
}
