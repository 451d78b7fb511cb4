/** The trip descriptors: which slots a conversation collects, in which order, and how each
    one is judged complete. The prompts themselves are wording and are not represented. */
module Schemas {
  import opened Prelude

  datatype TripType = Cruise | Europe | Asia

  /** What a per-trip slot asks about; with the trip it names the slot, as the
      suffixes of the slots' names do (`fechas_europa` is `TripSlot(Fechas, Europe)`, `ruta_crucero` is
      `TripSlot(Destino, Cruise)`). */
  datatype Topic =
    | Destino | Experiencia | Fechas | Duracion | Pasajeros | Cabinas | TipoCabina
    | CiudadSalida | NivelHospedaje | Vuelos | Ocasion | Presupuesto | Pasaporte | Servicios

  /** `Unlisted` stands for any name outside the shipped descriptors, so that statements
      about a descriptor hold for every descriptor. */
  datatype SlotName =
    | NombreCliente
    | TripSlot(topic: Topic, trip: TripType)
    | Unlisted(text: string)

  datatype SlotRule = Plain | Destination | BudgetRule | PassengersRule

  datatype FieldKind = TextField | BudgetField | PassengersField

  datatype SlotSpec = SlotSpec(
    name: SlotName,
    kind: FieldKind,
    required: bool,
    rule: SlotRule,
    escapeSlot: Option<SlotName>,
    askable: bool)

  type Schema = seq<SlotSpec>

  function RequiredText(name: SlotName): SlotSpec {
    SlotSpec(name, TextField, true, Plain, None, true)
  }

  function OptionalText(name: SlotName): SlotSpec {
    SlotSpec(name, TextField, false, Plain, None, true)
  }

  function PassiveText(name: SlotName): SlotSpec {
    SlotSpec(name, TextField, false, Plain, None, false)
  }

  function DestinationSlot(name: SlotName, escape: Option<SlotName>): SlotSpec {
    SlotSpec(name, TextField, true, Destination, escape, true)
  }

  function PassengersSlot(name: SlotName): SlotSpec {
    SlotSpec(name, PassengersField, true, PassengersRule, None, true)
  }

  function BudgetSlot(name: SlotName): SlotSpec {
    SlotSpec(name, BudgetField, true, BudgetRule, None, true)
  }

  const CRUISE_SCHEMA: Schema := [
    RequiredText(NombreCliente),
    DestinationSlot(TripSlot(Destino, Cruise), None),
    RequiredText(TripSlot(Fechas, Cruise)),
    PassengersSlot(TripSlot(Pasajeros, Cruise)),
    OptionalText(TripSlot(Cabinas, Cruise)),
    OptionalText(TripSlot(TipoCabina, Cruise)),
    OptionalText(TripSlot(Experiencia, Cruise)),
    OptionalText(TripSlot(CiudadSalida, Cruise)),
    BudgetSlot(TripSlot(Presupuesto, Cruise)),
    OptionalText(TripSlot(Pasaporte, Cruise)),
    OptionalText(TripSlot(Servicios, Cruise))
  ]

  /** Europe and Asia differ only in the trip their slots belong to. */
  function ContinentSchema(trip: TripType): Schema {
    [
      RequiredText(NombreCliente),
      DestinationSlot(TripSlot(Destino, trip), Some(TripSlot(Experiencia, trip))),
      PassiveText(TripSlot(Experiencia, trip)),
      RequiredText(TripSlot(Fechas, trip)),
      RequiredText(TripSlot(Duracion, trip)),
      PassengersSlot(TripSlot(Pasajeros, trip)),
      OptionalText(TripSlot(CiudadSalida, trip)),
      OptionalText(TripSlot(NivelHospedaje, trip)),
      OptionalText(TripSlot(Vuelos, trip)),
      OptionalText(TripSlot(Ocasion, trip)),
      BudgetSlot(TripSlot(Presupuesto, trip)),
      OptionalText(TripSlot(Pasaporte, trip)),
      OptionalText(TripSlot(Servicios, trip))
    ]
  }

  /** One descriptor per trip. The turn logic is stated for any catalogue and instantiated
      with the shipped one. */
  datatype Catalogue = Catalogue(cruise: Schema, europe: Schema, asia: Schema) {
    function For(trip: TripType): Schema {
      match trip
      case Cruise => cruise
      case Europe => europe
      case Asia => asia
    }
  }

  const SHIPPED := Catalogue(CRUISE_SCHEMA, ContinentSchema(Europe), ContinentSchema(Asia))

  /** Every slot that some destination falls back to, across the descriptors. */
  function EscapeSlotNames(catalogue: Catalogue): set<SlotName> {
    set trip: TripType, s | s in catalogue.For(trip) && s.escapeSlot.Some? :: s.escapeSlot.value
  }

  /** The first slot with that name, if the descriptor has one. */
  function FindSlot(schema: Schema, name: SlotName): (r: Option<SlotSpec>)
    ensures r.Some? ==> r.value in schema && r.value.name == name
    ensures r.None? ==> forall s :: s in schema ==> s.name != name
  {
    if schema == [] then None
    else if schema[0].name == name then Some(schema[0])
    else FindSlot(schema[1..], name)
  }

  predicate DistinctNames(schema: Schema) {
    forall i, j :: 0 <= i < j < |schema| ==> schema[i].name != schema[j].name
  }

  predicate SpecOk(s: SlotSpec) {
    && (s.required ==> s.askable)
    && (!s.required ==> s.rule == Plain)
    && (s.rule == BudgetRule <==> s.kind == BudgetField)
    && (s.rule == PassengersRule <==> s.kind == PassengersField)
  }

  /** What the turn logic relies on in a descriptor. */
  predicate WellFormed(schema: Schema) {
    DistinctNames(schema) && forall s :: s in schema ==> SpecOk(s)
  }

  lemma FindSlotUnique(schema: Schema, s: SlotSpec)
    requires DistinctNames(schema) && s in schema
    ensures FindSlot(schema, s.name) == Some(s)
  {
    var i :| 0 <= i < |schema| && schema[i] == s;
    var f := FindSlot(schema, s.name).value;
    var j :| 0 <= j < |schema| && schema[j] == f;
  }

  /** The place of a slot within its own descriptor; a name has only one. */
  ghost function Place(name: SlotName): nat {
    match name
    case NombreCliente => 0
    case TripSlot(topic, trip) =>
      (match topic
       case Destino => 1
       case Experiencia => if trip == Cruise then 6 else 2
       case Fechas => if trip == Cruise then 2 else 3
       case Duracion => 4
       case Pasajeros => if trip == Cruise then 3 else 5
       case Cabinas => 4
       case TipoCabina => 5
       case CiudadSalida => if trip == Cruise then 7 else 6
       case NivelHospedaje => 7
       case Vuelos => 8
       case Ocasion => 9
       case Presupuesto => if trip == Cruise then 8 else 10
       case Pasaporte => if trip == Cruise then 9 else 11
       case Servicios => if trip == Cruise then 10 else 12)
    case Unlisted(_) => 13
  }

  lemma CruisePlaces(i: nat)
    requires i < |CRUISE_SCHEMA|
    ensures Place(CRUISE_SCHEMA[i].name) == i && SpecOk(CRUISE_SCHEMA[i])
  {
  }

  lemma ContinentPlaces(trip: TripType, i: nat)
    requires trip != Cruise && i < |ContinentSchema(trip)|
    ensures Place(ContinentSchema(trip)[i].name) == i && SpecOk(ContinentSchema(trip)[i])
  {
  }

  /** The three shipped descriptors meet every assumption of the turn logic. */
  lemma DescriptorsWellFormed(trip: TripType)
    ensures WellFormed(SHIPPED.For(trip))
  {
    var schema := SHIPPED.For(trip);
    forall i | 0 <= i < |schema| ensures Place(schema[i].name) == i && SpecOk(schema[i]) {
      if trip == Cruise {
        CruisePlaces(i);
      } else {
        ContinentPlaces(trip, i);
      }
    }
  }
}
