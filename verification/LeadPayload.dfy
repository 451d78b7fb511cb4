/** The custom fields written on a lead: one per concept, filled by the first slot of that
    concept, in table order, that has something to say. */
module LeadPayload {
  import opened Prelude
  import opened Schemas
  import opened Slots
  import opened Concepts

  datatype FieldValue = FieldValue(fieldId: int, text: string)

  /** The tables the builder is given: slot to concept in precedence order, concept to field
      id, and the slots whose value is a stated preference rather than a destination. */
  datatype FieldTables = FieldTables(
    concepts: seq<Entry>,
    fieldIds: map<Concept, int>,
    escapes: set<SlotName>)

  const ESCAPE_PREFIX := "Sin destino definido — busca: "

  // ---- Serialization ----

  function NonBlank(text: string): Option<string> {
    var stripped := Strip(text);
    if stripped == "" then None else Some(stripped)
  }

  const SEPARATOR := ", "

  function AgeTexts(ages: seq<int>): seq<string> {
    seq(|ages|, i requires 0 <= i < |ages| => Decimal(ages[i]))
  }

  function AdultsPart(adults: Value): seq<string> {
    if !adults.Whole? then []
    else [Decimal(adults.number) + if adults.number == 1 then " adulto" else " adultos"]
  }

  function MinorsPart(mentioned: Value, ages: Value): seq<string> {
    if ages.Ages? && ages.ages != [] then
      [Decimal(|ages.ages|) + (if |ages.ages| == 1 then " menor" else " menores")
       + " (" + Join(AgeTexts(ages.ages), SEPARATOR) + ")"]
    else if mentioned == Truth(true) then ["menores (edades sin especificar)"]
    else []
  }

  function SerializePassengers(parts: map<Part, Value>): Option<string> {
    var texts := AdultsPart(Get(parts, Adults)) + MinorsPart(Get(parts, MinorsMentioned), Get(parts, MinorAges));
    if Join(texts, SEPARATOR) == "" then None else Some(Join(texts, SEPARATOR))
  }

  function SerializeBudget(parts: map<Part, Value>): Option<string> {
    if Get(parts, DeferToAdvisor) == Truth(true) then Some("Prefiere revisarlo con un asesor")
    else if Get(parts, Amount).Text? then NonBlank(Get(parts, Amount).text)
    else None
  }

  function SerializeStructured(parts: map<Part, Value>): Option<string> {
    if parts.Keys * {Adults, MinorsMentioned, MinorAges} != {} then SerializePassengers(parts)
    else if parts.Keys * {Amount, DeferToAdvisor} != {} then SerializeBudget(parts)
    else None
  }

  /** The text of a slot value, or `None` to omit the field. */
  function Serialize(value: Value): Option<string> {
    match value
    case Null => None
    case Text(text) => NonBlank(text)
    case Nested(parts) => SerializeStructured(parts)
    case Whole(n) => NonBlank(Decimal(n))
    case Truth(b) => Some(if b then "True" else "False")
    case Ages(ages) => Some("[" + Join(AgeTexts(ages), SEPARATOR) + "]")
  }

  // ---- Which slot speaks for a concept ----

  predicate Speaks(tables: FieldTables, slots: SlotMap, i: int) {
    0 <= i < |tables.concepts| && Serialize(Get(slots, tables.concepts[i].slot)).Some?
  }

  /** Entry `i` is the first of its concept that has something to say. */
  predicate Wins(tables: FieldTables, slots: SlotMap, i: int) {
    && Speaks(tables, slots, i)
    && forall j :: 0 <= j < i && tables.concepts[j].concept == tables.concepts[i].concept ==> !Speaks(tables, slots, j)
  }

  function FieldOf(tables: FieldTables, slots: SlotMap, i: int): FieldValue
    requires Speaks(tables, slots, i) && tables.concepts[i].concept in tables.fieldIds
  {
    var entry := tables.concepts[i];
    var text := Serialize(Get(slots, entry.slot)).value;
    FieldValue(tables.fieldIds[entry.concept], if entry.slot in tables.escapes then ESCAPE_PREFIX + text else text)
  }

  predicate HasAllIds(tables: FieldTables) {
    forall e :: e in tables.concepts ==> e.concept in tables.fieldIds
  }

  /** The fields won within the first `n` entries. */
  function FieldsUpTo(tables: FieldTables, slots: SlotMap, n: nat): seq<FieldValue>
    requires n <= |tables.concepts| && HasAllIds(tables)
  {
    if n == 0 then []
    else FieldsUpTo(tables, slots, n - 1) + if Wins(tables, slots, n - 1) then [FieldOf(tables, slots, n - 1)] else []
  }

  function CustomFields(tables: FieldTables, slots: SlotMap): seq<FieldValue>
    requires HasAllIds(tables)
  {
    FieldsUpTo(tables, slots, |tables.concepts|)
  }

  /** The builder: one pass that remembers the concepts already filled. */
  method BuildCustomFieldsValues(tables: FieldTables, slots: SlotMap) returns (result: seq<FieldValue>)
    requires HasAllIds(tables)
    ensures result == CustomFields(tables, slots)
  {
    result := [];
    var seen: set<Concept> := {};
    for i := 0 to |tables.concepts|
      invariant result == FieldsUpTo(tables, slots, i)
      invariant forall c :: c in seen <==> exists j :: 0 <= j < i && tables.concepts[j].concept == c && Speaks(tables, slots, j)
    {
      var entry := tables.concepts[i];
      if entry.concept in seen {
        continue;
      }
      var text := Serialize(Get(slots, entry.slot));
      if text.None? {
        continue;
      }
      var shown := text.value;
      if entry.slot in tables.escapes {
        shown := ESCAPE_PREFIX + shown;
      }
      result := result + [FieldValue(tables.fieldIds[entry.concept], shown)];
      seen := seen + {entry.concept};
    }
  }

  // ---- What the advisor can rely on ----

  lemma {:induction false} FieldsAreWon(tables: FieldTables, slots: SlotMap, n: nat, f: FieldValue)
    requires n <= |tables.concepts| && HasAllIds(tables)
    ensures f in FieldsUpTo(tables, slots, n) <==>
            exists i :: 0 <= i < n && Wins(tables, slots, i) && FieldOf(tables, slots, i) == f
  {
    if n > 0 {
      FieldsAreWon(tables, slots, n - 1, f);
    }
  }

  predicate InjectiveIds(tables: FieldTables) {
    forall c, d :: c in tables.fieldIds && d in tables.fieldIds && tables.fieldIds[c] == tables.fieldIds[d] ==> c == d
  }

  predicate DistinctIds(fields: seq<FieldValue>) {
    forall i, j :: 0 <= i < j < |fields| ==> fields[i].fieldId != fields[j].fieldId
  }

  /** No field is written twice. */
  lemma {:induction false} FieldIdsDistinct(tables: FieldTables, slots: SlotMap, n: nat)
    requires n <= |tables.concepts| && HasAllIds(tables) && InjectiveIds(tables)
    ensures DistinctIds(FieldsUpTo(tables, slots, n))
  {
    if n > 0 {
      FieldIdsDistinct(tables, slots, n - 1);
      var before := FieldsUpTo(tables, slots, n - 1);
      if Wins(tables, slots, n - 1) {
        var won := FieldOf(tables, slots, n - 1);
        forall i | 0 <= i < |before| ensures before[i].fieldId != won.fieldId {
          FieldsAreWon(tables, slots, n - 1, before[i]);
        }
        assert DistinctIds(before + [won]);
      } else {
        assert before + [] == before;
      }
    }
  }

  lemma {:induction false} SomeoneWins(tables: FieldTables, slots: SlotMap, i: int) returns (w: int)
    requires Speaks(tables, slots, i)
    ensures Wins(tables, slots, w) && w <= i && tables.concepts[w].concept == tables.concepts[i].concept
    decreases i
  {
    if j :| 0 <= j < i && tables.concepts[j].concept == tables.concepts[i].concept && Speaks(tables, slots, j) {
      w := SomeoneWins(tables, slots, j);
    } else {
      w := i;
    }
  }

  /** Every slot that has something to say gets its concept's field written. */
  lemma SpokenConceptIsWritten(tables: FieldTables, slots: SlotMap, i: int)
    requires HasAllIds(tables) && Speaks(tables, slots, i)
    ensures exists f :: f in CustomFields(tables, slots) && f.fieldId == tables.fieldIds[tables.concepts[i].concept]
  {
    var w := SomeoneWins(tables, slots, i);
    FieldsAreWon(tables, slots, |tables.concepts|, FieldOf(tables, slots, w));
  }

  /** The lead gets a field for the concept. */
  predicate IsWritten(tables: FieldTables, slots: SlotMap, concept: Concept)
    requires HasAllIds(tables) && concept in tables.fieldIds
  {
    exists f :: f in CustomFields(tables, slots) && f.fieldId == tables.fieldIds[concept]
  }

  /** A concept's field is written if and only if some listed slot of that concept has something
      to say. */
  lemma WrittenExactly(tables: FieldTables, slots: SlotMap, concept: Concept)
    requires HasAllIds(tables) && InjectiveIds(tables) && concept in tables.fieldIds
    ensures IsWritten(tables, slots, concept)
            <==> exists i :: Speaks(tables, slots, i) && tables.concepts[i].concept == concept
  {
    if f :| f in CustomFields(tables, slots) && f.fieldId == tables.fieldIds[concept] {
      FieldsAreWon(tables, slots, |tables.concepts|, f);
      var i :| 0 <= i < |tables.concepts| && Wins(tables, slots, i) && FieldOf(tables, slots, i) == f;
      assert tables.concepts[i] in tables.concepts;
    }
    if i :| Speaks(tables, slots, i) && tables.concepts[i].concept == concept {
      SpokenConceptIsWritten(tables, slots, i);
    }
  }

  /** A slot the table does not list has no part in the fields. */
  lemma {:induction false} UnlistedSaysNothing(tables: FieldTables, slots: SlotMap, name: SlotName, value: Value, n: nat)
    requires n <= |tables.concepts| && HasAllIds(tables)
    requires forall e :: e in tables.concepts ==> e.slot != name
    ensures FieldsUpTo(tables, slots[name := value], n) == FieldsUpTo(tables, slots, n)
  {
    if n > 0 {
      UnlistedSaysNothing(tables, slots, name, value, n - 1);
      forall i | 0 <= i < |tables.concepts|
        ensures Get(slots[name := value], tables.concepts[i].slot) == Get(slots, tables.concepts[i].slot)
      {
        assert tables.concepts[i] in tables.concepts;
      }
    }
  }

  // ---- The shipped tables ----

  /** The lead fields of the Top Viajes account. */
  function TopViajesField(concept: Concept): int {
    match concept
    case DESTINO => 1112708
    case FECHA => 1112714
    case DURACION => 1112716
    case PASAJEROS => 1112718
    case INVERSION => 1114102
    case CIUDAD_SALIDA => 1112720
    case SERVICIOS => 1112712
    case NIVEL_HOSPEDAJE => 1112722
    case VUELOS => 1112724
    case OCASION => 1112726
    case DOCUMENTACION => 1112730
    case CABINAS => 1114110
    case TIPO_CABINA => 1114112
    case EXPERIENCIA_CRUCERO => 1114114
  }

  function TopViajesTables(concepts: seq<Entry>, escapes: set<SlotName>): FieldTables {
    FieldTables(concepts, map c: Concept | true :: TopViajesField(c), escapes)
  }

  /** Every concept has a field of its own, whatever the slot table and the escapes. */
  lemma TopViajesFields(concepts: seq<Entry>, escapes: set<SlotName>)
    ensures HasAllIds(TopViajesTables(concepts, escapes)) && InjectiveIds(TopViajesTables(concepts, escapes))
  {
    forall c, d | TopViajesField(c) == TopViajesField(d) ensures c == d {
    }
  }
}
