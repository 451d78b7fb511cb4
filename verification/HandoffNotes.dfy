/** The note the advisor reads: why the conversation was handed over. */
module HandoffNotes {
  import opened Schemas
  import opened Concepts
  import opened Conversations

  const COMPLETE_NOTE :=
    "Calificación completa. El cliente proporcionó todos los datos requeridos. Listo para preparar propuesta."
  const HUMAN_REQUESTED_NOTE := "El cliente solicitó hablar directamente con un asesor."
  const NO_RESPONSE_NOTE :=
    "El cliente dejó de responder tras iniciar la conversación. Transferido por inactividad para seguimiento."

  function ConceptLabel(concept: Concept): string {
    match concept
    case DESTINO => "el destino"
    case FECHA => "las fechas"
    case DURACION => "la duración"
    case PASAJEROS => "los pasajeros"
    case INVERSION => "el presupuesto"
    case CIUDAD_SALIDA => "la ciudad de salida"
    case SERVICIOS => "los servicios adicionales"
    case NIVEL_HOSPEDAJE => "el nivel de hospedaje"
    case VUELOS => "los vuelos"
    case OCASION => "la ocasión del viaje"
    case DOCUMENTACION => "la documentación"
    case CABINAS => "las cabinas"
    case TIPO_CABINA => "el tipo de cabina"
    case EXPERIENCIA_CRUCERO => "la experiencia a bordo"
  }

  const CUSTOMER_NAME_LABEL := "el nombre del cliente"

  /** A readable label, or the bare slot when the tables know nothing about it. */
  datatype Label = Readable(text: string) | Raw(slot: SlotName)

  function LabelFor(table: seq<Entry>, slot: SlotName): Label {
    match ConceptIn(table, slot)
    case Some(concept) => Readable(ConceptLabel(concept))
    case None => if slot == NombreCliente then Readable(CUSTOMER_NAME_LABEL) else Raw(slot)
  }

  /** Labels for the given-up slots, in the order they are listed. */
  function PendingLabels(table: seq<Entry>, pending: seq<SlotName>): seq<Label> {
    seq(|pending|, i requires 0 <= i < |pending| => LabelFor(table, pending[i]))
  }

  datatype Note = Fixed(text: string) | StuckNote(labels: seq<Label>)

  /** The note for a handoff; the given-up slots matter only when the bot got stuck. */
  function ComposeHandoffNote(table: seq<Entry>, reason: HandoffReason, pending: seq<SlotName>): Note {
    match reason
    case Complete => Fixed(COMPLETE_NOTE)
    case HumanRequested => Fixed(HUMAN_REQUESTED_NOTE)
    case NoResponse => Fixed(NO_RESPONSE_NOTE)
    case Stuck => StuckNote(PendingLabels(table, pending))
  }

  /** The note tells the reason: no two reasons share one, whatever was given up on, and only a stuck
      handoff's lists anything. */
  lemma NoteTellsReason(table: seq<Entry>, a: HandoffReason, b: HandoffReason, p: seq<SlotName>, q: seq<SlotName>)
    ensures ComposeHandoffNote(table, a, p) == ComposeHandoffNote(table, b, q) ==> a == b
    ensures a != Stuck ==> ComposeHandoffNote(table, a, p) == ComposeHandoffNote(table, a, q)
    ensures ComposeHandoffNote(table, Stuck, p) == StuckNote(PendingLabels(table, p))
    ensures ComposeHandoffNote(table, HumanRequested, p) == Fixed("El cliente solicitó hablar directamente con un asesor.")
    ensures ComposeHandoffNote(table, NoResponse, p) == Fixed(
      "El cliente dejó de responder tras iniciar la conversación. Transferido por inactividad para seguimiento.")
  {
    assert |HUMAN_REQUESTED_NOTE| != |NO_RESPONSE_NOTE| == |COMPLETE_NOTE|;
    assert COMPLETE_NOTE[|COMPLETE_NOTE| - 2] == 'a' && NO_RESPONSE_NOTE[|NO_RESPONSE_NOTE| - 2] == 'o';
  }
}
