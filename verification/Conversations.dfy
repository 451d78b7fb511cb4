/** The per-sender conversation record: the durable snapshot, and the mutable working copy a
    turn updates in place before saving it. */
module Conversations {
  import opened Prelude
  import opened Schemas
  import opened Slots

  datatype Phase = Collecting | HandedOff

  datatype HandoffReason = Complete | Stuck | HumanRequested | NoResponse

  /** What the store keeps for a sender. */
  datatype Conversation = Conversation(
    tripType: Option<TripType>,
    slots: SlotMap,
    phase: Phase,
    lastAsked: Option<SlotName>,
    asked: set<SlotName>,
    attempts: map<SlotName, nat>,
    pending: set<SlotName>,
    lastBotMessage: Option<string>,
    chatId: Option<string>,
    deadline: Option<real>,
    leadId: Option<int>,
    contactId: Option<int>,
    greeted: bool,
    nameAcknowledged: bool)

  const NEW_CONVERSATION := Conversation(
    None, map[], Collecting, None, {}, map[], {}, None, None, None, None, None, false, false)

  /** The captured name, when it is usable as one. */
  function NameOf(slots: SlotMap): Option<string> {
    var name := Get(slots, NombreCliente);
    if name.Text? && !IsBlank(name.text) then Some(name.text) else None
  }

  /** Mutable per-turn working state for one sender. */
  class ConversationState {
    var tripType: Option<TripType>
    var slots: SlotMap
    var phase: Phase
    var lastAsked: Option<SlotName>
    var asked: set<SlotName>
    var attempts: map<SlotName, nat>
    var pending: set<SlotName>
    var lastBotMessage: Option<string>
    var chatId: Option<string>
    var deadline: Option<real>
    var leadId: Option<int>
    var contactId: Option<int>
    var greeted: bool
    var nameAcknowledged: bool

    /** The record a save persists. */
    function Snapshot(): Conversation
      reads this
    {
      Conversation(tripType, slots, phase, lastAsked, asked, attempts, pending, lastBotMessage,
                   chatId, deadline, leadId, contactId, greeted, nameAcknowledged)
    }

    constructor Of(data: Conversation)
      ensures Snapshot() == data
    {
      tripType := data.tripType;
      slots := data.slots;
      phase := data.phase;
      lastAsked := data.lastAsked;
      asked := data.asked;
      attempts := data.attempts;
      pending := data.pending;
      lastBotMessage := data.lastBotMessage;
      chatId := data.chatId;
      deadline := data.deadline;
      leadId := data.leadId;
      contactId := data.contactId;
      greeted := data.greeted;
      nameAcknowledged := data.nameAcknowledged;
    }
  }
}
