/** One conversation turn: route, or merge what was understood, charge an unusable answer,
    and decide what to say next. Extraction is an arbitrary typed result; the composed reply
    text is an input, since its wording decides nothing. */
module TurnLogic {
  import opened Prelude
  import opened Schemas
  import opened Slots
  import opened Completeness
  import opened Conversations

  datatype Understanding = Understanding(filled: SlotMap, question: string, wantsHuman: bool)

  /** What a turn is given: the router's classification (used only before a trip is known),
      the understanding (used only afterwards) and the text the bot will send. */
  datatype TurnInput = TurnInput(classified: Option<TripType>, understanding: Understanding, reply: string)

  datatype Decision = Ask(slot: SlotSpec) | Disambiguate | HandOff(reason: HandoffReason)

  datatype Turned = Turned(conv: Conversation, decision: Decision)

  const MAX_FAILED_ATTEMPTS := 2

  function AttemptsOf(attempts: map<SlotName, nat>, name: SlotName): nat {
    if name in attempts then attempts[name] else 0
  }

  /** The last question went to a required slot that is still open, and the answer carried
      neither data nor a question. */
  predicate Chargeable(schema: Schema, c: Conversation, u: Understanding) {
    && c.lastAsked.Some?
    && var slot := FindSlot(schema, c.lastAsked.value);
    && slot.Some? && slot.value.required
    && !IsSatisfied(slot.value, c.slots)
    && u.filled == map[] && u.question == ""
  }

  function CountedAttempt(schema: Schema, c: Conversation, u: Understanding): Conversation {
    if !Chargeable(schema, c, u) then c
    else
      var name := c.lastAsked.value;
      var count := AttemptsOf(c.attempts, name) + 1;
      c.(attempts := c.attempts[name := count],
         pending := if count > MAX_FAILED_ATTEMPTS then c.pending + {name} else c.pending)
  }

  function Asking(c: Conversation, slot: SlotSpec): Conversation {
    c.(asked := c.asked + {slot.name}, lastAsked := Some(slot.name))
  }

  function RouteTurn(catalogue: Catalogue, c: Conversation, input: TurnInput): Turned {
    var said := c.(lastBotMessage := Some(input.reply));
    match input.classified
    case None => Turned(said.(greeted := true), Disambiguate)
    case Some(trip) =>
      var routed := said.(tripType := Some(trip));
      match NextSlotToAsk(catalogue.For(trip), c.slots, c.asked, c.pending)
      case None => Turned(routed, HandOff(Complete))
      case Some(slot) => Turned(Asking(routed, slot).(greeted := true), Ask(slot))
  }

  function CollectTurn(schema: Schema, c: Conversation, input: TurnInput): Turned {
    var u := input.understanding;
    var merged := c.(slots := MergeSlots(c.slots, u.filled), lastBotMessage := Some(input.reply));
    if u.wantsHuman then Turned(merged, HandOff(HumanRequested))
    else
      var counted := CountedAttempt(schema, merged, u);
      match NextSlotToAsk(schema, counted.slots, counted.asked, counted.pending)
      case None => Turned(counted, HandOff(if counted.pending != {} then Stuck else Complete))
      case Some(slot) =>
        var asking := Asking(counted, slot);
        Turned(asking.(nameAcknowledged := c.nameAcknowledged || NameOf(counted.slots).Some?), Ask(slot))
  }

  /** The turn of a conversation that has not been handed off. */
  function TakeTurn(catalogue: Catalogue, c: Conversation, input: TurnInput): Turned {
    if c.tripType.None? then RouteTurn(catalogue, c, input)
    else CollectTurn(catalogue.For(c.tripType.value), c, input)
  }

  /** Saving a continuing turn re-arms the inactivity deadline once the name is known. */
  function Armed(c: Conversation, now: real, silence: real): Conversation {
    if NameOf(c.slots).Some? then c.(deadline := Some(now + silence)) else c
  }

  // ---- The same steps on the mutable working state ----

  method CountFailedAttempt(schema: Schema, state: ConversationState, u: Understanding)
    modifies state
    ensures state.Snapshot() == CountedAttempt(schema, old(state.Snapshot()), u)
  {
    if state.lastAsked.None? {
      return;
    }
    var last := state.lastAsked.value;
    var slot := FindSlot(schema, last);
    if slot.None? || !slot.value.required {
      return;
    }
    if IsSatisfied(slot.value, state.slots) {
      return;
    }
    if u.filled != map[] || u.question != "" {
      return;
    }
    state.attempts := state.attempts[last := AttemptsOf(state.attempts, last) + 1];
    if state.attempts[last] > MAX_FAILED_ATTEMPTS {
      state.pending := state.pending + {last};
    }
  }

  /** Move on to a slot, as both halves of the flow do. */
  method AskNext(state: ConversationState, slot: SlotSpec)
    modifies state
    ensures state.Snapshot() == Asking(old(state.Snapshot()), slot)
  {
    state.asked := state.asked + {slot.name};
    state.lastAsked := Some(slot.name);
  }

  method Route(catalogue: Catalogue, state: ConversationState, input: TurnInput) returns (decision: Decision)
    modifies state
    ensures Turned(state.Snapshot(), decision) == RouteTurn(catalogue, old(state.Snapshot()), input)
  {
    state.lastBotMessage := Some(input.reply);
    if input.classified.None? {
      state.greeted := true;
      return Disambiguate;
    }
    var trip := input.classified.value;
    state.tripType := Some(trip);
    var next := NextSlotToAsk(catalogue.For(trip), state.slots, state.asked, state.pending);
    if next.None? {
      return HandOff(Complete);
    }
    AskNext(state, next.value);
    state.greeted := true;
    return Ask(next.value);
  }

  method Collect(schema: Schema, state: ConversationState, input: TurnInput) returns (decision: Decision)
    modifies state
    ensures Turned(state.Snapshot(), decision) == CollectTurn(schema, old(state.Snapshot()), input)
  {
    var u := input.understanding;
    state.slots := MergeByLoop(state.slots, u.filled);
    state.lastBotMessage := Some(input.reply);
    if u.wantsHuman {
      return HandOff(HumanRequested);
    }
    CountFailedAttempt(schema, state, u);
    var next := NextSlotToAsk(schema, state.slots, state.asked, state.pending);
    if next.None? {
      return HandOff(if state.pending != {} then Stuck else Complete);
    }
    AskNext(state, next.value);
    if !state.nameAcknowledged && NameOf(state.slots).Some? {
      state.nameAcknowledged := true;
    }
    return Ask(next.value);
  }

  method HandleTurn(catalogue: Catalogue, state: ConversationState, input: TurnInput) returns (decision: Decision)
    modifies state
    ensures Turned(state.Snapshot(), decision) == TakeTurn(catalogue, old(state.Snapshot()), input)
  {
    if state.tripType.None? {
      decision := Route(catalogue, state, input);
    } else {
      decision := Collect(catalogue.For(state.tripType.value), state, input);
    }
  }
}
