/** What a turn decides, what it changes and what it charges, each said of the turn's result
    and of the words it was given. */
module TurnDecisions {
  import opened Prelude
  import opened Schemas
  import opened Slots
  import opened SlotHistory
  import opened Completeness
  import opened Conversations
  import opened TurnLogic
  import opened TurnInvariants

  // ---- The decision ----

  /** No slot of the descriptor is left to ask about. */
  predicate NothingLeft(schema: Schema, slots: SlotMap, asked: set<SlotName>, pending: set<SlotName>) {
    forall s :: s in schema ==> !StillToAsk(s, slots, asked, pending)
  }

  /** The slot at place `i` is left to ask about, and none before it is. */
  predicate FirstLeft(schema: Schema, slots: SlotMap, asked: set<SlotName>, pending: set<SlotName>, i: int) {
    && 0 <= i < |schema| && StillToAsk(schema[i], slots, asked, pending)
    && forall j :: 0 <= j < i ==> !StillToAsk(schema[j], slots, asked, pending)
  }

  predicate AsksFirstLeft(schema: Schema, slots: SlotMap, asked: set<SlotName>, pending: set<SlotName>, decision: Decision) {
    decision.Ask? && exists i :: 0 <= i < |schema| && FirstLeft(schema, slots, asked, pending, i) && schema[i] == decision.slot
  }

  /** A routed turn hands off to a person if and only if one was asked for; it completes if and
      only if nothing is left to ask and nothing was given up on, is stuck if and only if
      nothing is left but something was given up on, and otherwise asks about the first slot
      left. What is left is read off the record the turn leaves. */
  lemma RoutedDecidesExactly(catalogue: Catalogue, c: Conversation, input: TurnInput)
    requires c.tripType.Some?
    ensures var t := TakeTurn(catalogue, c, input);
            var schema := catalogue.For(c.tripType.value);
            var human := input.understanding.wantsHuman;
            var nothingLeft := NothingLeft(schema, t.conv.slots, c.asked, t.conv.pending);
            && (t.decision == HandOff(HumanRequested) <==> human)
            && (t.decision == HandOff(Complete) <==> !human && nothingLeft && t.conv.pending == {})
            && (t.decision == HandOff(Stuck) <==> !human && nothingLeft && t.conv.pending != {})
            && (AsksFirstLeft(schema, t.conv.slots, c.asked, t.conv.pending, t.decision) <==> !human && !nothingLeft)
  {
    var schema := catalogue.For(c.tripType.value);
    var t := TakeTurn(catalogue, c, input);
    if t.decision.Ask? {
      AskedIsFirst(schema, t.conv.slots, c.asked, t.conv.pending, t.decision.slot);
    }
  }

  lemma AskedIsFirst(schema: Schema, slots: SlotMap, asked: set<SlotName>, pending: set<SlotName>, slot: SlotSpec)
    requires NextSlotToAsk(schema, slots, asked, pending) == Some(slot)
    ensures AsksFirstLeft(schema, slots, asked, pending, Ask(slot)) && !NothingLeft(schema, slots, asked, pending)
  {
    var i :| 0 <= i < |schema| && schema[i] == slot && StillToAsk(schema[i], slots, asked, pending)
             && forall j :: 0 <= j < i ==> !StillToAsk(schema[j], slots, asked, pending);
    assert FirstLeft(schema, slots, asked, pending, i);
  }

  /** Before a trip is known a turn either disambiguates or routes: it then asks about the first
      slot left of that trip, and completes only for a descriptor with nothing to ask. */
  lemma RoutingDecidesExactly(catalogue: Catalogue, c: Conversation, input: TurnInput)
    requires c.tripType.None?
    ensures var t := TakeTurn(catalogue, c, input);
            && (t.decision == Disambiguate <==> input.classified == None)
            && (input.classified.Some? ==>
                  var schema := catalogue.For(input.classified.value);
                  && (t.decision == HandOff(Complete) <==> NothingLeft(schema, c.slots, c.asked, c.pending))
                  && (AsksFirstLeft(schema, c.slots, c.asked, c.pending, t.decision)
                      <==> !NothingLeft(schema, c.slots, c.asked, c.pending)))
  {
    var t := TakeTurn(catalogue, c, input);
    if t.decision.Ask? {
      AskedIsFirst(catalogue.For(input.classified.value), c.slots, c.asked, c.pending, t.decision.slot);
    }
  }

  // ---- The record ----

  /** The name can be addressed: it is a text with something in it. */
  predicate NameKnown(slots: SlotMap) {
    NombreCliente in slots && slots[NombreCliente].Text? && !IsBlank(slots[NombreCliente].text)
  }

  /** Asking notes the question, and nothing else does. */
  predicate NotesQuestion(c: Conversation, t: Turned) {
    if t.decision.Ask? then t.conv.asked == c.asked + {t.decision.slot.name} && t.conv.lastAsked == Some(t.decision.slot.name)
    else t.conv.asked == c.asked && t.conv.lastAsked == c.lastAsked
  }

  /** A routed turn merges what was extracted, records what it sends, notes its question, and
      acknowledges the name with the first question asked once it is known. */
  lemma RoutedRecords(catalogue: Catalogue, c: Conversation, input: TurnInput)
    requires c.tripType.Some?
    ensures var t := TakeTurn(catalogue, c, input);
            && SameMarkers(c, t.conv) && NotesQuestion(c, t)
            && t.conv.tripType == c.tripType && t.conv.greeted == c.greeted
            && t.conv.lastBotMessage == Some(input.reply)
            && t.conv.slots == MergeSlots(c.slots, input.understanding.filled)
            && (t.conv.nameAcknowledged <==> c.nameAcknowledged || (t.decision.Ask? && NameKnown(t.conv.slots)))
  {
    CollectIs(catalogue.For(c.tripType.value), c, input);
    CollectKeepsMarkers(catalogue.For(c.tripType.value), c, input);
  }

  predicate NotCharged(c: Conversation, d: Conversation) {
    d.attempts == c.attempts && d.pending == c.pending
  }

  /** Before that a turn only notes the trip, its question and that it greeted. */
  lemma RoutingRecords(catalogue: Catalogue, c: Conversation, input: TurnInput)
    requires c.tripType.None?
    ensures var t := TakeTurn(catalogue, c, input);
            && SameMarkers(c, t.conv) && NotesQuestion(c, t) && NotCharged(c, t.conv)
            && t.conv.tripType == input.classified && t.conv.slots == c.slots
            && t.conv.lastBotMessage == Some(input.reply) && t.conv.nameAcknowledged == c.nameAcknowledged
            && (t.conv.greeted <==> c.greeted || !t.decision.HandOff?)
  {
    match input.classified
    case None =>
    case Some(trip) =>
      match NextSlotToAsk(catalogue.For(trip), c.slots, c.asked, c.pending)
      case None =>
      case Some(slot) =>
  }

  /** Saving a continuing turn sets the deadline a full silence from now if the name is known,
      leaves it alone otherwise, and touches nothing else. */
  lemma ArmedExactly(c: Conversation, now: real, silence: real)
    ensures Armed(c, now, silence).deadline == if NameKnown(c.slots) then Some(now + silence) else c.deadline
    ensures Armed(c, now, silence).(deadline := c.deadline) == c
  {
  }

  // ---- The charge ----

  /** The answer to an open required question: no data, no question, no request for a person. */
  predicate Wastes(schema: Schema, c: Conversation, u: Understanding, name: SlotName) {
    && c.lastAsked == Some(name)
    && (exists s :: s in schema && s.name == name && s.required && !IsSatisfied(s, c.slots))
    && u.filled == map[] && u.question == "" && !u.wantsHuman
  }

  predicate WastesSome(schema: Schema, c: Conversation, u: Understanding) {
    c.lastAsked.Some? && Wastes(schema, c, u, c.lastAsked.value)
  }

  lemma WastesIsChargeable(schema: Schema, c: Conversation, input: TurnInput)
    requires DistinctNames(schema) && !input.understanding.wantsHuman
    ensures var u := input.understanding;
            var merged := c.(slots := MergeSlots(c.slots, u.filled), lastBotMessage := Some(input.reply));
            WastesSome(schema, c, u) <==> Chargeable(schema, merged, u)
  {
    var u := input.understanding;
    if u.filled == map[] {
      assert MergeSlots(c.slots, map[]) == c.slots;
      if c.lastAsked.Some? {
        forall s | s in schema && s.name == c.lastAsked.value ensures FindSlot(schema, s.name) == Some(s) {
          FindSlotUnique(schema, s);
        }
      }
    }
  }

  /** One more charge to `name`, which is given up on at the third. */
  predicate ChargedOnce(c: Conversation, d: Conversation, name: SlotName) {
    var charged := if name in c.attempts then c.attempts[name] + 1 else 1;
    && d.attempts == c.attempts[name := charged]
    && d.pending == if charged >= 3 then c.pending + {name} else c.pending
  }

  lemma ChargeShows(c: Conversation, d: Conversation, name: SlotName)
    requires ChargedOnce(c, d, name)
    ensures !NotCharged(c, d)
  {
    assert name in d.attempts && (name in c.attempts ==> d.attempts[name] != c.attempts[name]);
  }

  lemma CountsExactly(schema: Schema, c: Conversation, input: TurnInput)
    requires DistinctNames(schema) && !input.understanding.wantsHuman
    ensures var u := input.understanding;
            var d := CountedAttempt(schema, c.(slots := MergeSlots(c.slots, u.filled), lastBotMessage := Some(input.reply)), u);
            if WastesSome(schema, c, u) then ChargedOnce(c, d, c.lastAsked.value) else NotCharged(c, d)
  {
    WastesIsChargeable(schema, c, input);
  }

  /** A routed turn charges if and only if it wastes an open required question. It then charges
      that slot once more and nothing else, and gives up on it at the third charge. */
  lemma ChargesExactly(schema: Schema, c: Conversation, input: TurnInput)
    requires DistinctNames(schema)
    ensures var d := CollectTurn(schema, c, input).conv;
            && (WastesSome(schema, c, input.understanding) <==> !NotCharged(c, d))
            && (WastesSome(schema, c, input.understanding) ==> ChargedOnce(c, d, c.lastAsked.value))
  {
    var u := input.understanding;
    CollectIs(schema, c, input);
    if !u.wantsHuman {
      CountsExactly(schema, c, input);
      if WastesSome(schema, c, u) {
        ChargeShows(c, CollectTurn(schema, c, input).conv, c.lastAsked.value);
      }
    }
  }

  // ---- Histories ----

  function AfterCollect(schema: Schema, c: Conversation, inputs: seq<TurnInput>): Conversation {
    if inputs == [] then c
    else CollectTurn(schema, AfterCollect(schema, c, inputs[..|inputs| - 1]), inputs[|inputs| - 1]).conv
  }

  /** The turns of a routed conversation are all collecting turns of its own trip. */
  lemma {:induction false} RoutedHistory(catalogue: Catalogue, c: Conversation, inputs: seq<TurnInput>)
    requires c.tripType.Some?
    ensures After(catalogue, c, inputs) == AfterCollect(catalogue.For(c.tripType.value), c, inputs)
    ensures After(catalogue, c, inputs).tripType == c.tripType
  {
    if inputs != [] {
      var n := |inputs| - 1;
      RoutedHistory(catalogue, c, inputs[..n]);
      CollectKeepsMarkers(catalogue.For(c.tripType.value), After(catalogue, c, inputs[..n]), inputs[n]);
    }
  }

  /** What the turns of a history extracted, in order. */
  function Extracted(inputs: seq<TurnInput>): seq<SlotMap> {
    if inputs == [] then [] else Extracted(inputs[..|inputs| - 1]) + [inputs[|inputs| - 1].understanding.filled]
  }

  /** The slots of a conversation are everything its turns extracted, merged in order. */
  lemma {:induction false} HistoryMerges(schema: Schema, c: Conversation, inputs: seq<TurnInput>)
    ensures AfterCollect(schema, c, inputs).slots == MergeAll(c.slots, Extracted(inputs))
  {
    if inputs != [] {
      var n := |inputs| - 1;
      HistoryMerges(schema, c, inputs[..n]);
      LastMerged(c.slots, Extracted(inputs[..n]), inputs[n].understanding.filled);
    }
  }

  lemma LastMerged(existing: SlotMap, history: seq<SlotMap>, filled: SlotMap)
    ensures MergeAll(existing, history + [filled]) == MergeSlots(MergeAll(existing, history), filled)
  {
    assert (history + [filled])[..|history|] == history;
  }

  /** How many turns of a history waste the question about `name`. */
  function WastedOn(schema: Schema, c: Conversation, inputs: seq<TurnInput>, name: SlotName): nat {
    if inputs == [] then 0
    else
      var before := inputs[..|inputs| - 1];
      WastedOn(schema, c, before, name)
      + if Wastes(schema, AfterCollect(schema, c, before), inputs[|inputs| - 1].understanding, name) then 1 else 0
  }

  /** The count of a slot is exactly the number of turns that wasted its question, and a slot is
      given up on if and only if there were three. */
  lemma {:induction false} CountsAreWastedTurns(schema: Schema, c: Conversation, inputs: seq<TurnInput>, name: SlotName)
    requires DistinctNames(schema)
    requires name in c.pending <==> AttemptsOf(c.attempts, name) >= 3
    ensures var d := AfterCollect(schema, c, inputs);
            && AttemptsOf(d.attempts, name) == AttemptsOf(c.attempts, name) + WastedOn(schema, c, inputs, name)
            && (name in d.pending <==> AttemptsOf(c.attempts, name) + WastedOn(schema, c, inputs, name) >= 3)
  {
    if inputs != [] {
      var n := |inputs| - 1;
      CountsAreWastedTurns(schema, c, inputs[..n], name);
      ChargesExactly(schema, AfterCollect(schema, c, inputs[..n]), inputs[n]);
    }
  }

  /** A turn that brings no data, asks nothing and asks for nobody. */
  predicate Unusable(input: TurnInput) {
    var u := input.understanding;
    u.filled == map[] && u.question == "" && !u.wantsHuman
  }

  /** Every other turn is free, however many of them there are. */
  lemma {:induction false} FreeTurnsChargeNothing(schema: Schema, c: Conversation, inputs: seq<TurnInput>)
    requires DistinctNames(schema)
    requires forall i :: 0 <= i < |inputs| ==> !Unusable(inputs[i])
    ensures AfterCollect(schema, c, inputs).attempts == c.attempts
    ensures AfterCollect(schema, c, inputs).pending == c.pending
  {
    if inputs != [] {
      var n := |inputs| - 1;
      FreeTurnsChargeNothing(schema, c, inputs[..n]);
      ChargesExactly(schema, AfterCollect(schema, c, inputs[..n]), inputs[n]);
    }
  }

  // ---- The shipped rules ----

  /** What each shipped slot takes to be satisfied. */
  predicate Answered(trip: TripType, topic: Topic, slots: SlotMap) {
    var value := Get(slots, TripSlot(topic, trip));
    match topic
    case Destino => value != Null || (trip != Cruise && Get(slots, TripSlot(Experiencia, trip)) != Null)
    case Presupuesto =>
      value.Nested? && (Get(value.parts, Amount) != Null || Get(value.parts, DeferToAdvisor) == Truth(true))
    case Pasajeros => value.Nested? && Get(value.parts, Adults) != Null
    case _ => value != Null
  }

  predicate Needed(trip: TripType, topic: Topic) {
    topic in {Destino, Fechas, Pasajeros, Presupuesto} || (topic == Duracion && trip != Cruise)
  }

  predicate RuledAsShipped(trip: TripType, s: SlotSpec) {
    match s.name
    case NombreCliente => s.rule == Plain && s.required && s.askable
    case TripSlot(topic, t) =>
      && t == trip
      && (s.required <==> Needed(trip, topic))
      && (s.askable <==> trip == Cruise || topic != Experiencia)
      && (s.rule == match topic
          case Destino => Destination
          case Presupuesto => BudgetRule
          case Pasajeros => PassengersRule
          case _ => Plain)
      && s.escapeSlot == if topic == Destino && trip != Cruise then Some(TripSlot(Experiencia, trip)) else None
    case Unlisted(_) => false
  }

  lemma CruiseRules(i: nat)
    requires i < |CRUISE_SCHEMA|
    ensures RuledAsShipped(Cruise, CRUISE_SCHEMA[i])
  {
  }

  lemma ContinentRules(trip: TripType, i: nat)
    requires trip != Cruise && i < |ContinentSchema(trip)|
    ensures RuledAsShipped(trip, ContinentSchema(trip)[i])
  {
  }

  lemma ShippedRules(trip: TripType, s: SlotSpec)
    requires s in SHIPPED.For(trip)
    ensures RuledAsShipped(trip, s)
  {
    var schema := SHIPPED.For(trip);
    var i :| 0 <= i < |schema| && schema[i] == s;
    if trip == Cruise {
      CruiseRules(i);
    } else {
      ContinentRules(trip, i);
    }
  }

  /** A shipped destination is satisfied by itself or, outside cruises, by the experience wanted;
      a budget by an amount or by leaving it to the advisor; the passengers by the adults; and
      every other slot by any value. */
  lemma ShippedSatisfiedExactly(trip: TripType, s: SlotSpec, slots: SlotMap)
    requires s in SHIPPED.For(trip)
    ensures IsSatisfied(s, slots) <==>
              match s.name
              case TripSlot(topic, _) => Answered(trip, topic, slots)
              case _ => Get(slots, s.name) != Null
  {
    ShippedRules(trip, s);
  }
}
