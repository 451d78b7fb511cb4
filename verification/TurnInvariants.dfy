/** What every saved conversation satisfies, whatever the users and the extraction do. */
module TurnInvariants {
  import opened Prelude
  import opened Schemas
  import opened Slots
  import opened Completeness
  import opened Conversations
  import opened TurnLogic

  predicate RequiredName(schema: Schema, name: SlotName) {
    exists s :: s in schema && s.name == name && s.required
  }

  predicate AskableName(schema: Schema, name: SlotName) {
    exists s :: s in schema && s.name == name && s.askable
  }

  /** The bookkeeping of a conversation whose trip is known. */
  ghost predicate Tracked(schema: Schema, c: Conversation) {
    && WellTyped(schema, c.slots)
    && (forall n :: n in c.attempts ==> RequiredName(schema, n))
    && (forall n :: n in c.pending <==> n in c.attempts && c.attempts[n] >= 3)
    && (forall n :: n in c.asked ==> AskableName(schema, n))
    && (c.lastAsked.Some? ==> c.lastAsked.value in c.asked)
  }

  /** The invariant of every stored conversation. */
  ghost predicate Sound(catalogue: Catalogue, c: Conversation) {
    match c.tripType
    case None =>
      c.slots == map[] && c.attempts == map[] && c.pending == {} && c.asked == {} && c.lastAsked == None
    case Some(trip) => Tracked(catalogue.For(trip), c) && OwnSlots(catalogue.For(trip), c.slots)
  }

  /** Extraction is typed by the trip's own model, and fills no other slots. */
  predicate TypedInput(catalogue: Catalogue, c: Conversation, input: TurnInput) {
    c.tripType.Some? ==>
      var schema := catalogue.For(c.tripType.value);
      WellTyped(schema, input.understanding.filled) && OwnSlots(schema, input.understanding.filled)
  }

  /** The parts of the record that a turn never touches. */
  predicate SameMarkers(c: Conversation, d: Conversation) {
    && d.phase == c.phase && d.deadline == c.deadline
    && d.chatId == c.chatId && d.leadId == c.leadId && d.contactId == c.contactId
  }

  /** A catalogue the bot can run: well-formed descriptors that each have a first question. */
  ghost predicate Usable(catalogue: Catalogue) {
    forall trip :: WellFormed(catalogue.For(trip)) && NextSlotToAsk(catalogue.For(trip), map[], {}, {}).Some?
  }

  /** The first thing a routed conversation is asked is the customer's name. */
  lemma ShippedIsUsable()
    ensures Usable(SHIPPED)
    ensures forall trip :: NextSlotToAsk(SHIPPED.For(trip), map[], {}, {}) == Some(RequiredText(NombreCliente))
  {
    forall trip
      ensures WellFormed(SHIPPED.For(trip))
      ensures NextSlotToAsk(SHIPPED.For(trip), map[], {}, {}) == Some(RequiredText(NombreCliente))
    {
      DescriptorsWellFormed(trip);
      var first := SHIPPED.For(trip)[0];
      assert first == RequiredText(NombreCliente);
      assert StillToAsk(first, map[], {}, {});
    }
  }

  lemma CountKeepsTracked(schema: Schema, c: Conversation, u: Understanding)
    requires Tracked(schema, c)
    ensures Tracked(schema, CountedAttempt(schema, c, u))
  {
    if Chargeable(schema, c, u) {
      var name := c.lastAsked.value;
      var d := CountedAttempt(schema, c, u);
      assert RequiredName(schema, name);
      forall n ensures n in d.pending <==> n in d.attempts && d.attempts[n] >= 3 {
        assert n in c.pending <==> n in c.attempts && c.attempts[n] >= 3;
      }
    }
  }

  lemma AskingKeepsTracked(schema: Schema, c: Conversation, slot: SlotSpec)
    requires Tracked(schema, c) && slot in schema && slot.askable
    ensures Tracked(schema, Asking(c, slot))
  {
  }

  lemma MergingKeepsTracked(schema: Schema, c: Conversation, input: TurnInput)
    requires Tracked(schema, c) && WellTyped(schema, input.understanding.filled)
    ensures Tracked(schema, c.(slots := MergeSlots(c.slots, input.understanding.filled), lastBotMessage := Some(input.reply)))
  {
    MergeKeepsTypes(schema, c.slots, input.understanding.filled);
  }

  /** What a collecting turn leaves: the merged record, the attempt counted unless a person was
      asked for, and the next question noted. */
  lemma CollectIs(schema: Schema, c: Conversation, input: TurnInput)
    ensures var u := input.understanding;
            var merged := c.(slots := MergeSlots(c.slots, u.filled), lastBotMessage := Some(input.reply));
            var counted := CountedAttempt(schema, merged, u);
            var next := NextSlotToAsk(schema, counted.slots, counted.asked, counted.pending);
            var d := CollectTurn(schema, c, input).conv;
            if u.wantsHuman then d == merged
            else if next.None? then d == counted
            else d == Asking(counted, next.value).(nameAcknowledged := d.nameAcknowledged)
  {
  }

  lemma CollectKeepsMarkers(schema: Schema, c: Conversation, input: TurnInput)
    ensures SameMarkers(c, CollectTurn(schema, c, input).conv)
    ensures CollectTurn(schema, c, input).conv.tripType == c.tripType
  {
    CollectIs(schema, c, input);
  }

  lemma CollectKeepsTracked(schema: Schema, c: Conversation, input: TurnInput)
    requires Tracked(schema, c) && WellTyped(schema, input.understanding.filled)
    ensures Tracked(schema, CollectTurn(schema, c, input).conv)
  {
    var u := input.understanding;
    var merged := c.(slots := MergeSlots(c.slots, u.filled), lastBotMessage := Some(input.reply));
    MergingKeepsTracked(schema, c, input);
    CountKeepsTracked(schema, merged, u);
    CollectIs(schema, c, input);
    var counted := CountedAttempt(schema, merged, u);
    var next := NextSlotToAsk(schema, counted.slots, counted.asked, counted.pending);
    if next.Some? {
      AskingKeepsTracked(schema, counted, next.value);
    }
  }

  lemma CollectKeepsOwn(schema: Schema, c: Conversation, input: TurnInput)
    requires OwnSlots(schema, c.slots) && OwnSlots(schema, input.understanding.filled)
    ensures OwnSlots(schema, CollectTurn(schema, c, input).conv.slots)
  {
    MergeKeepsOwn(schema, c.slots, input.understanding.filled);
  }

  lemma RouteKeepsSound(catalogue: Catalogue, c: Conversation, input: TurnInput)
    requires Usable(catalogue) && Sound(catalogue, c) && c.tripType.None?
    ensures Sound(catalogue, RouteTurn(catalogue, c, input).conv)
    ensures SameMarkers(c, RouteTurn(catalogue, c, input).conv)
    ensures !RouteTurn(catalogue, c, input).decision.HandOff?
  {
    if input.classified.Some? {
      var schema := catalogue.For(input.classified.value);
      var next := NextSlotToAsk(schema, c.slots, c.asked, c.pending);
      var routed := c.(lastBotMessage := Some(input.reply), tripType := input.classified);
      assert Tracked(schema, routed);
      AskingKeepsTracked(schema, routed, next.value);
    }
  }

  /** Every saved conversation stays sound, and a turn alone changes no handoff marker. */
  lemma TurnKeepsSound(catalogue: Catalogue, c: Conversation, input: TurnInput)
    requires Usable(catalogue) && Sound(catalogue, c) && TypedInput(catalogue, c, input)
    ensures Sound(catalogue, TakeTurn(catalogue, c, input).conv)
    ensures SameMarkers(c, TakeTurn(catalogue, c, input).conv)
    ensures c.tripType.Some? ==> TakeTurn(catalogue, c, input).conv.tripType == c.tripType
  {
    if c.tripType.None? {
      RouteKeepsSound(catalogue, c, input);
    } else {
      CollectKeepsTracked(catalogue.For(c.tripType.value), c, input);
      CollectKeepsMarkers(catalogue.For(c.tripType.value), c, input);
      CollectKeepsOwn(catalogue.For(c.tripType.value), c, input);
    }
  }

  /** A slot given up on is a required slot of the conversation's own trip. */
  lemma PendingIsRequired(catalogue: Catalogue, c: Conversation, name: SlotName)
    requires Usable(catalogue) && Sound(catalogue, c) && name in c.pending
    ensures c.tripType.Some? && RequiredName(catalogue.For(c.tripType.value), name)
    ensures name in c.attempts && c.attempts[name] > MAX_FAILED_ATTEMPTS
  {
  }

  /** "Complete" is only decided when no required slot is missing; "stuck" only when some
      required slot was given up on and every other one is satisfied. */
  lemma DecisionIsJustified(catalogue: Catalogue, c: Conversation, input: TurnInput)
    requires Usable(catalogue) && Sound(catalogue, c) && TypedInput(catalogue, c, input)
    ensures var t := TakeTurn(catalogue, c, input);
            t.decision.HandOff? && t.decision.reason != HumanRequested ==>
              && c.tripType.Some?
              && var schema := catalogue.For(c.tripType.value);
                 && (forall s :: s in schema && s.required && s.name !in t.conv.pending ==> IsSatisfied(s, t.conv.slots))
                 && (t.decision.reason == Complete ==> NextRequiredSlot(schema, t.conv.slots) == None)
                 && (t.decision.reason == Stuck <==> t.conv.pending != {})
                 && t.decision.reason in {Complete, Stuck}
  {
    if c.tripType.None? {
      RouteKeepsSound(catalogue, c, input);
    } else {
      CollectIsJustified(catalogue.For(c.tripType.value), c, input);
    }
  }

  lemma CollectIsJustified(schema: Schema, c: Conversation, input: TurnInput)
    requires WellFormed(schema)
    ensures var t := CollectTurn(schema, c, input);
            t.decision.HandOff? && t.decision.reason != HumanRequested ==>
              && (forall s :: s in schema && s.required && s.name !in t.conv.pending ==> IsSatisfied(s, t.conv.slots))
              && (t.decision.reason == Complete ==> NextRequiredSlot(schema, t.conv.slots) == None)
              && (t.decision.reason == Stuck <==> t.conv.pending != {})
              && t.decision.reason in {Complete, Stuck}
  {
    var t := CollectTurn(schema, c, input);
    if t.decision.HandOff? && t.decision.reason != HumanRequested {
      forall s | s in schema && s.required && s.name !in t.conv.pending ensures IsSatisfied(s, t.conv.slots) {
        assert SpecOk(s) && !StillToAsk(s, t.conv.slots, t.conv.asked, t.conv.pending);
      }
    }
  }

  /** A conversation handed over as stuck lacks nothing if and only if every requirement it gave
      up on has been met since: giving up is never taken back. */
  lemma StuckLacksNothingExactly(schema: Schema, c: Conversation, input: TurnInput)
    requires WellFormed(schema) && CollectTurn(schema, c, input).decision == HandOff(Stuck)
    ensures var d := CollectTurn(schema, c, input).conv;
            NextRequiredSlot(schema, d.slots) == None
            <==> forall s :: s in schema && s.required && s.name in d.pending ==> IsSatisfied(s, d.slots)
  {
    CollectIsJustified(schema, c, input);
    var d := CollectTurn(schema, c, input).conv;
    if forall s :: s in schema && s.required && s.name in d.pending ==> IsSatisfied(s, d.slots) {
      forall s | s in schema ensures !Unmet(s, d.slots) {}
    } else {
      var s :| s in schema && s.required && s.name in d.pending && !IsSatisfied(s, d.slots);
      assert Unmet(s, d.slots);
    }
  }

  // ---- Runs of saved turns ----

  /** The conversation after some saved turns. A turn whose handoff failed is one of them:
      its progress was saved and the next turn starts from it. */
  function After(catalogue: Catalogue, c: Conversation, inputs: seq<TurnInput>): Conversation {
    if inputs == [] then c
    else TakeTurn(catalogue, After(catalogue, c, inputs[..|inputs| - 1]), inputs[|inputs| - 1]).conv
  }

  predicate TypedAt(catalogue: Catalogue, c: Conversation, inputs: seq<TurnInput>, i: int)
    requires 0 <= i < |inputs|
  {
    TypedInput(catalogue, After(catalogue, c, inputs[..i]), inputs[i])
  }

  predicate TypedRun(catalogue: Catalogue, c: Conversation, inputs: seq<TurnInput>) {
    forall i :: 0 <= i < |inputs| ==> TypedAt(catalogue, c, inputs, i)
  }

  lemma {:induction false} RunKeepsSound(catalogue: Catalogue, c: Conversation, inputs: seq<TurnInput>)
    requires Usable(catalogue) && Sound(catalogue, c) && TypedRun(catalogue, c, inputs)
    ensures Sound(catalogue, After(catalogue, c, inputs))
    ensures SameMarkers(c, After(catalogue, c, inputs))
    ensures c.tripType.Some? ==> After(catalogue, c, inputs).tripType == c.tripType
  {
    if inputs != [] {
      var n := |inputs| - 1;
      forall i | 0 <= i < n ensures TypedAt(catalogue, c, inputs[..n], i) {
        assert inputs[..n][..i] == inputs[..i] && TypedAt(catalogue, c, inputs, i);
      }
      RunKeepsSound(catalogue, c, inputs[..n]);
      assert TypedAt(catalogue, c, inputs, n);
      TurnKeepsSound(catalogue, After(catalogue, c, inputs[..n]), inputs[n]);
    }
  }

  lemma TurnOnlyAddsAsked(catalogue: Catalogue, c: Conversation, input: TurnInput)
    ensures c.asked <= TakeTurn(catalogue, c, input).conv.asked
    ensures TakeTurn(catalogue, c, input).decision.Ask? ==> TakeTurn(catalogue, c, input).decision.slot.name in TakeTurn(catalogue, c, input).conv.asked
    ensures TakeTurn(catalogue, c, input).decision.Ask? && !TakeTurn(catalogue, c, input).decision.slot.required ==>
              TakeTurn(catalogue, c, input).decision.slot.name !in c.asked
  {
  }

  lemma NextTurn(catalogue: Catalogue, c: Conversation, inputs: seq<TurnInput>, i: nat)
    requires i < |inputs|
    ensures After(catalogue, c, inputs[..i + 1]) == TakeTurn(catalogue, After(catalogue, c, inputs[..i]), inputs[i]).conv
  {
    assert inputs[..i + 1][..i] == inputs[..i];
  }

  /** The conversation before turn `i`. */
  function Before(catalogue: Catalogue, c: Conversation, inputs: seq<TurnInput>, i: nat): Conversation
    requires i <= |inputs|
  {
    After(catalogue, c, inputs[..i])
  }

  lemma TurnAddsAsked(catalogue: Catalogue, c: Conversation, inputs: seq<TurnInput>, i: nat)
    requires i < |inputs|
    ensures Before(catalogue, c, inputs, i).asked <= Before(catalogue, c, inputs, i + 1).asked
    ensures TakeTurn(catalogue, Before(catalogue, c, inputs, i), inputs[i]).decision.Ask? ==>
              TakeTurn(catalogue, Before(catalogue, c, inputs, i), inputs[i]).decision.slot.name
              in Before(catalogue, c, inputs, i + 1).asked
  {
    NextTurn(catalogue, c, inputs, i);
    TurnOnlyAddsAsked(catalogue, Before(catalogue, c, inputs, i), inputs[i]);
  }

  lemma {:induction false} AskedOnlyGrows(catalogue: Catalogue, c: Conversation, inputs: seq<TurnInput>, i: nat, j: nat)
    requires i <= j <= |inputs|
    ensures Before(catalogue, c, inputs, i).asked <= Before(catalogue, c, inputs, j).asked
    decreases j
  {
    if i < j {
      AskedOnlyGrows(catalogue, c, inputs, i, j - 1);
      TurnAddsAsked(catalogue, c, inputs, j - 1);
    }
  }

  /** An optional slot is asked in at most one saved turn of a conversation. */
  lemma OptionalAskedOnce(catalogue: Catalogue, c: Conversation, inputs: seq<TurnInput>, i: nat, j: nat, slot: SlotSpec)
    requires i < j < |inputs|
    requires TakeTurn(catalogue, Before(catalogue, c, inputs, i), inputs[i]).decision == Ask(slot)
    requires TakeTurn(catalogue, Before(catalogue, c, inputs, j), inputs[j]).decision == Ask(slot)
    ensures slot.required
  {
    TurnAddsAsked(catalogue, c, inputs, i);
    AskedOnlyGrows(catalogue, c, inputs, i + 1, j);
    TurnOnlyAddsAsked(catalogue, Before(catalogue, c, inputs, j), inputs[j]);
  }
}
