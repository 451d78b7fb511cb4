/** How many unusable turns a conversation can take: an exact measure that each of them
    lowers by one, and that no turn raises unless it revokes a budget. */
module TurnBound {
  import opened Prelude
  import opened Schemas
  import opened Slots
  import opened Completeness
  import opened Conversations
  import opened TurnLogic
  import opened TurnInvariants
  import opened TurnDecisions

  /** The unusable answers one slot can still absorb. */
  function SlotCost(s: SlotSpec, c: Conversation): nat {
    if !s.askable || IsSatisfied(s, c.slots) then 0
    else if s.required then
      if s.name in c.pending || AttemptsOf(c.attempts, s.name) >= 3 then 0 else 3 - AttemptsOf(c.attempts, s.name)
    else if s.name in c.asked then 0
    else 1
  }

  function Cost(schema: Schema, c: Conversation): nat {
    if schema == [] then 0 else SlotCost(schema[0], c) + Cost(schema[1..], c)
  }

  function LastCost(schema: Schema, c: Conversation): nat {
    if c.lastAsked.Some? && FindSlot(schema, c.lastAsked.value).Some?
       && !FindSlot(schema, c.lastAsked.value).value.required
    then 1 else 0
  }

  function Measure(schema: Schema, c: Conversation): nat {
    Cost(schema, c) + LastCost(schema, c)
  }

  // ---- The sum, slot by slot ----

  lemma {:induction false} CostUnchanged(schema: Schema, c: Conversation, d: Conversation)
    requires forall s :: s in schema ==> SlotCost(s, d) == SlotCost(s, c)
    ensures Cost(schema, d) == Cost(schema, c)
  {
    if schema != [] {
      assert schema[0] in schema;
      CostUnchanged(schema[1..], c, d);
    }
  }

  lemma {:induction false} CostMonotone(schema: Schema, c: Conversation, d: Conversation)
    requires forall s :: s in schema ==> SlotCost(s, d) <= SlotCost(s, c)
    ensures Cost(schema, d) <= Cost(schema, c)
  {
    if schema != [] {
      assert schema[0] in schema;
      CostMonotone(schema[1..], c, d);
    }
  }

  lemma {:induction false} CostChangesAt(schema: Schema, c: Conversation, d: Conversation, slot: SlotSpec)
    requires DistinctNames(schema) && slot in schema
    requires forall s :: s in schema && s.name != slot.name ==> SlotCost(s, d) == SlotCost(s, c)
    ensures Cost(schema, d) - Cost(schema, c) == SlotCost(slot, d) - SlotCost(slot, c)
  {
    assert schema[0] in schema;
    if schema[0] == slot {
      assert forall s :: s in schema[1..] ==> s in schema && s.name != slot.name;
      CostUnchanged(schema[1..], c, d);
    } else {
      assert schema[0].name != slot.name;
      assert forall s :: s in schema[1..] ==> s in schema;
      CostChangesAt(schema[1..], c, d, slot);
    }
  }

  lemma {:induction false} CostZero(schema: Schema, c: Conversation)
    requires forall n :: n in c.pending <==> n in c.attempts && c.attempts[n] >= 3
    ensures Cost(schema, c) == 0 <==> forall s :: s in schema ==> !StillToAsk(s, c.slots, c.asked, c.pending)
  {
    if schema != [] {
      assert schema[0] in schema;
      assert forall s :: s in schema[1..] ==> s in schema;
      assert forall s :: s in schema ==> s == schema[0] || s in schema[1..];
      CostZero(schema[1..], c);
    }
  }

  // ---- Unusable turns ----

  /** The bot is waiting for an answer to an open question. */
  predicate Listening(schema: Schema, c: Conversation) {
    && c.lastAsked.Some?
    && var slot := FindSlot(schema, c.lastAsked.value);
    && slot.Some?
    && slot.value.askable
    && !IsSatisfied(slot.value, c.slots)
    && (if slot.value.required then slot.value.name !in c.pending else slot.value.name in c.asked)
  }

  lemma ChargeCostsOne(schema: Schema, c: Conversation, u: Understanding)
    requires WellFormed(schema) && Tracked(schema, c) && Listening(schema, c)
    requires u.filled == map[] && u.question == ""
    ensures Cost(schema, CountedAttempt(schema, c, u)) == Measure(schema, c) - 1
    ensures Tracked(schema, CountedAttempt(schema, c, u))
  {
    var slot := FindSlot(schema, c.lastAsked.value).value;
    CountKeepsTracked(schema, c, u);
    if slot.required {
      CostChangesAt(schema, c, CountedAttempt(schema, c, u), slot);
    }
  }

  lemma AskingCost(schema: Schema, c: Conversation, slot: SlotSpec)
    requires WellFormed(schema) && slot in schema
    requires StillToAsk(slot, c.slots, c.asked, c.pending)
    ensures Measure(schema, Asking(c, slot)) == Cost(schema, c)
    ensures Listening(schema, Asking(c, slot))
  {
    FindSlotUnique(schema, slot);
    CostChangesAt(schema, c, Asking(c, slot), slot);
  }

  lemma UnusableAsk(schema: Schema, counted: Conversation, slot: SlotSpec, c': Conversation)
    requires WellFormed(schema) && Tracked(schema, counted) && slot in schema
    requires StillToAsk(slot, counted.slots, counted.asked, counted.pending)
    requires c' == Asking(counted, slot).(nameAcknowledged := c'.nameAcknowledged)
    ensures Tracked(schema, c') && Listening(schema, c') && Measure(schema, c') == Cost(schema, counted)
  {
    AskingCost(schema, counted, slot);
    AskingKeepsTracked(schema, counted, slot);
    SameCost(schema, Asking(counted, slot), c');
  }

  /** What an unusable turn does, apart from what it decides. */
  lemma UnusableCounts(schema: Schema, c: Conversation, input: TurnInput) returns (counted: Conversation)
    requires WellFormed(schema) && Tracked(schema, c) && Listening(schema, c) && Unusable(input)
    ensures CollectTurn(schema, c, input) ==
              match NextSlotToAsk(schema, counted.slots, counted.asked, counted.pending)
              case None => Turned(counted, HandOff(if counted.pending != {} then Stuck else Complete))
              case Some(slot) => Turned(Asking(counted, slot).(nameAcknowledged := c.nameAcknowledged || NameOf(counted.slots).Some?), Ask(slot))
    ensures counted.slots == c.slots && Tracked(schema, counted)
    ensures Cost(schema, counted) == Measure(schema, c) - 1
  {
    assert MergeSlots(c.slots, map[]) == c.slots;
    var said := c.(lastBotMessage := Some(input.reply));
    SameCost(schema, c, said);
    ChargeCostsOne(schema, said, input.understanding);
    counted := CountedAttempt(schema, said, input.understanding);
  }

  /** An unusable turn lowers the measure by exactly one, and hands off exactly when it
      was one. */
  lemma UnusableTurn(schema: Schema, c: Conversation, input: TurnInput)
    requires WellFormed(schema) && Tracked(schema, c) && Listening(schema, c) && Unusable(input)
    ensures Measure(schema, c) >= 1
    ensures var t := CollectTurn(schema, c, input);
            && t.conv.slots == c.slots
            && Tracked(schema, t.conv)
            && (t.decision.HandOff? <==> Measure(schema, c) == 1)
            && (t.decision.Ask? <==> Measure(schema, c) > 1)
            && (t.decision.Ask? ==> Measure(schema, t.conv) == Measure(schema, c) - 1 && Listening(schema, t.conv))
            && (t.decision.HandOff? ==>
                  && t.decision.reason == (if t.conv.pending != {} then Stuck else Complete)
                  && forall s :: s in schema && s.required && !IsSatisfied(s, c.slots) ==> s.name in t.conv.pending)
  {
    var counted := UnusableCounts(schema, c, input);
    CostZero(schema, counted);
    var t := CollectTurn(schema, c, input);
    if t.decision.Ask? {
      UnusableAsk(schema, counted, t.decision.slot, t.conv);
    } else {
      forall s | s in schema && s.required && !IsSatisfied(s, c.slots) ensures s.name in counted.pending {
        assert SpecOk(s) && !StillToAsk(s, counted.slots, counted.asked, counted.pending);
      }
    }
  }

  /** The measure reads only the slots and the question bookkeeping. */
  lemma SameCost(schema: Schema, c: Conversation, d: Conversation)
    requires d.slots == c.slots && d.asked == c.asked && d.attempts == c.attempts
    requires d.pending == c.pending && d.lastAsked == c.lastAsked
    ensures Cost(schema, d) == Cost(schema, c) && Measure(schema, d) == Measure(schema, c)
  {
    CostUnchanged(schema, c, d);
  }

  /** What turn `i` of a run decides. */
  function DecisionAt(schema: Schema, c: Conversation, inputs: seq<TurnInput>, i: nat): Decision
    requires i < |inputs|
  {
    CollectTurn(schema, AfterCollect(schema, c, inputs[..i]), inputs[i]).decision
  }

  lemma {:induction false} UnusableRun(schema: Schema, c: Conversation, inputs: seq<TurnInput>)
    requires WellFormed(schema) && Tracked(schema, c) && Listening(schema, c)
    requires forall i :: 0 <= i < |inputs| ==> Unusable(inputs[i])
    requires |inputs| < Measure(schema, c)
    ensures var d := AfterCollect(schema, c, inputs);
            && Tracked(schema, d) && Listening(schema, d) && d.slots == c.slots
            && Measure(schema, d) == Measure(schema, c) - |inputs|
    ensures inputs != [] ==> DecisionAt(schema, c, inputs, |inputs| - 1).Ask?
  {
    if inputs != [] {
      var n := |inputs| - 1;
      UnusableRun(schema, c, inputs[..n]);
      UnusableTurn(schema, AfterCollect(schema, c, inputs[..n]), inputs[n]);
    }
  }

  lemma AsksUntilUsedUp(schema: Schema, c: Conversation, inputs: seq<TurnInput>, i: nat)
    requires WellFormed(schema) && Tracked(schema, c) && Listening(schema, c)
    requires forall i :: 0 <= i < |inputs| ==> Unusable(inputs[i])
    requires i < |inputs| && i + 1 < Measure(schema, c)
    ensures DecisionAt(schema, c, inputs, i).Ask?
  {
    UnusableRun(schema, c, inputs[..i]);
    UnusableTurn(schema, AfterCollect(schema, c, inputs[..i]), inputs[i]);
  }

  lemma HandsOffWhenUsedUp(schema: Schema, c: Conversation, inputs: seq<TurnInput>)
    requires WellFormed(schema) && Tracked(schema, c) && Listening(schema, c)
    requires forall i :: 0 <= i < |inputs| ==> Unusable(inputs[i])
    requires |inputs| == Measure(schema, c) >= 1
    ensures DecisionAt(schema, c, inputs, |inputs| - 1).HandOff?
    ensures (exists s :: s in schema && s.required && !IsSatisfied(s, c.slots))
            ==> DecisionAt(schema, c, inputs, |inputs| - 1) == HandOff(Stuck)
  {
    var n := |inputs| - 1;
    UnusableRun(schema, c, inputs[..n]);
    UnusableTurn(schema, AfterCollect(schema, c, inputs[..n]), inputs[n]);
  }

  /** A run of unusable turns asks again until the measure is used up, and then hands off:
      never a turn earlier, never a turn later. */
  lemma ExactTurnCount(schema: Schema, c: Conversation, inputs: seq<TurnInput>)
    requires WellFormed(schema) && Tracked(schema, c) && Listening(schema, c)
    requires forall i :: 0 <= i < |inputs| ==> Unusable(inputs[i])
    requires |inputs| == Measure(schema, c)
    ensures |inputs| >= 1
    ensures forall i :: 0 <= i < |inputs| - 1 ==> DecisionAt(schema, c, inputs, i).Ask?
    ensures DecisionAt(schema, c, inputs, |inputs| - 1).HandOff?
    ensures (exists s :: s in schema && s.required && !IsSatisfied(s, c.slots))
            ==> DecisionAt(schema, c, inputs, |inputs| - 1) == HandOff(Stuck)
  {
    UnusableTurn(schema, c, TurnInput(None, Understanding(map[], "", false), ""));
    HandsOffWhenUsedUp(schema, c, inputs);
    forall i | 0 <= i < |inputs| - 1 ensures DecisionAt(schema, c, inputs, i).Ask? {
      AsksUntilUsedUp(schema, c, inputs, i);
    }
  }

  // ---- Freshly routed conversations ----

  function RequiredCount(schema: Schema): nat {
    if schema == [] then 0 else (if schema[0].required then 1 else 0) + RequiredCount(schema[1..])
  }

  function OptionalCount(schema: Schema): nat {
    if schema == [] then 0
    else (if !schema[0].required && schema[0].askable then 1 else 0) + OptionalCount(schema[1..])
  }

  lemma {:induction false} EmptyCost(schema: Schema, c: Conversation)
    requires forall s :: s in schema ==> SpecOk(s)
    requires c.slots == map[] && c.attempts == map[] && c.pending == {} && c.asked == {}
    ensures Cost(schema, c) == 3 * RequiredCount(schema) + OptionalCount(schema)
  {
    if schema != [] {
      assert SpecOk(schema[0]);
      EmptyCost(schema[1..], c);
    }
  }

  /** A conversation in the state routing leaves it in, for any descriptor. */
  predicate FreshlyRouted(schema: Schema, c: Conversation) {
    && c.slots == map[] && c.attempts == map[] && c.pending == {}
    && var first := NextSlotToAsk(schema, map[], {}, {});
    && first.Some? && c.asked == {first.value.name} && c.lastAsked == Some(first.value.name)
  }

  lemma FreshMeasure(schema: Schema, c: Conversation)
    requires WellFormed(schema) && FreshlyRouted(schema, c)
    ensures Measure(schema, c) == 3 * RequiredCount(schema) + OptionalCount(schema)
    ensures Tracked(schema, c) && Listening(schema, c)
  {
    var first := NextSlotToAsk(schema, map[], {}, {}).value;
    var before := c.(asked := {}, lastAsked := None);
    EmptyCost(schema, before);
    AskingCost(schema, before, first);
    assert c == Asking(before, first);
    assert WellTyped(schema, map[]);
  }

  /** From a freshly routed conversation, exactly 3R + O unusable turns reach the stuck
      handoff, R and O counting the required and the askable optional slots. */
  lemma StuckAfterExactly(schema: Schema, c: Conversation, inputs: seq<TurnInput>)
    requires WellFormed(schema) && FreshlyRouted(schema, c) && RequiredCount(schema) > 0
    requires forall i :: 0 <= i < |inputs| ==> Unusable(inputs[i])
    requires |inputs| == 3 * RequiredCount(schema) + OptionalCount(schema)
    ensures forall i :: 0 <= i < |inputs| - 1 ==> DecisionAt(schema, c, inputs, i).Ask?
    ensures DecisionAt(schema, c, inputs, |inputs| - 1) == HandOff(Stuck)
  {
    FreshMeasure(schema, c);
    SomeRequired(schema);
    ExactTurnCount(schema, c, inputs);
  }

  lemma {:induction false} SomeRequired(schema: Schema)
    requires RequiredCount(schema) > 0
    ensures exists s :: s in schema && s.required
  {
    if schema[0].required {
      assert schema[0] in schema;
    } else {
      SomeRequired(schema[1..]);
      var s :| s in schema[1..] && s.required;
      assert s in schema;
    }
  }


  lemma CountStep(schema: Schema, i: nat)
    requires i < |schema|
    ensures RequiredCount(schema[i..]) == RequiredCount(schema[i + 1..]) + if schema[i].required then 1 else 0
    ensures OptionalCount(schema[i..]) ==
            OptionalCount(schema[i + 1..]) + if !schema[i].required && schema[i].askable then 1 else 0
  {
    assert schema[i..][1..] == schema[i + 1..];
  }

  /** A stretch of required slots, and a stretch of askable optional ones. */
  lemma {:induction false} CountRun(schema: Schema, i: nat, j: nat, required: bool)
    requires i <= j <= |schema|
    requires forall k :: i <= k < j ==> schema[k].required == required && schema[k].askable
    ensures RequiredCount(schema[i..]) == RequiredCount(schema[j..]) + if required then j - i else 0
    ensures OptionalCount(schema[i..]) == OptionalCount(schema[j..]) + if required then 0 else j - i
    decreases j - i
  {
    if i < j {
      CountStep(schema, i);
      CountRun(schema, i + 1, j, required);
    }
  }

  predicate CruiseShape(schema: Schema) {
    |schema| == 11 && forall i :: 0 <= i < 11 ==> schema[i].askable && (schema[i].required <==> i < 4 || i == 8)
  }

  predicate ContinentShape(schema: Schema) {
    |schema| == 13 && forall i :: 0 <= i < 13 ==>
      (schema[i].askable <==> i != 2) && (schema[i].required <==> (i < 6 && i != 2) || i == 10)
  }

  lemma CruiseShapeCounts(schema: Schema)
    requires CruiseShape(schema)
    ensures RequiredCount(schema) == 5 && OptionalCount(schema) == 6
  {
    assert schema[0..] == schema && schema[11..] == [];
    CountRun(schema, 0, 4, true);
    CountRun(schema, 4, 8, false);
    CountRun(schema, 8, 9, true);
    CountRun(schema, 9, 11, false);
  }

  lemma ContinentShapeCounts(schema: Schema)
    requires ContinentShape(schema)
    ensures RequiredCount(schema) == 6 && OptionalCount(schema) == 6
  {
    assert schema[0..] == schema && schema[13..] == [];
    CountRun(schema, 0, 2, true);
    CountStep(schema, 2);
    CountRun(schema, 3, 6, true);
    CountRun(schema, 6, 10, false);
    CountRun(schema, 10, 11, true);
    CountRun(schema, 11, 13, false);
  }

  lemma CruiseCounts()
    ensures RequiredCount(CRUISE_SCHEMA) == 5 && OptionalCount(CRUISE_SCHEMA) == 6
  {
    assert CruiseShape(CRUISE_SCHEMA);
    CruiseShapeCounts(CRUISE_SCHEMA);
  }

  lemma ContinentCounts(trip: TripType)
    ensures RequiredCount(ContinentSchema(trip)) == 6 && OptionalCount(ContinentSchema(trip)) == 6
  {
    assert ContinentShape(ContinentSchema(trip));
    ContinentShapeCounts(ContinentSchema(trip));
  }

  lemma ShippedCounts(trip: TripType)
    ensures RequiredCount(SHIPPED.For(trip)) == if trip == Cruise then 5 else 6
    ensures OptionalCount(SHIPPED.For(trip)) == 6
  {
    if trip == Cruise {
      CruiseCounts();
    } else {
      ContinentCounts(trip);
    }
  }

  /** 21 unusable turns for a cruise, 24 for Europe or Asia, counted from routing. */
  lemma ShippedTripsGetStuck(trip: TripType, c: Conversation, route: TurnInput, inputs: seq<TurnInput>)
    requires Sound(SHIPPED, c) && c.tripType.None? && route.classified == Some(trip)
    requires forall i :: 0 <= i < |inputs| ==> Unusable(inputs[i])
    requires |inputs| == if trip == Cruise then 21 else 24
    ensures var routed := TakeTurn(SHIPPED, c, route).conv;
            var schema := SHIPPED.For(trip);
            && (forall i :: 0 <= i < |inputs| - 1 ==> DecisionAt(schema, routed, inputs, i).Ask?)
            && DecisionAt(schema, routed, inputs, |inputs| - 1) == HandOff(Stuck)
  {
    ShippedIsUsable();
    ShippedCounts(trip);
    RoutingIsFresh(SHIPPED, trip, c, route);
    DescriptorsWellFormed(trip);
    StuckAfterExactly(SHIPPED.For(trip), TakeTurn(SHIPPED, c, route).conv, inputs);
  }

  lemma RoutingIsFresh(catalogue: Catalogue, trip: TripType, c: Conversation, route: TurnInput)
    requires Usable(catalogue) && Sound(catalogue, c) && c.tripType.None? && route.classified == Some(trip)
    ensures FreshlyRouted(catalogue.For(trip), TakeTurn(catalogue, c, route).conv)
  {
  }

  // ---- Arbitrary turns ----

  predicate Revokes(schema: Schema, c: Conversation, input: TurnInput) {
    exists s :: s in schema && s.rule == BudgetRule && RevokesBudget(c.slots, input.understanding.filled, s.name)
  }

  lemma TurnCost(schema: Schema, c: Conversation, input: TurnInput, d: Conversation, s: SlotSpec)
    requires SpecOk(s) && FitsKind(s.kind, Get(c.slots, s.name))
    requires FitsKind(s.kind, Get(input.understanding.filled, s.name))
    requires !(s.rule == BudgetRule && RevokesBudget(c.slots, input.understanding.filled, s.name))
    requires d.slots == MergeSlots(c.slots, input.understanding.filled)
    requires c.pending <= d.pending && c.asked <= d.asked
    requires AttemptsOf(c.attempts, s.name) <= AttemptsOf(d.attempts, s.name)
    ensures SlotCost(s, d) <= SlotCost(s, c)
  {
    if IsSatisfied(s, c.slots) {
      SatisfactionSurvivesMerge(s, c.slots, input.understanding.filled);
    }
  }

  /** No saved turn raises the measure, whatever was said, unless it revokes a budget. */
  lemma MeasureNeverRises(schema: Schema, c: Conversation, input: TurnInput)
    requires WellFormed(schema) && Tracked(schema, c)
    requires WellTyped(schema, input.understanding.filled)
    requires !Revokes(schema, c, input)
    ensures Measure(schema, CollectTurn(schema, c, input).conv) <= Measure(schema, c)
  {
    var u := input.understanding;
    var merged := c.(slots := MergeSlots(c.slots, u.filled), lastBotMessage := Some(input.reply));
    var counted := if u.wantsHuman then merged else CountedAttempt(schema, merged, u);
    forall s | s in schema ensures SlotCost(s, counted) <= SlotCost(s, c) {
      assert SpecOk(s);
      TurnCost(schema, c, input, counted, s);
    }
    CostMonotone(schema, c, counted);
    var t := CollectTurn(schema, c, input);
    if t.decision.Ask? {
      AskingCost(schema, counted, t.decision.slot);
      SameCost(schema, Asking(counted, t.decision.slot), t.conv);
    }
  }

  // ---- Arbitrary histories ----

  function UnusableCount(inputs: seq<TurnInput>): nat {
    if inputs == [] then 0
    else UnusableCount(inputs[..|inputs| - 1]) + if Unusable(inputs[|inputs| - 1]) then 1 else 0
  }

  /** Turn `i` is typed, and revokes no budget. */
  predicate SteadyAt(schema: Schema, c: Conversation, inputs: seq<TurnInput>, i: int)
    requires 0 <= i < |inputs|
  {
    WellTyped(schema, inputs[i].understanding.filled) && !Revokes(schema, AfterCollect(schema, c, inputs[..i]), inputs[i])
  }

  /** A turn that asks leaves the bot listening. */
  lemma AskListens(schema: Schema, c: Conversation, input: TurnInput)
    requires WellFormed(schema) && CollectTurn(schema, c, input).decision.Ask?
    ensures Listening(schema, CollectTurn(schema, c, input).conv)
  {
    var merged := c.(slots := MergeSlots(c.slots, input.understanding.filled), lastBotMessage := Some(input.reply));
    var counted := CountedAttempt(schema, merged, input.understanding);
    AskingCost(schema, counted, CollectTurn(schema, c, input).decision.slot);
  }

  /** One turn that asks again uses up at least what an unusable answer costs. */
  lemma AskUsesUp(schema: Schema, c: Conversation, input: TurnInput)
    requires WellFormed(schema) && Tracked(schema, c) && Listening(schema, c)
    requires WellTyped(schema, input.understanding.filled) && !Revokes(schema, c, input)
    requires CollectTurn(schema, c, input).decision.Ask?
    ensures var d := CollectTurn(schema, c, input).conv;
            && Tracked(schema, d) && Listening(schema, d)
            && Measure(schema, d) + (if Unusable(input) then 1 else 0) <= Measure(schema, c)
  {
    CollectKeepsTracked(schema, c, input);
    AskListens(schema, c, input);
    if Unusable(input) {
      UnusableTurn(schema, c, input);
    } else {
      MeasureNeverRises(schema, c, input);
    }
  }

  lemma {:induction false} HistoryUsesUp(schema: Schema, c: Conversation, inputs: seq<TurnInput>)
    requires WellFormed(schema) && Tracked(schema, c) && Listening(schema, c)
    requires forall i :: 0 <= i < |inputs| ==> SteadyAt(schema, c, inputs, i)
    requires forall i :: 0 <= i < |inputs| ==> DecisionAt(schema, c, inputs, i).Ask?
    ensures var d := AfterCollect(schema, c, inputs);
            && Tracked(schema, d) && Listening(schema, d)
            && Measure(schema, d) + UnusableCount(inputs) <= Measure(schema, c)
  {
    if inputs != [] {
      var n := |inputs| - 1;
      var before := inputs[..n];
      forall i | 0 <= i < n ensures SteadyAt(schema, c, before, i) && DecisionAt(schema, c, before, i).Ask? {
        assert before[..i] == inputs[..i];
        assert SteadyAt(schema, c, inputs, i) && DecisionAt(schema, c, inputs, i).Ask?;
      }
      HistoryUsesUp(schema, c, before);
      assert SteadyAt(schema, c, inputs, n) && DecisionAt(schema, c, inputs, n).Ask?;
      AskUsesUp(schema, AfterCollect(schema, c, before), inputs[n]);
    }
  }

  lemma HistoryCounts(schema: Schema, c: Conversation, inputs: seq<TurnInput>)
    requires DistinctNames(schema) && c.attempts == map[] && c.pending == {}
    ensures forall name :: AttemptsOf(AfterCollect(schema, c, inputs).attempts, name) == WastedOn(schema, c, inputs, name)
    ensures (forall i :: 0 <= i < |inputs| ==> !Unusable(inputs[i])) ==> NotCharged(c, AfterCollect(schema, c, inputs))
  {
    forall name ensures AttemptsOf(AfterCollect(schema, c, inputs).attempts, name) == WastedOn(schema, c, inputs, name) {
      CountsAreWastedTurns(schema, c, inputs, name);
    }
    if forall i :: 0 <= i < |inputs| ==> !Unusable(inputs[i]) {
      FreeTurnsChargeNothing(schema, c, inputs);
    }
  }

  lemma HistoryIsBounded(schema: Schema, c: Conversation, inputs: seq<TurnInput>)
    requires WellFormed(schema) && FreshlyRouted(schema, c)
    requires forall i :: 0 <= i < |inputs| ==> SteadyAt(schema, c, inputs, i)
    requires forall i :: 0 <= i < |inputs| - 1 ==> DecisionAt(schema, c, inputs, i).Ask?
    ensures UnusableCount(inputs) <= 3 * RequiredCount(schema) + OptionalCount(schema)
  {
    FreshMeasure(schema, c);
    if inputs != [] {
      var n := |inputs| - 1;
      var before := inputs[..n];
      forall i | 0 <= i < n ensures SteadyAt(schema, c, before, i) && DecisionAt(schema, c, before, i).Ask? {
        assert before[..i] == inputs[..i];
        assert SteadyAt(schema, c, inputs, i) && DecisionAt(schema, c, inputs, i).Ask?;
      }
      HistoryUsesUp(schema, c, before);
      if Unusable(inputs[n]) {
        UnusableTurn(schema, AfterCollect(schema, c, before), inputs[n]);
      }
    }
  }

  /** Over any history, with questions and out-of-order answers among its turns, at most 3R + O
      unusable turns come up to and including the one that hands off, as long as no budget is
      revoked. Each slot's count is the number of turns that wasted its question, so any number
      of questions changes none. */
  lemma UnusableTurnsAreBounded(schema: Schema, c: Conversation, inputs: seq<TurnInput>)
    requires WellFormed(schema) && FreshlyRouted(schema, c)
    requires forall i :: 0 <= i < |inputs| ==> SteadyAt(schema, c, inputs, i)
    requires forall i :: 0 <= i < |inputs| - 1 ==> DecisionAt(schema, c, inputs, i).Ask?
    ensures UnusableCount(inputs) <= 3 * RequiredCount(schema) + OptionalCount(schema)
    ensures forall name :: AttemptsOf(AfterCollect(schema, c, inputs).attempts, name) == WastedOn(schema, c, inputs, name)
    ensures (forall i :: 0 <= i < |inputs| ==> !Unusable(inputs[i])) ==> NotCharged(c, AfterCollect(schema, c, inputs))
  {
    HistoryIsBounded(schema, c, inputs);
    HistoryCounts(schema, c, inputs);
  }
}
