/** A history that is handed over as stuck although nothing is missing any more. */
module TurnExamples {
  import opened Prelude
  import opened Schemas
  import opened Slots
  import opened Completeness
  import opened Conversations
  import opened TurnLogic
  import opened TurnInvariants

  // ---- An answer to everything ----

  function Sample(kind: FieldKind): Value {
    match kind
    case TextField => Text("Ana")
    case BudgetField => Nested(map[Amount := Text("5000")])
    case PassengersField => Nested(map[Adults := Whole(2)])
  }

  function Everything(schema: Schema): SlotMap {
    if schema == [] then map[] else Everything(schema[1..])[schema[0].name := Sample(schema[0].kind)]
  }

  lemma {:induction false} EverythingAt(schema: Schema, s: SlotSpec)
    requires DistinctNames(schema) && s in schema
    ensures Get(Everything(schema), s.name) == Sample(s.kind)
  {
    if s != schema[0] {
      var i :| 0 <= i < |schema| && schema[i] == s;
      assert schema[1..][i - 1] == s;
      EverythingAt(schema[1..], s);
      assert schema[0].name != schema[i].name;
    }
  }

  lemma SampleFits(s: SlotSpec)
    requires SpecOk(s)
    ensures FitsKind(s.kind, Sample(s.kind)) && Sample(s.kind) != Null
    ensures s.rule == BudgetRule ==> BudgetSatisfied(Sample(s.kind))
    ensures s.rule == PassengersRule ==> PassengersSatisfied(Sample(s.kind))
  {
    var budget, people := map[Amount := Text("5000")], map[Adults := Whole(2)];
    assert Get(budget, Amount) == Text("5000") && Get(people, Adults) == Whole(2);
  }

  lemma EverythingSatisfies(schema: Schema)
    requires WellFormed(schema)
    ensures WellTyped(schema, Everything(schema))
    ensures forall s :: s in schema ==> IsSatisfied(s, Everything(schema))
  {
    forall s | s in schema
      ensures FitsKind(s.kind, Get(Everything(schema), s.name)) && IsSatisfied(s, Everything(schema))
    {
      assert SpecOk(s);
      EverythingAt(schema, s);
      SampleFits(s);
    }
  }

  lemma {:induction false} EverythingIsOwn(schema: Schema)
    ensures OwnSlots(schema, Everything(schema))
  {
    if schema != [] {
      EverythingIsOwn(schema[1..]);
      forall n | n in Everything(schema) ensures Named(schema, n) {
        if n == schema[0].name {
          assert schema[0] in schema;
        } else {
          var s :| s in schema[1..] && s.name == n;
          assert s in schema;
        }
      }
    }
  }

  lemma MergedIntoNothing(filled: SlotMap)
    requires forall k :: k in filled ==> filled[k] != Null
    ensures MergeSlots(map[], filled) == filled
  {
    assert Said(filled) == filled;
    forall k | k in filled ensures MergeSlots(map[], filled)[k] == filled[k] {
      MergedAt(map[], filled, k);
    }
  }

  lemma {:induction false} EverythingIsSaid(schema: Schema)
    ensures forall k :: k in Everything(schema) ==> Everything(schema)[k] != Null
  {
    if schema != [] {
      EverythingIsSaid(schema[1..]);
    }
  }

  // ---- The history ----

  function Routing(trip: TripType): TurnInput {
    TurnInput(Some(trip), Understanding(map[], "", false), "")
  }

  const NOTHING := TurnInput(None, Understanding(map[], "", false), "")

  function Telling(filled: SlotMap): TurnInput {
    TurnInput(None, Understanding(filled, "", false), "")
  }

  function Charges(name: SlotName, k: nat): map<SlotName, nat> {
    if k == 0 then map[] else map[name := k]
  }

  /** The first slot has been asked, and `k` answers to it were unusable. */
  predicate AskedFirst(schema: Schema, first: SlotSpec, c: Conversation, k: nat) {
    && c.slots == map[] && c.pending == {} && c.asked == {first.name} && c.lastAsked == Some(first.name)
    && c.attempts == Charges(first.name, k)
  }

  lemma FirstStillFirst(schema: Schema, first: SlotSpec, asked: set<SlotName>)
    requires NextSlotToAsk(schema, map[], {}, {}) == Some(first) && first.required
    ensures NextSlotToAsk(schema, map[], asked, {}) == Some(first)
  {
    var i :| 0 <= i < |schema| && schema[i] == first && StillToAsk(schema[i], map[], {}, {})
             && forall j :: 0 <= j < i ==> !StillToAsk(schema[j], map[], {}, {});
    assert StillToAsk(first, map[], asked, {}) && first in schema;
    var next := NextSlotToAsk(schema, map[], asked, {}).value;
    var k :| 0 <= k < |schema| && schema[k] == next && StillToAsk(schema[k], map[], asked, {})
             && forall j :: 0 <= j < k ==> !StillToAsk(schema[j], map[], asked, {});
    assert forall j :: 0 <= j < i ==> !StillToAsk(schema[j], map[], asked, {});
  }

  /** The conversation after one more turn in which nothing usable is said. */
  function Ignored(schema: Schema, c: Conversation): Conversation {
    CollectTurn(schema, c, NOTHING).conv
  }

  /** What the first question costs when it is not answered. */
  lemma Charged(schema: Schema, first: SlotSpec, c: Conversation, k: nat)
    requires WellFormed(schema) && first in schema && first.required && !IsSatisfied(first, map[])
    requires AskedFirst(schema, first, c, k) && k <= 2
    ensures CountedAttempt(schema, c, NOTHING.understanding) ==
            c.(attempts := map[first.name := k + 1], pending := if k == 2 then {first.name} else {})
  {
    FindSlotUnique(schema, first);
    assert map[first.name := k][first.name := k + 1] == map[first.name := k + 1];
  }

  /** An unusable answer to the first question: it is asked again, twice. */
  lemma AskedAgain(schema: Schema, first: SlotSpec, c: Conversation, k: nat)
    requires WellFormed(schema) && NextSlotToAsk(schema, map[], {}, {}) == Some(first) && first.required
    requires AskedFirst(schema, first, c, k) && k < 2
    ensures AskedFirst(schema, first, Ignored(schema, c), k + 1)
  {
    var said := c.(lastBotMessage := Some(""));
    Charged(schema, first, said, k);
    assert MergeSlots(map[], map[]) == map[];
    FirstStillFirst(schema, first, c.asked);
    assert c.asked + {first.name} == {first.name};
  }

  /** The third one gives it up. */
  lemma GivenUp(schema: Schema, first: SlotSpec, c: Conversation)
    requires WellFormed(schema) && NextSlotToAsk(schema, map[], {}, {}) == Some(first) && first.required
    requires AskedFirst(schema, first, c, 2)
    ensures var d := Ignored(schema, c); d.slots == map[] && d.pending == {first.name}
  {
    var said := c.(lastBotMessage := Some(""));
    Charged(schema, first, said, 2);
    assert MergeSlots(map[], map[]) == map[];
  }

  lemma AskedOnceMore(schema: Schema, first: SlotSpec, c: Conversation, k: nat, n: nat)
    requires WellFormed(schema) && NextSlotToAsk(schema, map[], {}, {}) == Some(first) && first.required
    requires AskedFirst(schema, first, c, k) && k < 2 && n == k + 1
    ensures AskedFirst(schema, first, Ignored(schema, c), n)
  {
    AskedAgain(schema, first, c, k);
  }

  lemma AskedTwice(schema: Schema, first: SlotSpec, c: Conversation)
    requires WellFormed(schema) && NextSlotToAsk(schema, map[], {}, {}) == Some(first) && first.required
    requires AskedFirst(schema, first, c, 0)
    ensures AskedFirst(schema, first, Ignored(schema, Ignored(schema, c)), 2)
  {
    AskedOnceMore(schema, first, c, 0, 1);
    AskedOnceMore(schema, first, Ignored(schema, c), 1, 2);
  }

  lemma GivenUpAtLast(schema: Schema, first: SlotSpec, c: Conversation)
    requires WellFormed(schema) && NextSlotToAsk(schema, map[], {}, {}) == Some(first) && first.required
    requires AskedFirst(schema, first, c, 0)
    ensures var d := Ignored(schema, Ignored(schema, Ignored(schema, c))); d.slots == map[] && d.pending == {first.name}
  {
    AskedTwice(schema, first, c);
    GivenUp(schema, first, Ignored(schema, Ignored(schema, c)));
  }

  lemma OneMoreTurn(catalogue: Catalogue, c: Conversation, inputs: seq<TurnInput>, input: TurnInput)
    requires TypedRun(catalogue, c, inputs) && TypedInput(catalogue, After(catalogue, c, inputs), input)
    ensures TypedRun(catalogue, c, inputs + [input])
    ensures After(catalogue, c, inputs + [input]) == TakeTurn(catalogue, After(catalogue, c, inputs), input).conv
  {
    var more := inputs + [input];
    assert more[..|inputs|] == inputs;
    forall i | 0 <= i < |more| ensures TypedAt(catalogue, c, more, i) {
      if i < |inputs| {
        assert more[..i] == inputs[..i] && TypedAt(catalogue, c, inputs, i);
      }
    }
  }

  lemma Routed(catalogue: Catalogue, trip: TripType, first: SlotSpec)
    requires NextSlotToAsk(catalogue.For(trip), map[], {}, {}) == Some(first)
    ensures var c := TakeTurn(catalogue, NEW_CONVERSATION, Routing(trip)).conv;
            c.tripType == Some(trip) && AskedFirst(catalogue.For(trip), first, c, 0)
  {
  }

  /** Everything is told at once: nothing is left to ask, but the slot that was given up on stays
      given up on. */
  lemma ToldTooLate(schema: Schema, first: SlotSpec, c: Conversation)
    requires WellFormed(schema) && schema != [] && c.slots == map[] && c.pending == {first.name}
    ensures var t := CollectTurn(schema, c, Telling(Everything(schema)));
            t.decision == HandOff(Stuck) && NextRequiredSlot(schema, t.conv.slots) == None
  {
    var filled := Everything(schema);
    EverythingSatisfies(schema);
    EverythingIsSaid(schema);
    MergedIntoNothing(filled);
    assert schema[0].name in filled;
    var t := CollectTurn(schema, c, Telling(filled));
    assert t.conv.slots == filled && t.conv.pending == {first.name};
  }

  /** `c` is what `inputs` make of a new conversation. */
  predicate LeadsTo(catalogue: Catalogue, inputs: seq<TurnInput>, c: Conversation) {
    TypedRun(catalogue, NEW_CONVERSATION, inputs) && c == After(catalogue, NEW_CONVERSATION, inputs)
  }

  lemma RoutingTurn(catalogue: Catalogue, trip: TripType, first: SlotSpec) returns (inputs: seq<TurnInput>, c: Conversation)
    requires NextSlotToAsk(catalogue.For(trip), map[], {}, {}) == Some(first)
    ensures LeadsTo(catalogue, inputs, c) && c.tripType == Some(trip) && AskedFirst(catalogue.For(trip), first, c, 0)
  {
    Routed(catalogue, trip, first);
    OneMoreTurn(catalogue, NEW_CONVERSATION, [], Routing(trip));
    inputs, c := [] + [Routing(trip)], TakeTurn(catalogue, NEW_CONVERSATION, Routing(trip)).conv;
  }

  /** One more turn in which nothing usable is said. */
  lemma SilentTurn(catalogue: Catalogue, trip: TripType, inputs: seq<TurnInput>, c: Conversation) returns (more: seq<TurnInput>, d: Conversation)
    requires LeadsTo(catalogue, inputs, c) && c.tripType == Some(trip)
    ensures LeadsTo(catalogue, more, d) && d.tripType == Some(trip) && d == Ignored(catalogue.For(trip), c)
  {
    assert WellTyped(catalogue.For(trip), map[]) && OwnSlots(catalogue.For(trip), map[]);
    OneMoreTurn(catalogue, NEW_CONVERSATION, inputs, NOTHING);
    more, d := inputs + [NOTHING], TakeTurn(catalogue, c, NOTHING).conv;
  }

  /** Four turns in, the first slot has been given up on and nothing has been said. */
  lemma SilentSoFar(catalogue: Catalogue, trip: TripType, first: SlotSpec) returns (inputs: seq<TurnInput>, c: Conversation)
    requires Usable(catalogue) && NextSlotToAsk(catalogue.For(trip), map[], {}, {}) == Some(first) && first.required
    ensures LeadsTo(catalogue, inputs, c) && c.tripType == Some(trip) && c.slots == map[] && c.pending == {first.name}
  {
    var schema := catalogue.For(trip);
    inputs, c := RoutingTurn(catalogue, trip, first);
    GivenUpAtLast(schema, first, c);
    inputs, c := SilentTurn(catalogue, trip, inputs, c);
    inputs, c := SilentTurn(catalogue, trip, inputs, c);
    inputs, c := SilentTurn(catalogue, trip, inputs, c);
  }

  /** For any catalogue whose first question is for a required slot: one conversation, from the
      start, that is handed over as stuck with every required slot satisfied. */
  lemma StuckWithNothingMissing(catalogue: Catalogue, trip: TripType, first: SlotSpec) returns (inputs: seq<TurnInput>, last: TurnInput)
    requires Usable(catalogue) && NextSlotToAsk(catalogue.For(trip), map[], {}, {}) == Some(first) && first.required
    ensures TypedRun(catalogue, NEW_CONVERSATION, inputs + [last])
    ensures var t := TakeTurn(catalogue, After(catalogue, NEW_CONVERSATION, inputs), last);
            t.decision == HandOff(Stuck) && NextRequiredSlot(catalogue.For(trip), t.conv.slots) == None
  {
    var schema := catalogue.For(trip);
    var c: Conversation;
    inputs, c := SilentSoFar(catalogue, trip, first);
    last := Telling(Everything(schema));
    EverythingSatisfies(schema);
    EverythingIsOwn(schema);
    ToldTooLate(schema, first, c);
    OneMoreTurn(catalogue, NEW_CONVERSATION, inputs, last);
  }

  /** The shipped catalogue is one. */
  lemma ShippedStuckWithNothingMissing(trip: TripType) returns (inputs: seq<TurnInput>, last: TurnInput)
    ensures TypedRun(SHIPPED, NEW_CONVERSATION, inputs + [last])
    ensures var t := TakeTurn(SHIPPED, After(SHIPPED, NEW_CONVERSATION, inputs), last);
            t.decision == HandOff(Stuck) && NextRequiredSlot(SHIPPED.For(trip), t.conv.slots) == None
  {
    ShippedIsUsable();
    inputs, last := StuckWithNothingMissing(SHIPPED, trip, RequiredText(NombreCliente));
  }
}
