/** The JSON form of the record, as the store writes it and reads it back. */
module Payloads {
  import opened Prelude
  import opened Schemas
  import opened Slots
  import opened Conversations

  /** What a key of the stored object holds; objects written long ago lack some keys. */
  datatype Entry<+T> = Missing | Held(value: T) {
    function OrElse(default: T): T {
      match this
      case Missing => default
      case Held(v) => v
    }
  }

  datatype Payload = Payload(
    tripType: Entry<Option<string>>,
    slots: Entry<SlotMap>,
    phase: Entry<string>,
    lastAsked: Entry<Option<SlotName>>,
    asked: Entry<seq<SlotName>>,
    attempts: Entry<map<SlotName, nat>>,
    pending: Entry<seq<SlotName>>,
    lastBotMessage: Entry<Option<string>>,
    chatId: Entry<Option<string>>,
    deadline: Entry<Option<real>>,
    leadId: Entry<Option<int>>,
    contactId: Entry<Option<int>>,
    greeted: Entry<bool>,
    nameAcknowledged: Entry<bool>)

  function TripValue(t: TripType): string {
    match t
    case Cruise => "cruise"
    case Europe => "europe"
    case Asia => "asia"
  }

  function TripOf(text: string): Option<TripType> {
    if text == "cruise" then Some(Cruise)
    else if text == "europe" then Some(Europe)
    else if text == "asia" then Some(Asia)
    else None
  }

  function PhaseValue(phase: Phase): string {
    if phase == Collecting then "collecting" else "handed_off"
  }

  function PhaseOf(text: string): Option<Phase> {
    if text == "collecting" then Some(Collecting)
    else if text == "handed_off" then Some(HandedOff)
    else None
  }

  // ---- Sets as sorted lists ----

  /** How the names are ordered when they are sorted. */
  type Order = (SlotName, SlotName) -> bool

  ghost predicate TotalOrder(leq: Order) {
    && (forall a, b :: leq(a, b) || leq(b, a))
    && (forall a, b :: leq(a, b) && leq(b, a) ==> a == b)
    && (forall a, b, c :: leq(a, b) && leq(b, c) ==> leq(a, c))
  }

  function Elements(names: seq<SlotName>): set<SlotName> {
    set x | x in names
  }

  ghost predicate Increasing(leq: Order, names: seq<SlotName>) {
    forall i, j :: 0 <= i < j < |names| ==> leq(names[i], names[j]) && names[i] != names[j]
  }

  ghost predicate IsLeast(leq: Order, x: SlotName, names: set<SlotName>) {
    x in names && forall y :: y in names ==> leq(x, y)
  }

  lemma {:induction false} LeastExists(leq: Order, names: set<SlotName>)
    requires TotalOrder(leq) && names != {}
    ensures exists x :: IsLeast(leq, x, names)
  {
    var some :| some in names;
    var others := names - {some};
    if others == {} {
      assert names == {some};
      assert IsLeast(leq, some, names);
    } else {
      LeastExists(leq, others);
      var x :| IsLeast(leq, x, others);
      assert IsLeast(leq, if leq(some, x) then some else x, names);
    }
  }

  ghost function Least(leq: Order, names: set<SlotName>): (x: SlotName)
    requires TotalOrder(leq) && names != {}
    ensures IsLeast(leq, x, names)
  {
    LeastExists(leq, names);
    var x :| IsLeast(leq, x, names);
    x
  }

  lemma LeastFirst(leq: Order, x: SlotName, rest: seq<SlotName>, names: set<SlotName>)
    requires IsLeast(leq, x, names) && Elements(rest) == names - {x} && Increasing(leq, rest)
    ensures Elements([x] + rest) == names && Increasing(leq, [x] + rest)
  {
    forall y ensures y in Elements([x] + rest) <==> y in names {
      assert y in [x] + rest <==> y == x || y in Elements(rest);
    }
    forall j | 0 <= j < |rest| ensures leq(x, rest[j]) && x != rest[j] {
      assert rest[j] in Elements(rest);
    }
  }

  ghost function Sorted(leq: Order, names: set<SlotName>): (r: seq<SlotName>)
    requires TotalOrder(leq)
    ensures Elements(r) == names && Increasing(leq, r)
  {
    if names == {} then []
    else
      var x := Least(leq, names);
      var rest := Sorted(leq, names - {x});
      LeastFirst(leq, x, rest, names);
      [x] + rest
  }

  /** A set has one sorted list. */
  lemma {:induction false} SortedIsUnique(leq: Order, names: seq<SlotName>)
    requires TotalOrder(leq) && Increasing(leq, names)
    ensures Sorted(leq, Elements(names)) == names
  {
    if names != [] {
      assert names[0] in Elements(names);
      var x := Least(leq, Elements(names));
      assert leq(names[0], x) && x == names[0];
      assert Elements(names) - {x} == Elements(names[1..]);
      SortedIsUnique(leq, names[1..]);
    }
  }

  // ---- The two directions ----

  ghost function ToPayload(leq: Order, c: Conversation): Payload
    requires TotalOrder(leq)
  {
    Payload(
      Held(if c.tripType.None? then None else Some(TripValue(c.tripType.value))),
      Held(c.slots), Held(PhaseValue(c.phase)), Held(c.lastAsked), Held(Sorted(leq, c.asked)), Held(c.attempts),
      Held(Sorted(leq, c.pending)), Held(c.lastBotMessage), Held(c.chatId), Held(c.deadline), Held(c.leadId),
      Held(c.contactId), Held(c.greeted), Held(c.nameAcknowledged))
  }

  /** Nothing is returned when a key that was always written is missing, or names no trip or
      phase: reading it raises. */
  function FromPayload(p: Payload): Option<Conversation> {
    if p.tripType.Missing? || p.slots.Missing? || p.phase.Missing? || p.lastAsked.Missing? then None
    else
      var trip := if p.tripType.value.None? then None else TripOf(p.tripType.value.value);
      var phase := PhaseOf(p.phase.value);
      if (p.tripType.value.Some? && trip.None?) || phase.None? then None
      else
        Some(Conversation(
          trip, p.slots.value, phase.value, p.lastAsked.value, Elements(p.asked.OrElse([])), p.attempts.OrElse(map[]),
          Elements(p.pending.OrElse([])), p.lastBotMessage.OrElse(None), p.chatId.OrElse(None), p.deadline.OrElse(None),
          p.leadId.OrElse(None), p.contactId.OrElse(None), p.greeted.OrElse(false), p.nameAcknowledged.OrElse(false)))
  }

  /** The query for due deadlines, on the stored object: the key is there and not null, it is not
      later than `now`, and the phase is the text it looks for. */
  predicate QueryFinds(p: Payload, now: real) {
    p.deadline.Held? && p.deadline.value.Some? && p.deadline.value.value <= now && p.phase == Held("collecting")
  }

  lemma ValuesRoundTrip(t: TripType, phase: Phase)
    ensures TripOf(TripValue(t)) == Some(t) && PhaseOf(PhaseValue(phase)) == Some(phase)
  {
  }

  /** Every record survives being stored. */
  lemma RoundTrip(leq: Order, c: Conversation)
    requires TotalOrder(leq)
    ensures FromPayload(ToPayload(leq, c)) == Some(c)
  {
    ValuesRoundTrip(c.tripType.GetOr(Cruise), c.phase);
  }

  // ---- Objects written before some key existed ----

  predicate Agrees<T(==)>(entry: Entry<T>, full: Entry<T>) {
    entry.Missing? || entry == full
  }

  /** What an earlier version would have written: later keys may be missing. */
  predicate Earlier(p: Payload, full: Payload) {
    && p.tripType == full.tripType && p.slots == full.slots && p.phase == full.phase && p.lastAsked == full.lastAsked
    && Agrees(p.asked, full.asked) && Agrees(p.attempts, full.attempts) && Agrees(p.pending, full.pending)
    && Agrees(p.lastBotMessage, full.lastBotMessage) && Agrees(p.chatId, full.chatId) && Agrees(p.deadline, full.deadline)
    && Agrees(p.leadId, full.leadId) && Agrees(p.contactId, full.contactId)
    && Agrees(p.greeted, full.greeted) && Agrees(p.nameAcknowledged, full.nameAcknowledged)
  }

  /** A field is `c`'s where the object has it, and a new conversation's where it has not. */
  predicate KeptOrNew<T, U(==)>(e: Entry<T>, loaded: U, kept: U, unset: U) {
    loaded == if e.Missing? then unset else kept
  }

  predicate LoadsAs(p: Payload, c: Conversation, d: Conversation) {
    var n := NEW_CONVERSATION;
    && d.tripType == c.tripType && d.slots == c.slots && d.phase == c.phase && d.lastAsked == c.lastAsked
    && KeptOrNew(p.asked, d.asked, c.asked, n.asked)
    && KeptOrNew(p.attempts, d.attempts, c.attempts, n.attempts)
    && KeptOrNew(p.pending, d.pending, c.pending, n.pending)
    && KeptOrNew(p.lastBotMessage, d.lastBotMessage, c.lastBotMessage, n.lastBotMessage)
    && KeptOrNew(p.chatId, d.chatId, c.chatId, n.chatId)
    && KeptOrNew(p.deadline, d.deadline, c.deadline, n.deadline)
    && KeptOrNew(p.leadId, d.leadId, c.leadId, n.leadId)
    && KeptOrNew(p.contactId, d.contactId, c.contactId, n.contactId)
    && KeptOrNew(p.greeted, d.greeted, c.greeted, n.greeted)
    && KeptOrNew(p.nameAcknowledged, d.nameAcknowledged, c.nameAcknowledged, n.nameAcknowledged)
  }

  lemma EarlierLoads(p: Payload, full: Payload)
    requires Earlier(p, full) && FromPayload(full).Some?
    ensures FromPayload(p).Some? && LoadsAs(p, FromPayload(full).value, FromPayload(p).value)
  {
    assert Elements([]) == {};
  }

  /** Whatever later keys an object lacks, it loads, and what it lacks is as in a new
      conversation. */
  lemma EarlierPayloadsLoad(leq: Order, p: Payload, c: Conversation)
    requires TotalOrder(leq) && Earlier(p, ToPayload(leq, c))
    ensures FromPayload(p).Some? && LoadsAs(p, c, FromPayload(p).value)
  {
    RoundTrip(leq, c);
    EarlierLoads(p, ToPayload(leq, c));
  }

  // ---- Saving what was loaded ----

  predicate Complete(p: Payload) {
    && p.asked.Held? && p.attempts.Held? && p.pending.Held? && p.lastBotMessage.Held? && p.chatId.Held? && p.deadline.Held?
    && p.leadId.Held? && p.contactId.Held? && p.greeted.Held? && p.nameAcknowledged.Held?
  }

  lemma SortedExactly(leq: Order, names: seq<SlotName>)
    requires TotalOrder(leq)
    ensures Sorted(leq, Elements(names)) == names <==> Increasing(leq, names)
  {
    if Increasing(leq, names) {
      SortedIsUnique(leq, names);
    }
  }

  lemma TripReread(text: string)
    requires TripOf(text).Some?
    ensures TripValue(TripOf(text).value) == text
  {
  }

  lemma PhaseReread(text: string)
    requires PhaseOf(text).Some?
    ensures PhaseValue(PhaseOf(text).value) == text
  {
  }

  /** Saving a loaded object writes the same object if and only if it has every key and its lists
      are sorted without repetition. */
  lemma ResavedExactly(leq: Order, p: Payload)
    requires TotalOrder(leq) && FromPayload(p).Some?
    ensures ToPayload(leq, FromPayload(p).value) == p <==>
            Complete(p) && Increasing(leq, p.asked.value) && Increasing(leq, p.pending.value)
  {
    if p.tripType.value.Some? {
      TripReread(p.tripType.value.value);
    }
    PhaseReread(p.phase.value);
    if Complete(p) {
      SortedExactly(leq, p.asked.value);
      SortedExactly(leq, p.pending.value);
    }
  }

  /** The query finds an object if and only if the record it loads as is collecting with a deadline
      that has passed: objects without the key are in no sweep. */
  lemma QueryFindsExactly(p: Payload, now: real)
    requires FromPayload(p).Some?
    ensures var c := FromPayload(p).value;
            QueryFinds(p, now) <==> c.phase == Collecting && c.deadline.Some? && c.deadline.value <= now
  {
  }
}
