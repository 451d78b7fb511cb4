/** Advisor messages on their way to the customer: webhooks push payloads on a durable queue and
    each starts a background drain; drains pop until the queue is empty. */
module InboundRelay {
  import opened Prelude

  // ---- Payloads ----

  datatype Json = Text(text: string) | OtherValue

  /** What `json.loads` makes of a queued payload. */
  datatype Payload = NotJson | NotObject | Fields(fields: map<string, Json>)

  datatype AdvisorMessage = AdvisorMessage(conversationId: string, text: string, kind: string)

  function TextOf(fields: map<string, Json>, key: string): string {
    if key in fields && fields[key].Text? then fields[key].text else ""
  }

  /** A payload without a destination is unusable; any other is parsed. */
  function Parse(raw: Payload): (r: Option<AdvisorMessage>)
    ensures r.Some? <==> raw.Fields? && !IsBlank(TextOf(raw.fields, "conversation_id"))
    ensures r.Some? ==> !IsBlank(r.value.conversationId)
  {
    match raw
    case NotJson => None
    case NotObject => None
    case Fields(fields) =>
      if "conversation_id" !in fields || !fields["conversation_id"].Text? || IsBlank(fields["conversation_id"].text) then None
      else Some(AdvisorMessage(fields["conversation_id"].text, TextOf(fields, "text"), TextOf(fields, "type")))
  }

  datatype Send = Send(to: string, text: string)

  const WHATSAPP_PREFIX := "whatsapp:"
  const TEXT_TYPE := "text"

  /** What relaying a payload sends: only text messages with something in them. */
  function SendOf(raw: Payload): Option<Send> {
    var m := Parse(raw);
    if m.Some? && m.value.kind == TEXT_TYPE && !IsBlank(m.value.text)
    then Some(Send(WHATSAPP_PREFIX + m.value.conversationId, m.value.text))
    else None
  }

  /** The text field of that name. */
  predicate Says(fields: map<string, Json>, key: string, text: string) {
    key in fields && fields[key] == Text(text)
  }

  /** A payload is sent to the customer if and only if it is an object that names a conversation, is
      marked as a text and has one: that text, as it is, to the conversation's WhatsApp number. */
  lemma SendExactly(raw: Payload, to: string, text: string)
    ensures SendOf(raw) == Some(Send(to, text))
            <==> && raw.Fields? && Says(raw.fields, "type", "text") && Says(raw.fields, "text", text) && !IsBlank(text)
                 && exists id :: Says(raw.fields, "conversation_id", id) && !IsBlank(id) && to == "whatsapp:" + id
  {
    if raw.Fields? && "conversation_id" in raw.fields && raw.fields["conversation_id"].Text? {
      assert Says(raw.fields, "conversation_id", raw.fields["conversation_id"].text);
    }
    assert IsBlank("");
  }

  function WithSend(sends: seq<Send>, raw: Payload): seq<Send> {
    if SendOf(raw).Some? then sends + [SendOf(raw).value] else sends
  }

  function SendsOf(payloads: seq<Payload>): seq<Send> {
    if payloads == [] then [] else WithSend(SendsOf(payloads[..|payloads| - 1]), payloads[|payloads| - 1])
  }

  lemma OneMoreSend(before: seq<Send>, payloads: seq<Payload>, raw: Payload, more: seq<Payload>)
    requires more == payloads + [raw]
    ensures WithSend(before + SendsOf(payloads), raw) == before + SendsOf(more)
  {
    assert more[..|payloads|] == payloads;
  }

  // ---- A drain on its own ----

  /** The queue in Redis and the channel to the customer; `failing` says which sends raise. */
  class Relay {
    var queue: seq<Payload>
    var attempts: seq<Send>
    var delivered: seq<Send>

    constructor (queue: seq<Payload>)
      ensures this.queue == queue && attempts == [] && delivered == []
    {
      this.queue := queue;
      attempts, delivered := [], [];
    }

    method Pop() returns (raw: Option<Payload>)
      modifies this`queue
      ensures old(queue) == [] ==> raw == None && queue == []
      ensures old(queue) != [] ==> raw == Some(old(queue)[0]) && queue == old(queue)[1..]
    {
      if queue == [] {
        raw := None;
      } else {
        raw := Some(queue[0]);
        queue := queue[1..];
      }
    }

    /** Returns false for a send that raised; the customer may or may not have got it. */
    method Deliver(send: Send, failing: set<nat>) returns (ok: bool)
      modifies this`attempts, this`delivered
      ensures attempts == old(attempts) + [send]
      ensures ok <==> |old(attempts)| !in failing
      ensures delivered == if ok then old(delivered) + [send] else old(delivered)
    {
      ok := |attempts| !in failing;
      attempts := attempts + [send];
      if ok {
        delivered := delivered + [send];
      }
    }

    /** One turn of the loop: a payload that is no text message, or an empty one, is skipped. */
    method RelayOne(raw: Payload, failing: set<nat>)
      modifies this`attempts, this`delivered
      ensures attempts == WithSend(old(attempts), raw)
      ensures failing == {} ==> delivered == WithSend(old(delivered), raw)
    {
      var msg := Parse(raw);
      if msg.None? {
        return;
      }
      if msg.value.kind != TEXT_TYPE {
        return;
      }
      if IsBlank(msg.value.text) {
        return;
      }
      var ok := Deliver(Send(WHATSAPP_PREFIX + msg.value.conversationId, msg.value.text), failing);
    }

    /** A lone drain empties the queue and attempts exactly the relayable messages, first in
        first out, whichever sends fail. */
    method Drain(failing: set<nat>)
      modifies this
      ensures queue == []
      ensures attempts == old(attempts) + SendsOf(old(queue))
      ensures failing == {} ==> delivered == old(delivered) + SendsOf(old(queue))
    {
      ghost var popped: seq<Payload> := [];
      while true
        invariant popped + queue == old(queue)
        invariant attempts == old(attempts) + SendsOf(popped)
        invariant failing == {} ==> delivered == old(delivered) + SendsOf(popped)
        decreases |queue|
      {
        var raw := Pop();
        if raw.None? {
          assert popped == old(queue);
          return;
        }
        ghost var more := popped + [raw.value];
        OneMoreSend(old(attempts), popped, raw.value, more);
        OneMoreSend(old(delivered), popped, raw.value, more);
        RelayOne(raw.value, failing);
        popped := more;
      }
    }
  }

  // ---- Any number of webhooks and drains ----

  /** A webhook between its push and scheduling its drain. */
  type Webhook = string

  datatype Drainer = Looping | Holding(index: nat) | Finished

  /** `popped` are the payloads taken so far, in order; `relayed` and `lost` the indices of those
      dealt with and of those that no drain will ever deal with. */
  datatype State = State(
    queue: seq<Payload>, pushed: seq<Payload>, popped: seq<Payload>, relayed: seq<nat>, lost: seq<nat>,
    webhooks: set<Webhook>, drains: seq<Drainer>)

  /** A pop can raise before Redis applied it, or after; a drain can die at any point, and so can
      a webhook that has pushed. */
  datatype Event =
    | Push(webhook: Webhook, raw: Payload)
    | Schedule(webhook: Webhook)
    | Take(drain: nat)
    | Relayed(drain: nat)
    | PopRaises(drain: nat)
    | PopLost(drain: nat)
    | DrainDies(drain: nat)
    | WebhookDies(webhook: Webhook)

  const START := State([], [], [], [], [], {}, [])

  predicate Possible(s: State, e: Event) {
    match e
    case Push(w, _) => w !in s.webhooks
    case Schedule(w) => w in s.webhooks
    case Take(d) => d < |s.drains| && s.drains[d].Looping?
    case Relayed(d) => d < |s.drains| && s.drains[d].Holding?
    case PopRaises(d) => d < |s.drains| && s.drains[d].Looping?
    case PopLost(d) => d < |s.drains| && s.drains[d].Looping? && s.queue != []
    case DrainDies(d) => d < |s.drains| && s.drains[d] != Finished
    case WebhookDies(w) => w in s.webhooks
  }

  function Popped(s: State): State
    requires s.queue != []
  {
    s.(queue := s.queue[1..], popped := s.popped + [s.queue[0]])
  }

  /** LPOP is atomic; sends that fail are caught, so a drain goes on after any payload. */
  function Happen(s: State, e: Event): State
    requires Possible(s, e)
  {
    match e
    case Push(w, raw) => s.(queue := s.queue + [raw], pushed := s.pushed + [raw], webhooks := s.webhooks + {w})
    case Schedule(w) => s.(webhooks := s.webhooks - {w}, drains := s.drains + [Looping])
    case Take(d) =>
      if s.queue == [] then s.(drains := s.drains[d := Finished])
      else Popped(s).(drains := s.drains[d := Holding(|s.popped|)])
    case Relayed(d) => s.(relayed := s.relayed + [s.drains[d].index], drains := s.drains[d := Looping])
    case PopRaises(d) => s.(drains := s.drains[d := Finished])
    case PopLost(d) => Popped(s).(lost := s.lost + [|s.popped|], drains := s.drains[d := Finished])
    case DrainDies(d) =>
      var after := s.(drains := s.drains[d := Finished]);
      if s.drains[d].Holding? then after.(lost := s.lost + [s.drains[d].index]) else after
    case WebhookDies(w) => s.(webhooks := s.webhooks - {w})
  }

  // ---- Who is left to relay ----

  predicate Alive(s: State) {
    s.webhooks != {} || exists d :: 0 <= d < |s.drains| && s.drains[d] != Finished
  }

  /** A message is queued and nobody will relay it before the next webhook comes. */
  predicate Orphaned(s: State) {
    s.queue != [] && !Alive(s)
  }

  predicate LastDrain(s: State, d: nat) {
    s.webhooks == {} && forall f :: 0 <= f < |s.drains| && f != d ==> s.drains[f] == Finished
  }

  predicate LastWebhook(s: State, w: Webhook) {
    s.webhooks == {w} && forall d :: 0 <= d < |s.drains| ==> s.drains[d] == Finished
  }

  /** The event stops the last drain or webhook short, with messages still queued. */
  predicate StopsShort(s: State, e: Event) {
    match e
    case PopRaises(d) => s.queue != [] && LastDrain(s, d)
    case PopLost(d) => |s.queue| > 1 && LastDrain(s, d)
    case DrainDies(d) => s.queue != [] && LastDrain(s, d)
    case WebhookDies(w) => s.queue != [] && LastWebhook(s, w)
    case _ => false
  }

  lemma DrainStops(s: State, d: nat, t: State)
    requires d < |s.drains| && t.drains == s.drains[d := Finished] && t.webhooks == s.webhooks
    ensures Alive(t) <==> !LastDrain(s, d)
  {
    if f :| 0 <= f < |s.drains| && f != d && s.drains[f] != Finished {
      assert t.drains[f] != Finished;
    }
  }

  lemma DrainGoesOn(s: State, d: nat, t: State)
    requires d < |t.drains| && t.drains[d] != Finished
    ensures Alive(t)
  {
  }

  /** Exactly what orphans a message: the last one alive is stopped short. Only a webhook ends
      it, since while a message is orphaned nobody else is left to do anything. */
  lemma StepOrphansExactly(s: State, e: Event)
    requires Possible(s, e)
    ensures Orphaned(Happen(s, e)) <==> StopsShort(s, e)
    ensures Orphaned(s) ==> e.Push?
  {
    var t := Happen(s, e);
    match e
    case Push(w, _) => assert w in t.webhooks;
    case Schedule(_) => DrainGoesOn(s, |s.drains|, t);
    case Take(d) => if s.queue != [] { DrainGoesOn(s, d, t); }
    case Relayed(d) => DrainGoesOn(s, d, t);
    case PopRaises(d) => DrainStops(s, d, t);
    case PopLost(d) => DrainStops(s, d, t);
    case DrainDies(d) => DrainStops(s, d, t);
    case WebhookDies(w) =>
      assert t.webhooks == {} <==> s.webhooks == {w};
  }

  // ---- Each payload once ----

  predicate Fate(s: State, k: nat) {
    k in s.relayed || k in s.lost || Held(s, k)
  }

  predicate Held(s: State, k: nat) {
    exists d :: 0 <= d < |s.drains| && s.drains[d] == Holding(k)
  }

  /** A held payload is in one drain's hands only, and not dealt with yet. */
  predicate HeldOnce(s: State) {
    && (forall d :: 0 <= d < |s.drains| && s.drains[d].Holding? ==>
          && s.drains[d].index < |s.popped|
          && s.drains[d].index !in s.relayed && s.drains[d].index !in s.lost)
    && (forall d, f :: 0 <= d < f < |s.drains| && s.drains[d].Holding? && s.drains[f].Holding? ==>
          s.drains[d].index != s.drains[f].index)
  }

  predicate Distinct(xs: seq<nat>) {
    forall i, j :: 0 <= i < j < |xs| ==> xs[i] != xs[j]
  }

  predicate Below(xs: seq<nat>, bound: nat) {
    forall i :: 0 <= i < |xs| ==> xs[i] < bound
  }

  /** Every payload popped is relayed, lost, or in the hands of one drain: once, and only one of
      these. */
  ghost predicate Settled(s: State) {
    && Distinct(s.relayed) && Distinct(s.lost)
    && Below(s.relayed, |s.popped|) && Below(s.lost, |s.popped|)
    && (forall k :: k in s.relayed ==> k !in s.lost)
    && (forall k: nat :: k < |s.popped| ==> Fate(s, k))
  }

  ghost predicate Inv(s: State) {
    s.pushed == s.popped + s.queue && HeldOnce(s) && Settled(s)
  }

  lemma OneMore(xs: seq<nat>, x: nat, bound: nat)
    requires Distinct(xs) && Below(xs, bound) && x !in xs && x <= bound
    ensures Distinct(xs + [x]) && Below(xs + [x], bound + 1)
    ensures x < bound ==> Below(xs + [x], bound)
    ensures forall k :: k in xs + [x] <==> k in xs || k == x
  {
    assert (xs + [x])[|xs|] == x;
    forall k | k in xs ensures k in xs + [x] {
      var i :| 0 <= i < |xs| && xs[i] == k;
      assert (xs + [x])[i] == k;
    }
  }

  /** What a held payload's drain does with it leaves the other drains' payloads where they are. */
  lemma StillHeld(s: State, d: nat, now: Drainer, k: nat, t: State)
    requires d < |s.drains| && t.drains == s.drains[d := now] && Held(s, k) && s.drains[d] != Holding(k)
    ensures Held(t, k)
  {
    var f :| 0 <= f < |s.drains| && s.drains[f] == Holding(k);
    assert t.drains[f] == Holding(k);
  }

  lemma TakeKeeps(s: State, d: nat)
    requires Inv(s) && Possible(s, Take(d))
    ensures Inv(Happen(s, Take(d)))
  {
    var t := Happen(s, Take(d));
    forall k: nat | k < |t.popped| ensures Fate(t, k) {
      if k == |s.popped| {
        assert t.drains[d] == Holding(k);
      } else if k !in s.relayed && k !in s.lost {
        assert Fate(s, k);
        StillHeld(s, d, t.drains[d], k, t);
      }
    }
  }

  lemma RelayedKeeps(s: State, d: nat)
    requires Inv(s) && Possible(s, Relayed(d))
    ensures Inv(Happen(s, Relayed(d)))
  {
    var t := Happen(s, Relayed(d));
    var index := s.drains[d].index;
    OneMore(s.relayed, index, |s.popped|);
    forall k: nat | k < |t.popped| ensures Fate(t, k) {
      assert Fate(s, k);
      if k !in s.relayed && k !in s.lost && k != index {
        StillHeld(s, d, Looping, k, t);
      }
    }
  }

  /** A drain ends; what it held, or had just taken, is lost. */
  lemma LosingKeeps(s: State, d: nat, t: State, k: nat)
    requires Inv(s) && d < |s.drains| && t.drains == s.drains[d := Finished]
    requires t.relayed == s.relayed && t.lost == s.lost + [k]
    requires if s.drains[d].Holding? then t.popped == s.popped && k == s.drains[d].index
             else |t.popped| == |s.popped| + 1 && k == |s.popped|
    requires t.pushed == t.popped + t.queue
    ensures Inv(t)
  {
    OneMore(s.lost, k, |s.popped|);
    forall j: nat | j < |t.popped| ensures Fate(t, j) {
      if j != k {
        assert Fate(s, j);
        if j !in s.relayed && j !in s.lost {
          StillHeld(s, d, Finished, j, t);
        }
      }
    }
  }

  lemma OthersKeep(s: State, e: Event)
    requires Inv(s) && Possible(s, e)
    requires e.Push? || e.Schedule? || e.WebhookDies? || e.PopRaises? || (e.DrainDies? && !s.drains[e.drain].Holding?)
    ensures Inv(Happen(s, e))
  {
    var t := Happen(s, e);
    forall k: nat | k < |t.popped| ensures Fate(t, k) {
      assert Fate(s, k);
      if k !in s.relayed && k !in s.lost {
        var f :| 0 <= f < |s.drains| && s.drains[f] == Holding(k);
        assert t.drains[f] == Holding(k);
      }
    }
  }

  lemma StepKeepsInv(s: State, e: Event)
    requires Inv(s) && Possible(s, e)
    ensures Inv(Happen(s, e))
  {
    var t := Happen(s, e);
    match e
    case Take(d) => TakeKeeps(s, d);
    case Relayed(d) => RelayedKeeps(s, d);
    case PopLost(d) => LosingKeeps(s, d, t, |s.popped|);
    case DrainDies(d) => if s.drains[d].Holding? { LosingKeeps(s, d, t, s.drains[d].index); } else { OthersKeep(s, e); }
    case _ => OthersKeep(s, e);
  }

  // ---- Runs ----

  predicate StepAt(states: seq<State>, events: seq<Event>, i: int)
    requires |states| == |events| + 1 && 0 <= i < |events|
  {
    Possible(states[i], events[i]) && states[i + 1] == Happen(states[i], events[i])
  }

  predicate IsRun(states: seq<State>, events: seq<Event>) {
    && |states| == |events| + 1 && states[0] == START
    && forall i :: 0 <= i < |events| ==> StepAt(states, events, i)
  }

  lemma {:induction false} RunKeepsInv(states: seq<State>, events: seq<Event>, i: nat)
    requires IsRun(states, events) && i < |states|
    ensures Inv(states[i])
  {
    if i > 0 {
      RunKeepsInv(states, events, i - 1);
      assert StepAt(states, events, i - 1);
      StepKeepsInv(states[i - 1], events[i - 1]);
    }
  }

  /** Payloads are popped in the order pushed, and a queue is orphaned if and only if the event
      just before stopped the last drain or webhook short: a push ends it at once. */
  lemma OrphanedExactly(states: seq<State>, events: seq<Event>, i: nat)
    requires IsRun(states, events) && i < |states|
    ensures states[i].pushed == states[i].popped + states[i].queue
    ensures Orphaned(states[i]) <==> i > 0 && StopsShort(states[i - 1], events[i - 1])
  {
    RunKeepsInv(states, events, i);
    if i > 0 {
      assert StepAt(states, events, i - 1);
      StepOrphansExactly(states[i - 1], events[i - 1]);
    }
  }

  /** The event loses payload `k`: its drain dies with it in its hands, or the pop that took it
      raised. */
  predicate Loses(s: State, e: Event, k: nat) {
    match e
    case PopLost(_) => k == |s.popped|
    case DrainDies(d) => d < |s.drains| && s.drains[d] == Holding(k)
    case _ => false
  }

  lemma StepLosesExactly(s: State, e: Event, k: nat)
    requires Possible(s, e)
    ensures k in Happen(s, e).lost <==> k in s.lost || Loses(s, e, k)
  {
  }

  predicate LostAt(states: seq<State>, events: seq<Event>, j: int, k: nat)
    requires |states| == |events| + 1 && 0 <= j < |events|
  {
    Loses(states[j], events[j], k)
  }

  lemma {:induction false} LostExactly(states: seq<State>, events: seq<Event>, i: nat, k: nat)
    requires IsRun(states, events) && i < |states|
    ensures k in states[i].lost <==> exists j :: 0 <= j < i && LostAt(states, events, j, k)
  {
    if i > 0 {
      LostExactly(states, events, i - 1, k);
      assert StepAt(states, events, i - 1);
      StepLosesExactly(states[i - 1], events[i - 1], k);
      assert LostAt(states, events, i - 1, k) <==> Loses(states[i - 1], events[i - 1], k);
    }
  }

  /** Once every drain has finished, each payload popped was dealt with once, unless it was lost,
      and it was lost if and only if its drain died with it or the pop that took it raised. */
  lemma EachRelayedOnce(states: seq<State>, events: seq<Event>, i: nat, k: nat)
    requires IsRun(states, events) && i < |states| && k < |states[i].popped|
    requires forall d :: 0 <= d < |states[i].drains| ==> states[i].drains[d] == Finished
    ensures k in states[i].relayed <==> !exists j :: 0 <= j < i && LostAt(states, events, j, k)
    ensures Distinct(states[i].relayed)
  {
    RunKeepsInv(states, events, i);
    LostExactly(states, events, i, k);
    assert Fate(states[i], k);
  }

  /** A pop that raises can orphan a message until the next webhook arrives. */
  lemma FailedPopOrphans(w: Webhook, raw: Payload)
    ensures var events := [Push(w, raw), Schedule(w), PopRaises(0)];
            exists states: seq<State> :: IsRun(states, events) && states[3].queue == [raw] && Orphaned(states[3])
  {
    var s1 := Happen(START, Push(w, raw));
    var s2 := Happen(s1, Schedule(w));
    var s3 := Happen(s2, PopRaises(0));
    assert IsRun([START, s1, s2, s3], [Push(w, raw), Schedule(w), PopRaises(0)]);
  }

  ghost predicate EndsIn(events: seq<Event>, s: State) {
    exists states :: IsRun(states, events) && states[|events|] == s
  }

  lemma OneMoreEvent(events: seq<Event>, s: State, e: Event, more: seq<Event>, after: State)
    requires EndsIn(events, s) && Possible(s, e) && more == events + [e] && after == Happen(s, e)
    ensures EndsIn(more, after)
  {
    var states :| IsRun(states, events) && states[|events|] == s;
    var longer := states + [after];
    forall i | 0 <= i < |more| ensures StepAt(longer, more, i) {
      if i < |events| {
        assert StepAt(states, events, i);
      }
    }
    assert IsRun(longer, more) && longer[|more|] == after;
  }

  /** Two messages have been pushed, and a drain scheduled for each. */
  lemma TwoDrains(w: Webhook, first: Payload, v: Webhook, second: Payload)
    requires v != w
    ensures EndsIn([Push(w, first), Schedule(w), Push(v, second), Schedule(v)],
                   State([first, second], [first, second], [], [], [], {}, [Looping, Looping]))
  {
    var s1 := State([first], [first], [], [], [], {w}, []);
    var s2 := State([first], [first], [], [], [], {}, [Looping]);
    var s3 := State([first, second], [first, second], [], [], [], {v}, [Looping]);
    var s4 := State([first, second], [first, second], [], [], [], {}, [Looping, Looping]);
    assert IsRun([START], []) && [START][0] == START;
    OneMoreEvent([], START, Push(w, first), [Push(w, first)], s1);
    OneMoreEvent([Push(w, first)], s1, Schedule(w), [Push(w, first), Schedule(w)], s2);
    OneMoreEvent([Push(w, first), Schedule(w)], s2, Push(v, second), [Push(w, first), Schedule(w), Push(v, second)], s3);
    OneMoreEvent([Push(w, first), Schedule(w), Push(v, second)], s3, Schedule(v),
                 [Push(w, first), Schedule(w), Push(v, second), Schedule(v)], s4);
  }

  /** Drains that die lose the message in their hands and orphan the next one, although no pop and
      no webhook failed. */
  lemma DeadDrainsLoseAndOrphan(w: Webhook, first: Payload, v: Webhook, second: Payload)
    requires v != w
    ensures var events := [Push(w, first), Schedule(w), Push(v, second), Schedule(v), Take(0), DrainDies(0), DrainDies(1)];
            exists s :: EndsIn(events, s) && s.lost == [0] && s.queue == [second] && Orphaned(s)
  {
    TwoDrains(w, first, v, second);
    var events := [Push(w, first), Schedule(w), Push(v, second), Schedule(v)];
    var s4 := State([first, second], [first, second], [], [], [], {}, [Looping, Looping]);
    var s5 := State([second], [first, second], [first], [], [], {}, [Holding(0), Looping]);
    var s6 := State([second], [first, second], [first], [], [0], {}, [Finished, Looping]);
    var s7 := State([second], [first, second], [first], [], [0], {}, [Finished, Finished]);
    OneMoreEvent(events, s4, Take(0), events + [Take(0)], s5);
    OneMoreEvent(events + [Take(0)], s5, DrainDies(0), events + [Take(0), DrainDies(0)], s6);
    OneMoreEvent(events + [Take(0), DrainDies(0)], s6, DrainDies(1), events + [Take(0), DrainDies(0), DrainDies(1)], s7);
    assert events + [Take(0), DrainDies(0), DrainDies(1)] ==
           [Push(w, first), Schedule(w), Push(v, second), Schedule(v), Take(0), DrainDies(0), DrainDies(1)];
  }
}
