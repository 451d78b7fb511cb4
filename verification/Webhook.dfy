/** The input checks of the customer webhook, in order, over the keys they use in Redis; and how
    many messages they let through. INCR and EXPIRE are one step. */
module Webhook {
  import opened Prelude
  import opened RateWindows
  import Debounce

  datatype Config = Config(
    dedupTtl: real, rateWindow: real, rateThreshold: nat, blockCooldown: real, bufferMax: nat, debounce: Debounce.Config)

  datatype Incoming = Incoming(sender: string, text: string, messageId: string)

  datatype Keys = Keys(
    blocked: map<string, real>,
    seen: map<string, real>,
    handedOff: set<string>,
    rate: map<string, Counter>,
    buffers: map<string, seq<string>>)

  datatype Outcome = Discarded | Duplicate | Mirrored | Flooded | Overflowed | Buffered

  predicate Alive(expiries: map<string, real>, key: string, now: real) {
    key in expiries && now < expiries[key]
  }

  function BufferOf(k: Keys, sender: string): seq<string> {
    if sender in k.buffers then k.buffers[sender] else []
  }

  function CounterOf(rate: map<string, Counter>, sender: string): Option<Counter> {
    if sender in rate then Some(rate[sender]) else None
  }

  datatype Admission = Admission(keys: Keys, outcome: Outcome)

  /** What a verified, well-formed message does to the keys. */
  function Admit(cfg: Config, k: Keys, m: Incoming, now: real): Admission {
    if Alive(k.blocked, m.sender, now) then Admission(k, Discarded)
    else if Alive(k.seen, m.messageId, now) then Admission(k, Duplicate)
    else
      var marked := k.(seen := k.seen[m.messageId := now + cfg.dedupTtl]);
      if m.sender in k.handedOff then Admission(marked, Mirrored)
      else
        var hit := Hit(cfg.rateWindow, CounterOf(k.rate, m.sender), now);
        var counted := marked.(rate := k.rate[m.sender := hit]);
        var blocked := k.blocked[m.sender := now + cfg.blockCooldown];
        if hit.count > cfg.rateThreshold then Admission(counted.(blocked := blocked), Flooded)
        else
          var buffer := BufferOf(k, m.sender) + [m.text];
          var appended := counted.(buffers := k.buffers[m.sender := buffer]);
          if |buffer| > cfg.bufferMax then Admission(appended.(blocked := blocked), Overflowed)
          else Admission(appended, Buffered)
  }

  /** The webhook's Redis keys and the debouncer it arms. */
  class Gate {
    const cfg: Config
    const debouncer: Debounce.Debouncer
    var blocked: map<string, real>
    var seen: map<string, real>
    var handedOff: set<string>
    var rate: map<string, Counter>
    var buffers: map<string, seq<string>>

    function Now(): Keys
      reads this
    {
      Keys(blocked, seen, handedOff, rate, buffers)
    }

    constructor (cfg: Config)
      ensures this.cfg == cfg && Now() == Keys(map[], map[], {}, map[], map[])
      ensures fresh(debouncer) && debouncer.cfg == cfg.debounce && debouncer.Now() == Debounce.State(map[], map[], [])
    {
      this.cfg := cfg;
      debouncer := new Debounce.Debouncer(cfg.debounce);
      blocked, seen, handedOff, rate, buffers := map[], map[], {}, map[], map[];
    }

    /** SET NX with a TTL: true when the id was there already. */
    method IsDuplicate(messageId: string, now: real) returns (duplicate: bool)
      modifies this`seen
      ensures duplicate == Alive(old(seen), messageId, now)
      ensures seen == if duplicate then old(seen) else old(seen)[messageId := now + cfg.dedupTtl]
    {
      duplicate := Alive(seen, messageId, now);
      if !duplicate {
        seen := seen[messageId := now + cfg.dedupTtl];
      }
    }

    method RegisterHit(sender: string, now: real) returns (count: Positive)
      modifies this`rate
      ensures rate == old(rate)[sender := Hit(cfg.rateWindow, CounterOf(old(rate), sender), now)]
      ensures count == Hit(cfg.rateWindow, CounterOf(old(rate), sender), now).count
    {
      count := 1;
      if sender in rate && now < rate[sender].expires {
        count := rate[sender].count + 1;
        rate := rate[sender := rate[sender].(count := count)];
      }
      if count == 1 {
        rate := rate[sender := Counter(1, now + cfg.rateWindow)];
      }
    }

    method Block(sender: string, now: real)
      modifies this`blocked
      ensures blocked == old(blocked)[sender := now + cfg.blockCooldown]
    {
      blocked := blocked[sender := now + cfg.blockCooldown];
    }

    method Append(sender: string, text: string) returns (size: nat)
      modifies this`buffers
      ensures buffers == old(buffers)[sender := BufferOf(old(Now()), sender) + [text]]
      ensures size == |BufferOf(old(Now()), sender)| + 1
    {
      var buffer := if sender in buffers then buffers[sender] else [];
      buffers := buffers[sender := buffer + [text]];
      size := |buffer| + 1;
    }

    /** Reads and clears the whole buffer in one step. */
    method Drain(sender: string) returns (parts: seq<string>)
      modifies this`buffers
      ensures parts == BufferOf(old(Now()), sender) && BufferOf(Now(), sender) == []
      ensures buffers == old(buffers) - {sender}
    {
      parts := if sender in buffers then buffers[sender] else [];
      buffers := buffers - {sender};
    }

    /** The checks in order; only a message that passed them all, and is in the buffer, arms
        the timer. */
    method Receive(m: Incoming, now: real) returns (outcome: Outcome)
      requires Debounce.Indexed(debouncer.Now()) && debouncer.cfg == cfg.debounce
      modifies this, debouncer
      ensures Admission(Now(), outcome) == Admit(cfg, old(Now()), m, now)
      ensures debouncer.Now() == if outcome == Buffered
                                 then Debounce.Scheduled(cfg.debounce, old(debouncer.Now()), m.sender, m.messageId, now)
                                 else old(debouncer.Now())
    {
      if Alive(blocked, m.sender, now) {
        return Discarded;
      }
      var duplicate := IsDuplicate(m.messageId, now);
      if duplicate {
        return Duplicate;
      }
      if m.sender in handedOff {
        return Mirrored;
      }
      var hits := RegisterHit(m.sender, now);
      if hits > cfg.rateThreshold {
        Block(m.sender, now);
        return Flooded;
      }
      var size := Append(m.sender, m.text);
      if size > cfg.bufferMax {
        Block(m.sender, now);
        return Overflowed;
      }
      debouncer.ScheduleFlush(m.sender, m.messageId, now);
      return Buffered;
    }
  }

  // ---- Traces ----

  /** Messages, and what others do to the same keys: a flush empties a buffer, a handoff raises
      the sender's flag. */
  datatype Event =
    | Arrive(message: Incoming)
    | Drain(sender: string)
    | HandOff(sender: string)

  datatype Timed = Timed(event: Event, at: real)

  const EMPTY := Keys(map[], map[], {}, map[], map[])

  function Step(cfg: Config, k: Keys, e: Timed): Keys {
    match e.event
    case Arrive(m) => Admit(cfg, k, m, e.at).keys
    case Drain(sender) => k.(buffers := k.buffers - {sender})
    case HandOff(sender) => k.(handedOff := k.handedOff + {sender})
  }

  function Replay(cfg: Config, trace: seq<Timed>): Keys {
    if trace == [] then EMPTY else Step(cfg, Replay(cfg, trace[..|trace| - 1]), trace[|trace| - 1])
  }

  /** The event is a message of the sender that reached the buffer. */
  predicate Passes(cfg: Config, k: Keys, e: Timed, sender: string) {
    e.event.Arrive? && e.event.message.sender == sender && Admit(cfg, k, e.event.message, e.at).outcome in {Buffered, Overflowed}
  }

  /** How many of the sender's messages passed the limiter between two times, inclusive. */
  function PassedBetween(cfg: Config, trace: seq<Timed>, sender: string, from: real, to: real): nat {
    if trace == [] then 0
    else
      var before, e := trace[..|trace| - 1], trace[|trace| - 1];
      PassedBetween(cfg, before, sender, from, to)
      + if Passes(cfg, Replay(cfg, before), e, sender) && from <= e.at <= to then 1 else 0
  }

  // ---- The limiter's view ----

  /** The passes of a sender, each with the fixed window it was counted in. */
  function PassesOf(cfg: Config, trace: seq<Timed>, sender: string): seq<Pass> {
    if trace == [] then []
    else
      var before, e := trace[..|trace| - 1], trace[|trace| - 1];
      var k := Replay(cfg, before);
      if Passes(cfg, k, e, sender)
      then PassesOf(cfg, before, sender) + [Pass(Hit(cfg.rateWindow, CounterOf(k.rate, sender), e.at).expires - cfg.rateWindow, e.at)]
      else PassesOf(cfg, before, sender)
  }

  /** The counter moves exactly when the message gets as far as the limiter, and the message
      passes exactly when the new count is within the threshold. */
  lemma LimiterDecides(cfg: Config, k: Keys, m: Incoming, at: real)
    ensures var a, hit := Admit(cfg, k, m, at), Hit(cfg.rateWindow, CounterOf(k.rate, m.sender), at);
            && (a.outcome in {Discarded, Duplicate, Mirrored} ==> a.keys.rate == k.rate)
            && (a.outcome in {Flooded, Overflowed, Buffered} ==> a.keys.rate == k.rate[m.sender := hit])
            && (a.outcome == Flooded ==> hit.count > cfg.rateThreshold)
            && (a.outcome in {Overflowed, Buffered} ==> hit.count <= cfg.rateThreshold)
  {
  }

  function LastTime(trace: seq<Timed>): real {
    if trace == [] then 0.0 else trace[|trace| - 1].at
  }

  predicate Ordered(trace: seq<Timed>) {
    trace == [] || (Ordered(trace[..|trace| - 1]) && LastTime(trace[..|trace| - 1]) <= LastTime(trace))
  }

  /** Messages of others, and drains and handoffs, leave a sender's counter alone. */
  lemma OthersKeepCounter(cfg: Config, k: Keys, e: Timed, sender: string)
    requires e.event.Arrive? ==> e.event.message.sender != sender
    ensures CounterOf(Step(cfg, k, e).rate, sender) == CounterOf(k.rate, sender) && !Passes(cfg, k, e, sender)
  {
  }

  lemma OwnHit(cfg: Config, k: Keys, e: Timed, sender: string)
    requires e.event.Arrive? && e.event.message.sender == sender
    ensures var c, after := CounterOf(k.rate, sender), CounterOf(Step(cfg, k, e).rate, sender);
            var hit := Hit(cfg.rateWindow, c, e.at);
            if Passes(cfg, k, e, sender) then after == Some(hit) && hit.count <= cfg.rateThreshold
            else after == c || (after == Some(hit) && hit.count > cfg.rateThreshold)
  {
    LimiterDecides(cfg, k, e.event.message, e.at);
  }

  lemma StepKeepsRate(cfg: Config, k: Keys, e: Timed, sender: string, passes: seq<Pass>, before: real)
    requires cfg.rateWindow > 0.0 && before <= e.at
    requires RateOk(cfg.rateWindow, cfg.rateThreshold, CounterOf(k.rate, sender), passes, before)
    ensures var hit := Hit(cfg.rateWindow, CounterOf(k.rate, sender), e.at);
            RateOk(cfg.rateWindow, cfg.rateThreshold, CounterOf(Step(cfg, k, e).rate, sender),
                   if Passes(cfg, k, e, sender) then passes + [Pass(hit.expires - cfg.rateWindow, e.at)] else passes, e.at)
  {
    var c := CounterOf(k.rate, sender);
    LaterKeepsRate(cfg.rateWindow, cfg.rateThreshold, c, passes, before, e.at);
    if e.event.Arrive? && e.event.message.sender == sender {
      OwnHit(cfg, k, e, sender);
      HitKeepsRate(cfg.rateWindow, cfg.rateThreshold, c, passes, before, e.at);
    } else {
      OthersKeepCounter(cfg, k, e, sender);
    }
  }

  /** At most `rateThreshold` of a sender's messages pass in each fixed window, and windows do
      not overlap. */
  lemma {:induction false} WindowBound(cfg: Config, trace: seq<Timed>, sender: string)
    requires Ordered(trace) && cfg.rateWindow > 0.0
    ensures RateOk(cfg.rateWindow, cfg.rateThreshold, CounterOf(Replay(cfg, trace).rate, sender), PassesOf(cfg, trace, sender), LastTime(trace))
  {
    if trace != [] {
      var before, e := trace[..|trace| - 1], trace[|trace| - 1];
      WindowBound(cfg, before, sender);
      StepKeepsRate(cfg, Replay(cfg, before), e, sender, PassesOf(cfg, before, sender), LastTime(before));
    }
  }

  lemma {:induction false} CountsAgree(cfg: Config, trace: seq<Timed>, sender: string, from: real, to: real)
    ensures PassedBetween(cfg, trace, sender, from, to) == InInterval(PassesOf(cfg, trace, sender), from, to)
  {
    if trace != [] {
      var before, e := trace[..|trace| - 1], trace[|trace| - 1];
      CountsAgree(cfg, before, sender, from, to);
      var passes := PassesOf(cfg, trace, sender);
      if Passes(cfg, Replay(cfg, before), e, sender) {
        assert passes[..|passes| - 1] == PassesOf(cfg, before, sender);
      }
    }
  }

  /** Over any traffic, at most twice the threshold of a sender's messages get past the limiter
      in any closed interval as long as the window. */
  lemma RateBound(cfg: Config, trace: seq<Timed>, sender: string, from: real)
    requires Ordered(trace) && cfg.rateWindow > 0.0
    ensures PassedBetween(cfg, trace, sender, from, from + cfg.rateWindow) <= 2 * cfg.rateThreshold
  {
    WindowBound(cfg, trace, sender);
    CountsAgree(cfg, trace, sender, from, from + cfg.rateWindow);
    IntervalBound(cfg.rateWindow, cfg.rateThreshold, PassesOf(cfg, trace, sender), from, from + cfg.rateWindow);
  }

  // ---- Buffers and duplicates ----

  /** The texts that passed since the sender's buffer was last drained. */
  function Waiting(cfg: Config, trace: seq<Timed>, sender: string): seq<string> {
    if trace == [] then []
    else
      var before, e := trace[..|trace| - 1], trace[|trace| - 1];
      if e.event == Drain(sender) then []
      else if Passes(cfg, Replay(cfg, before), e, sender) then Waiting(cfg, before, sender) + [e.event.message.text]
      else Waiting(cfg, before, sender)
  }

  lemma StepFills(cfg: Config, k: Keys, e: Timed, sender: string)
    ensures BufferOf(Step(cfg, k, e), sender) ==
            if e.event == Drain(sender) then []
            else if Passes(cfg, k, e, sender) then BufferOf(k, sender) + [e.event.message.text]
            else BufferOf(k, sender)
  {
  }

  /** The buffer holds exactly the messages that passed since it was last drained, in order:
      one that overflowed is there too, although it armed no timer. */
  lemma {:induction false} BufferHoldsWaiting(cfg: Config, trace: seq<Timed>, sender: string)
    ensures BufferOf(Replay(cfg, trace), sender) == Waiting(cfg, trace, sender)
  {
    if trace != [] {
      var before := trace[..|trace| - 1];
      BufferHoldsWaiting(cfg, before, sender);
      StepFills(cfg, Replay(cfg, before), trace[|trace| - 1], sender);
    }
  }

  function OutcomeAt(cfg: Config, trace: seq<Timed>, i: nat): Outcome
    requires i < |trace| && trace[i].event.Arrive?
  {
    Admit(cfg, Replay(cfg, trace[..i]), trace[i].event.message, trace[i].at).outcome
  }

  predicate Marked(k: Keys, id: string, until: real) {
    id in k.seen && until <= k.seen[id]
  }

  /** Nothing unmarks an id before its time: a later mark only lasts longer. */
  lemma StepKeepsMark(cfg: Config, k: Keys, e: Timed, id: string, until: real)
    requires Marked(k, id, until) && until <= e.at + cfg.dedupTtl
    ensures Marked(Step(cfg, k, e), id, until)
  {
  }

  /** A message that gets past the duplicate check marks its id. */
  lemma PassingMarks(cfg: Config, k: Keys, m: Incoming, at: real)
    requires Admit(cfg, k, m, at).outcome !in {Discarded, Duplicate}
    ensures Marked(Admit(cfg, k, m, at).keys, m.messageId, at + cfg.dedupTtl)
  {
  }

  /** Once an id has been marked, it stays marked until its time is up. */
  lemma {:induction false} StaysMarked(cfg: Config, trace: seq<Timed>, i: nat, n: nat)
    requires Ordered(trace) && i < n <= |trace| && trace[i].event.Arrive?
    requires OutcomeAt(cfg, trace, i) !in {Discarded, Duplicate}
    ensures Marked(Replay(cfg, trace[..n]), trace[i].event.message.messageId, trace[i].at + cfg.dedupTtl)
  {
    var before := Replay(cfg, trace[..n - 1]);
    assert trace[..n][..n - 1] == trace[..n - 1];
    assert Replay(cfg, trace[..n]) == Step(cfg, before, trace[n - 1]);
    if n > i + 1 {
      StaysMarked(cfg, trace, i, n - 1);
      InOrder(trace, i, n - 1);
      StepKeepsMark(cfg, before, trace[n - 1], trace[i].event.message.messageId, trace[i].at + cfg.dedupTtl);
    } else {
      PassingMarks(cfg, before, trace[i].event.message, trace[i].at);
    }
  }

  lemma {:induction false} InOrder(trace: seq<Timed>, i: nat, j: nat)
    requires Ordered(trace) && i <= j < |trace|
    ensures trace[i].at <= trace[j].at
  {
    if j < |trace| - 1 {
      InOrder(trace[..|trace| - 1], i, j);
    } else if i < j {
      InOrder(trace[..|trace| - 1], i, j - 1);
    }
  }

  /** A message id gets past the duplicate check at most once in any `dedupTtl`. */
  lemma DuplicatesDoNotPass(cfg: Config, trace: seq<Timed>, i: nat, j: nat)
    requires Ordered(trace) && i < j < |trace| && trace[i].event.Arrive? && trace[j].event.Arrive?
    requires trace[i].event.message.messageId == trace[j].event.message.messageId
    requires OutcomeAt(cfg, trace, i) !in {Discarded, Duplicate} && trace[j].at < trace[i].at + cfg.dedupTtl
    ensures OutcomeAt(cfg, trace, j) in {Discarded, Duplicate}
  {
    StaysMarked(cfg, trace, i, j);
  }

  predicate PassedAs(cfg: Config, trace: seq<Timed>, i: nat, id: string)
    requires i < |trace|
  {
    && trace[i].event.Arrive? && trace[i].event.message.messageId == id
    && OutcomeAt(cfg, trace, i) !in {Discarded, Duplicate}
  }

  /** An event leaves a mark as it was, unless it is a message that gets past the check. */
  lemma StepMarks(cfg: Config, k: Keys, e: Timed, id: string)
    requires id in Step(cfg, k, e).seen
    ensures var seen := Step(cfg, k, e).seen;
            if e.event.Arrive? && e.event.message.messageId == id && Admit(cfg, k, e.event.message, e.at).outcome !in {Discarded, Duplicate}
            then seen[id] == e.at + cfg.dedupTtl
            else id in k.seen && seen[id] == k.seen[id]
  {
  }

  /** A mark was left by a message that got past the duplicate check. */
  lemma {:induction false} MarkHasSource(cfg: Config, trace: seq<Timed>, id: string) returns (i: nat)
    requires id in Replay(cfg, trace).seen
    ensures i < |trace| && PassedAs(cfg, trace, i, id) && Replay(cfg, trace).seen[id] == trace[i].at + cfg.dedupTtl
  {
    i := |trace| - 1;
    var before := trace[..i];
    StepMarks(cfg, Replay(cfg, before), trace[i], id);
    if !PassedAs(cfg, trace, i, id) {
      var j := MarkHasSource(cfg, before, id);
      assert before[..j] == trace[..j];
      i := j;
    }
  }

  /** A message is dropped as a duplicate if and only if its sender is not blocked and a message
      with its id got past the check less than `dedupTtl` ago: one that was itself dropped, for
      its sender being blocked or as a duplicate, does not count. */
  lemma DuplicateExactly(cfg: Config, trace: seq<Timed>, j: nat)
    requires Ordered(trace) && j < |trace| && trace[j].event.Arrive?
    ensures var m := trace[j].event.message;
            OutcomeAt(cfg, trace, j) == Duplicate
            <==> && OutcomeAt(cfg, trace, j) != Discarded
                 && exists i: nat :: i < j && PassedAs(cfg, trace, i, m.messageId) && trace[j].at < trace[i].at + cfg.dedupTtl
  {
    var m := trace[j].event.message;
    if Alive(Replay(cfg, trace[..j]).seen, m.messageId, trace[j].at) {
      var i := MarkHasSource(cfg, trace[..j], m.messageId);
      assert trace[..j][..i] == trace[..i];
    }
    if i: nat :| i < j && PassedAs(cfg, trace, i, m.messageId) && trace[j].at < trace[i].at + cfg.dedupTtl {
      StaysMarked(cfg, trace, i, j);
    }
  }
}
