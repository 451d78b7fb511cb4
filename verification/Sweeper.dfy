/** One sweep over the conversations whose deadline has passed. Others go on using the store, the
    CRM and the locks meanwhile; each conversation is re-checked under its own lock and handed
    off silently. A handoff that fails does not stop the rest; a lock that cannot be asked for,
    or given back, does. */
module Sweeper {
  import opened Prelude
  import opened Schemas
  import opened Conversations
  import opened TurnLogic
  import opened LeadPayload
  import opened Crm
  import opened HandoffRuns
  import opened Leases
  import Payloads
  import opened ProtocolState
  import opened Protocol
  import opened HandoffFlow
  import opened Handoff

  predicate Due(c: Conversation, now: real) {
    c.phase == Collecting && c.deadline.Some? && c.deadline.value <= now
  }

  predicate DueIn(records: map<string, Conversation>, sender: string, now: real) {
    sender in records && Due(records[sender], now)
  }

  /** The query finds an object if and only if the record it loads as is due; one stored without a
      deadline is in no sweep. */
  lemma QueryFindsTheDue(p: Payloads.Payload, now: real)
    requires Payloads.FromPayload(p).Some?
    ensures Payloads.QueryFinds(p, now) <==> Due(Payloads.FromPayload(p).value, now)
  {
    Payloads.QueryFindsExactly(p, now);
  }

  /** What a sweep shares with everyone else. */
  datatype World = World(records: map<string, Conversation>, flags: set<string>, crm: Crm)

  /** How the calls about one conversation are answered: `lease` is what its lock key holds when
      the sweep reaches it, `answers` are the awaits of the handoff, if it comes to one. */
  datatype Attempt = Attempt(
    at: real, lease: Option<Lease>, lock: CallFault, load: CallFault, answers: nat -> Oracle, release: CallFault)

  predicate Acquires(a: Attempt) {
    a.lock == Answered && InForce(a.lease, a.at).None?
  }

  /** The lock is asked for before the `try`, and given back in its `finally`. */
  predicate Raises(a: Attempt) {
    a.lock != Answered || (Acquires(a) && a.release != Answered)
  }

  /** Nothing stands in the way of this conversation's handoff. */
  ghost predicate Unhindered(a: Attempt) {
    Acquires(a) && a.load == Answered && Smooth(a.answers, 0)
  }

  const WHATSAPP_PREFIX := "whatsapp:"

  function PhoneOf(sender: string): string {
    if WHATSAPP_PREFIX <= sender then sender[|WHATSAPP_PREFIX|..] else sender
  }

  /** A sender's phone is what follows the channel's prefix, and the prefix leads back to the sender;
      a sender without it is its own phone. */
  lemma PhoneExactly(sender: string, phone: string)
    ensures PhoneOf("whatsapp:" + phone) == phone
    ensures PhoneOf(sender) == phone ==> sender == phone || sender == "whatsapp:" + phone
    ensures !("whatsapp:" <= sender) ==> PhoneOf(sender) == sender
  {
    assert ("whatsapp:" + phone)[|WHATSAPP_PREFIX|..] == phone;
    if WHATSAPP_PREFIX <= sender {
      assert sender == WHATSAPP_PREFIX + sender[|WHATSAPP_PREFIX|..];
    }
  }

  /** A phone search that is exact on whatever CRM it is asked about. */
  ghost predicate Exact(search: (Crm, string) -> seq<Match>) {
    forall crm, phone :: ExactSearch(crm, phone, search(crm, phone))
  }

  function WithFound(answers: nat -> Oracle, found: seq<Match>): nat -> Oracle {
    (k: nat) => answers(k).(matches := found)
  }

  lemma SmoothWithFound(answers: nat -> Oracle, found: seq<Match>)
    ensures Smooth(answers, 0) ==> Smooth(WithFound(answers, found), 0)
  {
  }

  // ---- One silent handoff ----

  /** The sweep's process in the state machine, about to hand `c` off, and the sender's share of
      the machine's state. */
  function Sweeping(c: Conversation, now: real, connector: bool): Proc {
    NewProc(Sweep(now), connector, 30.0).(conv := c, reason := NoResponse)
  }

  function Around(c: Conversation, now: real, flag: bool, crm: Crm): Shared {
    Shared(now, None, [], Some(c), flag, crm, Traffic([], [], []), Accounts(0, 0, 0, 0), Creations(0, 0),
           Deeds(None, {}, {}, {}, 0, false, 0))
  }

  /** What the machine makes of the handoff. */
  function SilentlyBy(cfg: Config, c: Conversation, now: real, flag: bool, crm: Crm, answers: nat -> Oracle, connector: bool): Shared
    requires HasAllIds(cfg.mapping.tables)
  {
    HandoffBy(cfg, Around(c, now, flag, crm), ToRun(Sweeping(c, now, connector)), answers, 0).sh
  }

  method HandOffSilently(cfg: Config, c: Conversation, now: real, flag: bool, crm: Crm, answers: nat -> Oracle, connector: bool)
    returns (record: Option<Conversation>, raised: bool, up: bool, after: Crm)
    requires HasAllIds(cfg.mapping.tables) && ExactSearch(crm, cfg.phone, answers(0).matches)
    ensures var sh := SilentlyBy(cfg, c, now, flag, crm, answers, connector);
            record == sh.db && up == sh.flag && after == sh.crm
    ensures if raised then !Smooth(answers, 0) else record.Some? && record.value.phase == HandedOff && up
    ensures !raised && c.contactId.None? ==> OwnLead(after, cfg.phone, record.value.leadId, record.value.contactId)
  {
    var state := new ConversationState.Of(c);
    ghost var p := Sweeping(c, now, connector);
    ToRunIsBefore(p);
    var s := new Services(cfg, answers, Some(c), flag, crm, Around(c, now, flag, crm), ToRun(p));
    var ok := RunInactivityHandoff(s, state, connector);
    record, raised, up, after := s.db, !ok, s.flag, s.crm;
  }

  // ---- One conversation ----

  /** What the sweep does about one conversation it has found due. */
  function SweptOne(
      cfg: Config, w: World, sender: string, now: real, a: Attempt, search: (Crm, string) -> seq<Match>, connector: bool): World
    requires HasAllIds(cfg.mapping.tables)
  {
    if !Acquires(a) || a.load != Answered || !DueIn(w.records, sender, now) then w
    else
      var c, phone := w.records[sender], PhoneOf(sender);
      var answers := WithFound(a.answers, search(w.crm, phone));
      var sh := SilentlyBy(cfg.(phone := phone), c, now, sender in w.flags, w.crm, answers, connector);
      World(w.records[sender := sh.db.GetOr(c)], if sh.flag then w.flags + {sender} else w.flags, sh.crm)
  }

  /** No other conversation is touched. */
  lemma OthersAreLeft(
    cfg: Config, w: World, sender: string, now: real, a: Attempt, search: (Crm, string) -> seq<Match>, connector: bool)
    requires HasAllIds(cfg.mapping.tables)
    ensures var after := SweptOne(cfg, w, sender, now, a, search, connector);
            forall s :: s != sender && DueIn(after.records, s, now) ==> DueIn(w.records, s, now)
  {
  }

  // ---- The sweep ----

  /** How the sweep's own lock, its query and the release of the lock are answered. */
  datatype Tick = Tick(at: real, lease: Option<Lease>, lock: CallFault, query: CallFault, release: CallFault)

  predicate Starts(tick: Tick) {
    tick.lock == Answered && InForce(tick.lease, tick.at).None? && tick.query == Answered
  }

  datatype Swept = Skipped | Aborted | Completed

  /** How many of `n` conversations the sweep gets past. */
  function Reached(attempts: nat -> Attempt, n: nat): (r: nat)
    ensures r <= n
    ensures forall i :: 0 <= i < r ==> !Raises(attempts(i))
    ensures r < n ==> Raises(attempts(r))
  {
    if n == 0 then 0
    else
      var before := Reached(attempts, n - 1);
      if before == n - 1 && !Raises(attempts(n - 1)) then n else before
  }

  /** Nobody else makes a conversation due as of `now` that was not: turns move deadlines into
      the future, and a handoff is for good. */
  ghost predicate Settling(others: (nat, World) -> World, now: real) {
    forall n, w, sender :: DueIn(others(n, w).records, sender, now) ==> DueIn(w.records, sender, now)
  }

  /** Why others settle: a turn whose deadline would lapse after `now` makes nothing due. */
  lemma TurnsSettle(catalogue: Catalogue, c: Conversation, input: TurnInput, at: real, silence: real, now: real)
    requires !Due(c, now) && now < at + silence
    ensures !Due(Armed(TakeTurn(catalogue, c, input).conv, at, silence), now)
    ensures !Due(TakeTurn(catalogue, c, input).conv, now)
  {
    var d := TakeTurn(catalogue, c, input).conv;
    assert d.phase == c.phase && d.deadline == c.deadline;
  }

  /** A conversation without a contact ends with a lead of the customer's own number: what follows the
      channel's prefix in the sender. */
  predicate SweptLead(before: map<string, Conversation>, after: map<string, Conversation>, crm: Crm, sender: string)
    requires sender in before
  {
    && sender in after
    && (before[sender].contactId.None? ==>
          OwnLead(crm, if "whatsapp:" <= sender then sender[9..] else sender, after[sender].leadId, after[sender].contactId))
  }

  class Sweep {
    const cfg: Config
    const connector: bool
    const search: (Crm, string) -> seq<Match>
    var records: map<string, Conversation>
    var flags: set<string>
    var crm: Crm

    function Now(): World
      reads this
    {
      World(records, flags, crm)
    }

    constructor (cfg: Config, connector: bool, search: (Crm, string) -> seq<Match>, w: World)
      ensures this.cfg == cfg && this.connector == connector && this.search == search && Now() == w
    {
      this.cfg, this.connector, this.search := cfg, connector, search;
      records, flags, crm := w.records, w.flags, w.crm;
    }

    /** The conversations still collecting whose deadline has passed, each once. */
    method FindExpiredDeadlines(now: real) returns (senders: seq<string>)
      ensures forall s :: s in senders <==> DueIn(records, s, now)
      ensures forall i, j :: 0 <= i < j < |senders| ==> senders[i] != senders[j]
    {
      senders := [];
      var rest := records.Keys;
      while rest != {}
        invariant rest <= records.Keys
        invariant forall s :: s in senders <==> DueIn(records, s, now) && s !in rest
        invariant forall i, j :: 0 <= i < j < |senders| ==> senders[i] != senders[j]
        decreases rest
      {
        var s :| s in rest;
        if Due(records[s], now) {
          senders := senders + [s];
        }
        rest := rest - {s};
      }
    }

    /** A conversation that is due, once its lock is held: the handoff may raise, and is caught. */
    method HandOffDue(sender: string, now: real, a: Attempt)
      requires HasAllIds(cfg.mapping.tables) && Exact(search)
      requires Acquires(a) && a.load == Answered && DueIn(records, sender, now)
      modifies this
      ensures Now() == SweptOne(cfg, old(Now()), sender, now, a, search, connector)
      ensures Smooth(a.answers, 0) ==> !DueIn(records, sender, now)
      ensures Smooth(a.answers, 0) ==> SweptLead(old(records), records, crm, sender)
    {
      var state, phone := records[sender], PhoneOf(sender);
      var answers := WithFound(a.answers, search(crm, phone));
      var record, failed, up, after := HandOffSilently(cfg.(phone := phone), state, now, sender in flags, crm, answers, connector);
      SmoothWithFound(a.answers, search(crm, phone));
      records := records[sender := record.GetOr(state)];
      flags := if up then flags + {sender} else flags;
      crm := after;
    }

    /** One conversation: under its lock, with a fresh check, handed off through the CRM, the chat
        and the flip. A free lock, a loaded record and calls that do not fail leave it handed
        off; it raises exactly when the lock cannot be asked for or given back. */
    method SweepOne(sender: string, now: real, a: Attempt) returns (raised: bool)
      requires HasAllIds(cfg.mapping.tables) && Exact(search)
      modifies this
      ensures raised <==> Raises(a)
      ensures Now() == SweptOne(cfg, old(Now()), sender, now, a, search, connector)
      ensures Unhindered(a) ==> !DueIn(records, sender, now)
      ensures Unhindered(a) && DueIn(old(records), sender, now) ==> SweptLead(old(records), records, crm, sender)
      ensures forall s :: s != sender && DueIn(records, s, now) ==> DueIn(old(records), s, now)
    {
      if a.lock != Answered {
        return true;
      }
      if InForce(a.lease, a.at).Some? {
        return false;
      }
      OthersAreLeft(cfg, Now(), sender, now, a, search, connector);
      if a.load == Answered && sender in records {
        var state := records[sender];
        if state.phase == Collecting && state.deadline.Some? && state.deadline.value <= now {
          HandOffDue(sender, now, a);
        }
      }
      raised := a.release != Answered;
    }

    /** What the others do before the sweep reaches its next conversation. */
    method Meanwhile(n: nat, now: real, others: (nat, World) -> World)
      requires Settling(others, now)
      modifies this
      ensures Now() == others(n, old(Now()))
      ensures forall s :: DueIn(records, s, now) ==> DueIn(old(records), s, now)
    {
      var w := others(n, Now());
      records, flags, crm := w.records, w.flags, w.crm;
    }

    /** The loop over the snapshot. */
    method SweepAll(due: seq<string>, now: real, attempts: nat -> Attempt, others: (nat, World) -> World) returns (reached: nat)
      requires HasAllIds(cfg.mapping.tables) && Exact(search) && Settling(others, now)
      modifies this
      ensures reached == Reached(attempts, |due|)
      ensures forall i :: 0 <= i < reached && DueIn(records, due[i], now) ==> !Unhindered(attempts(i))
    {
      reached := 0;
      while reached < |due|
        invariant reached <= |due| && reached == Reached(attempts, reached)
        invariant forall i :: 0 <= i < reached && DueIn(records, due[i], now) ==> !Unhindered(attempts(i))
      {
        Meanwhile(reached, now, others);
        var raised := SweepOne(due[reached], now, attempts(reached));
        if raised {
          StopsAt(attempts, reached, |due|);
          return;
        }
        reached := reached + 1;
      }
    }

    /** Whatever the others do meanwhile, a conversation the sweep got past is no longer due
        unless something stood in its way. The sweep completes if and only if it started and no
        lock, of a conversation or its own, failed to be asked for or given back. */
    method SweepOnce(now: real, tick: Tick, attempts: nat -> Attempt, others: (nat, World) -> World)
      returns (swept: Swept, due: seq<string>, reached: nat)
      requires HasAllIds(cfg.mapping.tables) && Exact(search) && Settling(others, now)
      modifies this
      ensures swept == Skipped <==> tick.lock == Answered && InForce(tick.lease, tick.at).Some?
      ensures swept == Completed <==> Starts(tick) && tick.release == Answered && forall i :: 0 <= i < |due| ==> !Raises(attempts(i))
      ensures !Starts(tick) ==> due == [] && Now() == old(Now())
      ensures Starts(tick) ==> forall s :: s in due <==> DueIn(old(records), s, now)
      ensures reached == Reached(attempts, |due|)
      ensures forall i :: 0 <= i < reached && DueIn(records, due[i], now) ==> !Unhindered(attempts(i))
      ensures swept == Completed && (forall i :: 0 <= i < |due| ==> Unhindered(attempts(i))) ==>
                forall i :: 0 <= i < |due| ==> !DueIn(records, due[i], now)
    {
      due, reached := [], 0;
      if tick.lock != Answered {
        return Aborted, due, reached;
      }
      if InForce(tick.lease, tick.at).Some? {
        return Skipped, due, reached;
      }
      if tick.query != Answered {
        return Aborted, due, reached;
      }
      due := FindExpiredDeadlines(now);
      reached := SweepAll(due, now, attempts, others);
      swept := if reached == |due| && tick.release == Answered then Completed else Aborted;
    }
  }

  /** The first conversation that raises is where the sweep stops. */
  lemma {:induction false} StopsAt(attempts: nat -> Attempt, i: nat, n: nat)
    requires i < n && Reached(attempts, i) == i && Raises(attempts(i))
    ensures Reached(attempts, n) == i
  {
    if i < n - 1 {
      StopsAt(attempts, i, n - 1);
    }
  }

  /** Every conversation's lock is free and its handoff goes through, and still the sweep stops
      at the first: giving its lock back raised. */
  lemma FailedReleaseStopsTheSweep(answers: nat -> Oracle, n: nat)
    requires Smooth(answers, 0) && n > 0
    ensures exists attempts: nat -> Attempt ::
              (forall i: nat :: Unhindered(attempts(i))) && Reached(attempts, n) == 0
  {
    var attempts := (i: nat) => Attempt(0.0, None, Answered, Answered, answers, Dropped);
    StopsAt(attempts, 0, n);
  }
}
