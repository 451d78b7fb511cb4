/** The handoff protocol over every interleaving: what holds in every state of every run in
    which nobody is granted the key while another process has outlived its lease. */
module ProtocolRuns {
  import opened Prelude
  import opened Conversations
  import opened LeadPayload
  import opened Crm
  import opened HandoffRuns
  import opened Leases
  import opened ProtocolState
  import opened Protocol
  import opened ProtocolInvariant
  import opened ProtocolExclusion
  import opened ProtocolSafety

  /** Nothing a process saved or signalled is undone. */
  predicate Advanced(s: System, after: System) {
    Frozen(Durable(s.sh.db), Durable(after.sh.db)) && (s.sh.flag ==> after.sh.flag)
  }

  lemma RefusedIs(cfg: Config, s: System, t: Token, fault: CallFault)
    requires HasAllIds(cfg.mapping.tables) && t in s.procs && (fault == Dropped || InForce(s.sh.lock, s.sh.now).Some?)
    ensures Happen(cfg, s, TryLock(t, fault)) == System(s.sh, s.procs[t := s.procs[t].(pc := Gone)])
  {
  }

  /** The key is taken, by the process if it hears of it. */
  lemma GrantIs(cfg: Config, s: System, t: Token, fault: CallFault)
    requires HasAllIds(cfg.mapping.tables) && t in s.procs && fault != Dropped && InForce(s.sh.lock, s.sh.now).None?
    ensures Happen(cfg, s, TryLock(t, fault)) ==
            System(s.sh.(lock := Some(Lease(t, s.sh.now + s.procs[t].ttl))),
                   s.procs[t := if fault == Answered then Entered(s.procs[t], s.sh.now) else s.procs[t].(pc := Gone)])
  {
  }

  lemma RefusedHappens(cfg: Config, s: System, t: Token, fault: CallFault)
    requires HasAllIds(cfg.mapping.tables) && Inv(cfg, s) && t in s.procs && s.procs[t].pc == Waiting
    requires fault == Dropped || InForce(s.sh.lock, s.sh.now).Some?
    ensures Inv(cfg, Happen(cfg, s, TryLock(t, fault))) && Happen(cfg, s, TryLock(t, fault)).sh == s.sh
  {
    RefusedIs(cfg, s, t, fault);
    RefusedKeepsInv(cfg, s, t);
  }

  lemma LostGrantHappens(cfg: Config, s: System, t: Token)
    requires HasAllIds(cfg.mapping.tables) && Inv(cfg, s) && t in s.procs && s.procs[t].pc == Waiting
    requires InForce(s.sh.lock, s.sh.now).None?
    ensures Inv(cfg, Happen(cfg, s, TryLock(t, AnswerLost))) && Happen(cfg, s, TryLock(t, AnswerLost)).sh == s.sh.(lock := Some(Lease(t, s.sh.now + s.procs[t].ttl)))
  {
    GrantIs(cfg, s, t, AnswerLost);
    LostGrantKeepsInv(cfg, s, t, Some(Lease(t, s.sh.now + s.procs[t].ttl)));
  }

  lemma GrantHappens(cfg: Config, s: System, t: Token)
    requires HasAllIds(cfg.mapping.tables) && Inv(cfg, s) && t in s.procs && s.procs[t].pc == Waiting
    requires InForce(s.sh.lock, s.sh.now).None? && Exclusive(Happen(cfg, s, TryLock(t, Answered)))
    ensures Inv(cfg, Happen(cfg, s, TryLock(t, Answered))) && Happen(cfg, s, TryLock(t, Answered)).sh == s.sh.(lock := Some(Lease(t, s.sh.now + s.procs[t].ttl)))
  {
    GrantIs(cfg, s, t, Answered);
    GrantKeepsInv(cfg, s, t, Some(Lease(t, s.sh.now + s.procs[t].ttl)));
  }

  /** A lock attempt keeps the invariant if it keeps mutual exclusion. */
  lemma TryLockHappens(cfg: Config, s: System, e: Event)
    requires HasAllIds(cfg.mapping.tables) && Inv(cfg, s) && Exclusive(Happen(cfg, s, e)) && Possible(cfg, s, e) && e.TryLock?
    ensures Inv(cfg, Happen(cfg, s, e)) && Advanced(s, Happen(cfg, s, e))
  {
    if e.fault == Dropped || InForce(s.sh.lock, s.sh.now).Some? {
      RefusedHappens(cfg, s, e.token, e.fault);
    } else if e.fault == AnswerLost {
      LostGrantHappens(cfg, s, e.token);
    } else {
      GrantHappens(cfg, s, e.token);
    }
  }

  lemma SpawnHappens(cfg: Config, s: System, e: Event)
    requires HasAllIds(cfg.mapping.tables) && Inv(cfg, s) && Possible(cfg, s, e) && e.Spawn?
    ensures Inv(cfg, Happen(cfg, s, e)) && Happen(cfg, s, e).sh == s.sh
  {
    OutsiderMoved(cfg, s, e.token, NewProc(e.kind, e.connector, e.ttl));
  }

  lemma CrashHappens(cfg: Config, s: System, e: Event)
    requires HasAllIds(cfg.mapping.tables) && Inv(cfg, s) && Possible(cfg, s, e) && e.Crash?
    ensures Inv(cfg, Happen(cfg, s, e)) && Advanced(s, Happen(cfg, s, e))
  {
    CrashKeepsInv(cfg, s, e.token);
  }

  lemma MoveHappens(cfg: Config, s: System, e: Event)
    requires HasAllIds(cfg.mapping.tables) && Inv(cfg, s) && Possible(cfg, s, e) && e.Move?
    ensures Inv(cfg, Happen(cfg, s, e)) && Advanced(s, Happen(cfg, s, e))
  {
    MoveKeepsInv(cfg, s, e.token, e.oracle);
  }

  lemma WorldKeepsInv(cfg: Config, s: System, e: Event)
    requires HasAllIds(cfg.mapping.tables) && Inv(cfg, s) && Possible(cfg, s, e)
    requires e.Receive? || e.Outside?
    ensures Inv(cfg, Happen(cfg, s, e)) && Advanced(s, Happen(cfg, s, e))
  {
    if e.Receive? {
      ReceiveKeepsInv(cfg, s, e.text);
    } else {
      OutsideKeepsInv(cfg, s, e.crm);
    }
  }

  lemma TickHappens(cfg: Config, s: System, e: Event)
    requires HasAllIds(cfg.mapping.tables) && Inv(cfg, s) && Possible(cfg, s, e) && e.Tick?
    ensures Inv(cfg, Happen(cfg, s, e)) && Advanced(s, Happen(cfg, s, e))
  {
    TickKeepsInv(cfg, s, e.now);
  }

  /** Every event keeps the invariant, provided it keeps mutual exclusion. */
  lemma StepKeepsInv(cfg: Config, s: System, e: Event)
    requires HasAllIds(cfg.mapping.tables) && Inv(cfg, s) && Exclusive(Happen(cfg, s, e)) && Possible(cfg, s, e)
    ensures Inv(cfg, Happen(cfg, s, e)) && Advanced(s, Happen(cfg, s, e))
  {
    match e
    case Move(_, _) => MoveHappens(cfg, s, e);
    case Receive(_) => WorldKeepsInv(cfg, s, e);
    case Outside(_) => WorldKeepsInv(cfg, s, e);
    case Tick(_) => TickHappens(cfg, s, e);
    case TryLock(_, _) => TryLockHappens(cfg, s, e);
    case Spawn(_, _, _, _) => SpawnHappens(cfg, s, e);
    case Crash(_) => CrashHappens(cfg, s, e);
  }

  // ---- Runs ----

  lemma InitialBooks(cfg: Config, sh: Shared)
    requires sh.buffer == [] && sh.db == None && !sh.flag && ValidCrm(sh.crm)
    requires sh.traffic == Traffic([], [], []) && sh.accounts == Accounts(0, 0, 0, 0)
    requires sh.created == Creations(0, 0) && sh.deeds == Deeds(None, {}, {}, {}, 0, false, 0)
    ensures Books(cfg, sh, 0, 0)
  {
    assert RecordOk(cfg, None, false, sh.now, sh.deeds);
    assert CrmOk(cfg.phone, sh.crm, sh.created);
    assert BufferOk(sh.buffer, sh.traffic);
  }

  lemma RestIsGood(cfg: Config, s: System)
    requires Nobody(s) && Fresh(s) && Books(cfg, s.sh, 0, 0)
    ensures Inv(cfg, s)
  {
    assert Exclusive(s) && Coherent(cfg, s);
  }

  lemma EmptyIsFresh(s: System)
    requires s.procs == map[]
    ensures Nobody(s) && Fresh(s)
  {
  }

  lemma InitialIsGood(cfg: Config, s: System)
    requires Initial(s)
    ensures Inv(cfg, s)
  {
    InitialBooks(cfg, s.sh);
    EmptyIsFresh(s);
    RestIsGood(cfg, s);
  }

  lemma TimelyIsExclusive(cfg: Config, states: seq<System>, events: seq<Event>, i: nat)
    requires IsTimelyRun(cfg, states, events) && i < |states|
    ensures Exclusive(states[i])
  {
    ExclusionExactly(cfg, states, events);
  }

  lemma AfterIsGood(cfg: Config, states: seq<System>, events: seq<Event>, i: nat)
    requires IsTimelyRun(cfg, states, events) && 0 < i < |states| && Inv(cfg, states[i - 1])
    ensures Inv(cfg, states[i]) && Advanced(states[i - 1], states[i])
  {
    TimelyIsExclusive(cfg, states, events, i);
    assert StepAt(cfg, states, events, i - 1);
    StepKeepsInv(cfg, states[i - 1], events[i - 1]);
  }

  lemma FirstIsGood(cfg: Config, states: seq<System>, events: seq<Event>)
    requires IsTimelyRun(cfg, states, events)
    ensures Inv(cfg, states[0])
  {
    InitialIsGood(cfg, states[0]);
  }

  /** Every state of a timely run satisfies the invariant. */
  lemma {:induction false} RunSatisfiesInv(cfg: Config, states: seq<System>, events: seq<Event>, i: nat)
    requires IsTimelyRun(cfg, states, events) && i < |states|
    ensures Inv(cfg, states[i])
  {
    if i == 0 {
      FirstIsGood(cfg, states, events);
    } else {
      RunSatisfiesInv(cfg, states, events, i - 1);
      AfterIsGood(cfg, states, events, i);
    }
  }

  lemma StepAdvances(cfg: Config, states: seq<System>, events: seq<Event>, i: nat)
    requires IsTimelyRun(cfg, states, events) && 0 < i < |states|
    ensures Advanced(states[i - 1], states[i])
  {
    RunSatisfiesInv(cfg, states, events, i - 1);
    AfterIsGood(cfg, states, events, i);
  }

  lemma AdvancedOn(s: System, t: System, u: System)
    requires Advanced(s, t) && Advanced(t, u)
    ensures Advanced(s, u)
  {
  }

  lemma {:induction false} RunOnlyAdvances(cfg: Config, states: seq<System>, events: seq<Event>, i: nat, j: nat)
    requires IsTimelyRun(cfg, states, events) && i <= j < |states|
    ensures Advanced(states[i], states[j])
    decreases j
  {
    if i < j {
      RunOnlyAdvances(cfg, states, events, i, j - 1);
      StepAdvances(cfg, states, events, j);
      AdvancedOn(states[i], states[j - 1], states[j]);
    }
  }

  // ---- What a timely run guarantees ----

  /** What the invariant says of the durable record, whoever is at work. */
  lemma RecordIsOk(cfg: Config, s: System)
    requires Inv(cfg, s)
    ensures RecordOk(cfg, s.sh.db, s.sh.flag, s.sh.now, s.sh.deeds)
    ensures CrmOk(cfg.phone, s.sh.crm, s.sh.created)
    ensures exists notes: nat, chats: nat :: AccountsOk(Durable(s.sh.db), s.sh.accounts, notes, chats)
    ensures Nobody(s) ==> AccountsOk(Durable(s.sh.db), s.sh.accounts, 0, 0)
  {
    if t :| t in s.procs && InSection(s.procs[t]) {
      assert Good(cfg, s.sh, s.procs[t]);
      assert AccountsOk(Durable(s.sh.db), s.sh.accounts, OpenNotes(s.procs[t]), OpenChats(s.procs[t]));
    } else {
      assert Nobody(s);
      assert AccountsOk(Durable(s.sh.db), s.sh.accounts, 0, 0);
    }
  }

  /** The conversation is handed off for good: once the durable phase flips it stays, the
      "do not answer" flag is only up for such a conversation and stays up, the phase is
      flipped at most once, and at most one farewell is returned to the customer. */
  lemma HandedOffForGood(cfg: Config, states: seq<System>, events: seq<Event>, i: nat, j: nat)
    requires IsTimelyRun(cfg, states, events) && i <= j < |states|
    ensures Durable(states[i].sh.db).phase == HandedOff ==> Durable(states[j].sh.db).phase == HandedOff
    ensures states[i].sh.flag ==> states[j].sh.flag && Durable(states[i].sh.db).phase == HandedOff
    ensures states[j].sh.deeds.flips == if Durable(states[j].sh.db).phase == HandedOff then 1 else 0
    ensures states[j].sh.deeds.farewells <= states[j].sh.deeds.flips <= 1
  {
    RunOnlyAdvances(cfg, states, events, i, j);
    RunSatisfiesInv(cfg, states, events, i);
    RunSatisfiesInv(cfg, states, events, j);
    RecordIsOk(cfg, states[i]);
    RecordIsOk(cfg, states[j]);
  }

  /** Two events of a run that take the durable phase from collecting to handed off are the
      same event. */
  lemma FlipsOnce(cfg: Config, states: seq<System>, events: seq<Event>, i: nat, j: nat)
    requires IsTimelyRun(cfg, states, events) && i < |events| && j < |events|
    requires Durable(states[i].sh.db).phase == Collecting && Durable(states[i + 1].sh.db).phase == HandedOff
    requires Durable(states[j].sh.db).phase == Collecting && Durable(states[j + 1].sh.db).phase == HandedOff
    ensures i == j
  {
    if i < j {
      RunOnlyAdvances(cfg, states, events, i + 1, j);
    } else if j < i {
      RunOnlyAdvances(cfg, states, events, j + 1, i);
    }
  }

  /** The external ids, once saved, never change. */
  lemma MarkersAreWrittenOnce(cfg: Config, states: seq<System>, events: seq<Event>, i: nat, j: nat)
    requires IsTimelyRun(cfg, states, events) && i <= j < |states|
    ensures var c, d := Durable(states[i].sh.db), Durable(states[j].sh.db);
            && (c.contactId.Some? ==> d.contactId == c.contactId && d.leadId == c.leadId)
            && (c.chatId.Some? ==> d.chatId == c.chatId)
  {
    RunOnlyAdvances(cfg, states, events, i, j);
  }

  /** A handed-off conversation earned it: the CRM run that returned its lead and contact
      succeeded, and if the attempt that flipped it had a chat connector, its contact and chat
      were linked or the CRM said they already were. */
  lemma HandoffIsEarned(cfg: Config, states: seq<System>, events: seq<Event>, i: nat)
    requires IsTimelyRun(cfg, states, events) && i < |states|
    ensures var c, deeds := Durable(states[i].sh.db), states[i].sh.deeds;
            && (c.phase == HandedOff ==> c.leadId.Some? && c.contactId.Some? && c.deadline.None?)
            && (c.contactId.Some? ==> c.leadId.Some? && RunResult(c.leadId.value, c.contactId.value) in deeds.published)
            && (c.phase == HandedOff && deeds.flippedWithConnector ==> Connected(c, deeds))
  {
    RunSatisfiesInv(cfg, states, events, i);
    RecordIsOk(cfg, states[i]);
  }

  /** Duplicates are paid for by losses: there is at most one note more than attempts that
      ended between posting a note and saving the ids, and the same for chats. With nobody at
      work the count is exact. */
  lemma DuplicatesAreLosses(cfg: Config, states: seq<System>, events: seq<Event>, i: nat)
    requires IsTimelyRun(cfg, states, events) && i < |states|
    ensures var a := states[i].sh.accounts; a.notes <= 1 + a.lostNotes && a.chats <= 1 + a.lostChats
    ensures Nobody(states[i]) ==>
              var c, a := Durable(states[i].sh.db), states[i].sh.accounts;
              && a.notes == a.lostNotes + (if c.contactId.Some? then 1 else 0)
              && a.chats == a.lostChats + (if c.chatId.Some? then 1 else 0)
  {
    RunSatisfiesInv(cfg, states, events, i);
    RecordIsOk(cfg, states[i]);
  }

  /** However often the handoff is retried, the bot creates at most one lead and one contact
      for the phone. */
  lemma OneLeadOneContact(cfg: Config, states: seq<System>, events: seq<Event>, i: nat)
    requires IsTimelyRun(cfg, states, events) && i < |states|
    ensures states[i].sh.created.contacts <= states[i].sh.created.leads <= 1
  {
    RunSatisfiesInv(cfg, states, events, i);
    RecordIsOk(cfg, states[i]);
  }

  /** The batches handed to turns are handed over once, in the order they were drained. */
  lemma TurnsAreInOrder(cfg: Config, states: seq<System>, events: seq<Event>, i: nat)
    requires IsTimelyRun(cfg, states, events) && i < |states|
    ensures var traffic := states[i].sh.traffic;
            && Increasing(traffic.handled, |traffic.batches|)
            && traffic.received == Flatten(traffic.batches) + states[i].sh.buffer
  {
    RunSatisfiesInv(cfg, states, events, i);
    if t :| t in states[i].procs && InSection(states[i].procs[t]) {
      assert Good(cfg, states[i].sh, states[i].procs[t]);
    } else {
      assert Nobody(states[i]);
    }
  }
}
