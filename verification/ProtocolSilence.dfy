/** Once a conversation has been handed off, the bot never writes anything about it again. */
module ProtocolSilence {
  import opened Conversations
  import opened LeadPayload
  import opened ProtocolState
  import opened Protocol
  import opened ProtocolInvariant
  import opened ProtocolSafety
  import opened ProtocolRuns
  import opened Leases

  /** What the bot has done about the conversation: leads and contacts made, notes, chats, runs
      published, links, the deadline armed, the flip. Farewells are what it returns to the
      customer, and are counted apart. */
  predicate SameDeeds(sh: Shared, after: Shared) {
    && after.created == sh.created && after.accounts.notes == sh.accounts.notes && after.accounts.chats == sh.accounts.chats
    && after.deeds.(farewells := 0) == sh.deeds.(farewells := 0)
  }

  /** The record and the bot's deeds are as they were. */
  predicate Untouched(sh: Shared, after: Shared) {
    after.db == sh.db && SameDeeds(sh, after)
  }

  predicate AtRest(pc: Pc) {
    pc.Draining? || pc.CheckingBlock? || pc.Loading? || pc.Silencing? || pc.SettingFlag? || pc.Leaving?
  }

  /** Where the holder can be while the record is handed off. */
  lemma HandedOffIsAtRest(cfg: Config, sh: Shared, p: Proc)
    requires Good(cfg, sh, p) && Durable(sh.db).phase == HandedOff
    ensures AtRest(p.pc)
  {
    assert LocalOk(cfg, sh, p);
  }

  lemma FlushTouchesNothing(sh: Shared, p: Proc, o: Oracle)
    ensures p.pc == Draining ==> var after := Drain(sh, p, o).sh; Untouched(sh, after) && after.crm == sh.crm
    ensures p.pc == CheckingBlock ==> var after := CheckBlock(sh, p, o).sh; Untouched(sh, after) && after.crm == sh.crm
    ensures p.pc == Loading ==> Load(sh, p, o).sh == sh
    ensures p.pc == Silencing ==> var after := Silence(sh, p, o).sh; Untouched(sh, after) && after.crm == sh.crm
  {
  }

  lemma EndTouchesNothing(sh: Shared, t: Token, p: Proc, o: Oracle)
    ensures p.pc == SettingFlag ==> var after := SetFlag(sh, p, o).sh; Untouched(sh, after) && after.crm == sh.crm
    ensures p.pc == Leaving ==> var after := Leave(sh, p, t, o).sh; Untouched(sh, after) && after.crm == sh.crm
  {
  }

  lemma RestTouchesNothing(cfg: Config, sh: Shared, t: Token, p: Proc, o: Oracle)
    requires HasAllIds(cfg.mapping.tables) && AtRest(p.pc)
    ensures var after := Advance(cfg, sh, t, p, o).sh; Untouched(sh, after) && after.crm == sh.crm
  {
    FlushTouchesNothing(sh, p, o);
    EndTouchesNothing(sh, t, p, o);
  }

  lemma MoveTouchesNothing(cfg: Config, s: System, t: Token, o: Oracle)
    requires HasAllIds(cfg.mapping.tables) && Inv(cfg, s) && t in s.procs && InSection(s.procs[t]) && Durable(s.sh.db).phase == HandedOff
    ensures var after := Advance(cfg, s.sh, t, s.procs[t], o).sh; Untouched(s.sh, after) && after.crm == s.sh.crm
  {
    assert Good(cfg, s.sh, s.procs[t]);
    HandedOffIsAtRest(cfg, s.sh, s.procs[t]);
    RestTouchesNothing(cfg, s.sh, t, s.procs[t], o);
  }

  lemma OthersTouchNothing(cfg: Config, s: System, e: Event)
    requires HasAllIds(cfg.mapping.tables) && Possible(cfg, s, e) && !e.Move?
    ensures var after := Happen(cfg, s, e).sh; Untouched(s.sh, after) && (after.crm == s.sh.crm || e.Outside?)
  {
  }

  lemma StepTouchesNothing(cfg: Config, s: System, e: Event)
    requires HasAllIds(cfg.mapping.tables) && Inv(cfg, s) && Possible(cfg, s, e) && Durable(s.sh.db).phase == HandedOff
    ensures var after := Happen(cfg, s, e).sh; Untouched(s.sh, after) && (after.crm == s.sh.crm || e.Outside?)
  {
    if e.Move? {
      MoveTouchesNothing(cfg, s, e.token, e.oracle);
    } else {
      OthersTouchNothing(cfg, s, e);
    }
  }

  lemma UntouchedOn(a: Shared, b: Shared, c: Shared)
    requires Untouched(a, b) && Untouched(b, c)
    ensures Untouched(a, c)
  {
  }

  lemma NextTouchesNothing(cfg: Config, states: seq<System>, events: seq<Event>, i: nat)
    requires IsTimelyRun(cfg, states, events) && i < |events| && Durable(states[i].sh.db).phase == HandedOff
    ensures Untouched(states[i].sh, states[i + 1].sh)
    ensures states[i + 1].sh.crm == states[i].sh.crm || events[i].Outside?
  {
    RunSatisfiesInv(cfg, states, events, i);
    assert StepAt(cfg, states, events, i);
    StepTouchesNothing(cfg, states[i], events[i]);
  }

  /** From the moment the durable phase is handed off, whatever the customer sends and whatever
      sweeps run: the record never changes again, the bot does nothing more about it, and the
      CRM changes only where others change it. */
  lemma {:induction false} SilentForGood(cfg: Config, states: seq<System>, events: seq<Event>, i: nat, j: nat)
    requires IsTimelyRun(cfg, states, events) && i <= j < |states| && Durable(states[i].sh.db).phase == HandedOff
    ensures Untouched(states[i].sh, states[j].sh)
    ensures states[j].sh.crm == states[i].sh.crm || exists k :: i <= k < j && events[k].Outside?
    decreases j
  {
    if i < j {
      SilentForGood(cfg, states, events, i, j - 1);
      NextTouchesNothing(cfg, states, events, j - 1);
      UntouchedOn(states[i].sh, states[j - 1].sh, states[j].sh);
    }
  }
}
