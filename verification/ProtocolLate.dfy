/** A run in which a late save takes a handed-off conversation back to collecting. */
module ProtocolLate {
  import opened Prelude
  import opened Schemas
  import opened Completeness
  import opened Conversations
  import opened TurnLogic
  import opened TurnInvariants
  import opened LeadPayload
  import opened Crm
  import opened HandoffRuns
  import opened Leases
  import opened ProtocolState
  import opened Protocol
  import opened ProtocolExamples
  import opened ProtocolReverts

  // ---- What is answered ----

  const NOTHING_SAID := Understanding(map[], "", false)

  function Answer(input: TurnInput): Oracle {
    Oracle(Answered, false, input, [], "", false)
  }

  const FINE := Answer(TurnInput(Some(Cruise), NOTHING_SAID, ""))
  const WANTS_A_PERSON := Answer(TurnInput(None, NOTHING_SAID.(wantsHuman := true), ""))

  // ---- Steps ----

  /** One await of one process, from a reachable state. */
  lemma Goes(cfg: Config, s: System, t: Token, o: Oracle, m: Moved)
    requires HasAllIds(cfg.mapping.tables) && Reachable(cfg, s) && t in s.procs && InSection(s.procs[t])
    requires s.procs[t].pc == Thinking ==> TypedInput(cfg.catalogue, s.procs[t].conv, o.input)
    requires s.procs[t].pc == Finding ==> ExactSearch(s.sh.crm, cfg.phone, o.matches)
    requires m == Advance(cfg, s.sh, t, s.procs[t], o)
    ensures Reachable(cfg, System(m.sh, s.procs[t := m.p]))
  {
    OneMore(cfg, s, Move(t, o));
  }

  /** The state differs only in this process and in what the sender's processes share. */
  predicate OnlyMoved(s: System, t: Token, after: System) {
    t in after.procs && after.procs == s.procs[t := after.procs[t]]
  }

  /** A flush with a message to process, before its first await. */
  lemma Starts(cfg: Config, s: System, t: Token) returns (after: System)
    requires HasAllIds(cfg.mapping.tables) && Reachable(cfg, s) && t !in s.procs && InForce(s.sh.lock, s.sh.now).None?
    ensures Reachable(cfg, after) && OnlyMoved(s, t, after)
    ensures after.sh.(buffer := [], lock := None, traffic := s.sh.traffic) == s.sh.(buffer := [], lock := None)
    ensures after.sh.buffer != [] && after.sh.lock == Some(Lease(t, s.sh.now + 60.0))
    ensures after.procs[t] == Entered(NewProc(Flush, false, 60.0), s.sh.now)
  {
    OneMore(cfg, s, Receive("hola"));
    var received := Happen(cfg, s, Receive("hola"));
    OneMore(cfg, received, Spawn(t, Flush, false, 60.0));
    var spawned := Happen(cfg, received, Spawn(t, Flush, false, 60.0));
    OneMore(cfg, spawned, TryLock(t, Answered));
    after := Happen(cfg, spawned, TryLock(t, Answered));
  }

  lemma Drains(cfg: Config, s: System, t: Token) returns (after: System)
    requires HasAllIds(cfg.mapping.tables) && Reachable(cfg, s) && t in s.procs && s.procs[t].pc == Draining && s.sh.buffer != []
    ensures Reachable(cfg, after) && OnlyMoved(s, t, after)
    ensures after.sh.(buffer := s.sh.buffer, traffic := s.sh.traffic) == s.sh
    ensures after.procs[t] == s.procs[t].(pc := CheckingBlock, batch := after.procs[t].batch)
  {
    var m := Drain(s.sh, s.procs[t], FINE);
    Goes(cfg, s, t, FINE, m);
    after := System(m.sh, s.procs[t := m.p]);
  }

  lemma Passes(cfg: Config, s: System, t: Token) returns (after: System)
    requires HasAllIds(cfg.mapping.tables) && Reachable(cfg, s) && t in s.procs && s.procs[t].pc == CheckingBlock
    ensures Reachable(cfg, after) && OnlyMoved(s, t, after)
    ensures after.sh.(traffic := s.sh.traffic) == s.sh && after.procs[t] == s.procs[t].(pc := Loading)
  {
    var m := CheckBlock(s.sh, s.procs[t], FINE);
    Goes(cfg, s, t, FINE, m);
    after := System(m.sh, s.procs[t := m.p]);
  }

  lemma Loads(cfg: Config, s: System, t: Token) returns (after: System)
    requires HasAllIds(cfg.mapping.tables) && Reachable(cfg, s) && t in s.procs && s.procs[t].pc == Loading
    requires s.procs[t].kind.Flush? && PhaseOf(s) == Collecting
    ensures Reachable(cfg, after) && OnlyMoved(s, t, after)
    ensures after.sh == s.sh && after.procs[t] == s.procs[t].(pc := Thinking, conv := Durable(s.sh.db), armedAt := s.sh.deeds.armedAt)
  {
    var m := Load(s.sh, s.procs[t], FINE);
    Goes(cfg, s, t, FINE, m);
    after := System(m.sh, s.procs[t := m.p]);
  }

  /** Nothing a handoff depends on has changed. */
  predicate SameRecord(s: System, after: System) {
    after.sh.db == s.sh.db && after.sh.crm == s.sh.crm && after.sh.now == s.sh.now
  }

  predicate Ready(p: Proc, c: Conversation, pc: Pc) {
    p.pc == pc && p.conv == c && p.kind.Flush? && !p.connector
  }

  lemma GetsToLoad(cfg: Config, s: System, t: Token) returns (after: System)
    requires HasAllIds(cfg.mapping.tables) && Reachable(cfg, s) && t !in s.procs && InForce(s.sh.lock, s.sh.now).None?
    ensures Reachable(cfg, after) && OnlyMoved(s, t, after) && SameRecord(s, after)
    ensures after.sh.lock == Some(Lease(t, s.sh.now + 60.0))
    ensures Ready(after.procs[t], NEW_CONVERSATION, Loading)
  {
    after := Starts(cfg, s, t);
    after := Drains(cfg, after, t);
    after := Passes(cfg, after, t);
  }

  /** A fresh flush, up to its turn. */
  lemma GetsToThink(cfg: Config, s: System, t: Token) returns (after: System)
    requires HasAllIds(cfg.mapping.tables) && Reachable(cfg, s) && t !in s.procs && InForce(s.sh.lock, s.sh.now).None?
    requires PhaseOf(s) == Collecting
    ensures Reachable(cfg, after) && OnlyMoved(s, t, after) && SameRecord(s, after)
    ensures after.sh.lock == Some(Lease(t, s.sh.now + 60.0))
    ensures Ready(after.procs[t], Durable(s.sh.db), Thinking)
  {
    after := GetsToLoad(cfg, s, t);
    after := Loads(cfg, after, t);
  }

  // ---- A first turn ----

  /** What routing makes of a new conversation. */
  predicate Routed(c: Conversation) {
    c.tripType == Some(Cruise) && c.phase == Collecting && c.slots == map[] && c.contactId == None
  }

  lemma RoutesTo(cfg: Config, p: Proc)
    requires Usable(cfg.catalogue) && p.conv == NEW_CONVERSATION
    ensures var t := TakeTurn(cfg.catalogue, p.conv, FINE.input); Routed(t.conv) && t.decision.Ask?
  {
    assert NextSlotToAsk(cfg.catalogue.For(Cruise), map[], {}, {}).Some?;
  }

  lemma ThinkRoutes(cfg: Config, sh: Shared, p: Proc)
    requires Usable(cfg.catalogue) && p.conv == NEW_CONVERSATION && p.pc == Thinking
    ensures var m := Think(cfg, sh, p, FINE); m.sh == sh && m.p.pc == Arming && Routed(m.p.conv)
  {
    RoutesTo(cfg, p);
  }

  lemma Routes(cfg: Config, s: System, t: Token) returns (after: System)
    requires HasAllIds(cfg.mapping.tables) && Usable(cfg.catalogue) && Reachable(cfg, s)
    requires t in s.procs && Ready(s.procs[t], NEW_CONVERSATION, Thinking)
    ensures Reachable(cfg, after) && OnlyMoved(s, t, after) && after.sh == s.sh
    ensures after.procs[t].pc == Arming && Routed(after.procs[t].conv)
  {
    ThinkRoutes(cfg, s.sh, s.procs[t]);
    var m := Think(cfg, s.sh, s.procs[t], FINE);
    Goes(cfg, s, t, FINE, m);
    after := System(m.sh, s.procs[t := m.p]);
  }

  lemma Arms(cfg: Config, s: System, t: Token) returns (after: System)
    requires HasAllIds(cfg.mapping.tables) && Reachable(cfg, s) && t in s.procs && s.procs[t].pc == Arming && Routed(s.procs[t].conv)
    ensures Reachable(cfg, after) && OnlyMoved(s, t, after) && after.sh == s.sh
    ensures after.procs[t].pc == SavingTurn && Routed(after.procs[t].conv)
  {
    var m := Arm(cfg, s.sh, s.procs[t]);
    Goes(cfg, s, t, FINE, m);
    after := System(m.sh, s.procs[t := m.p]);
  }

  /** A first flush, up to the save of its turn. */
  lemma GetsToSave(cfg: Config, s: System, t: Token) returns (after: System)
    requires HasAllIds(cfg.mapping.tables) && Usable(cfg.catalogue) && Reachable(cfg, s)
    requires t !in s.procs && InForce(s.sh.lock, s.sh.now).None? && s.sh.db == None
    ensures Reachable(cfg, after) && OnlyMoved(s, t, after) && SameRecord(s, after)
    ensures after.sh.lock == Some(Lease(t, s.sh.now + 60.0))
    ensures after.procs[t].pc == SavingTurn && Routed(after.procs[t].conv)
  {
    after := GetsToThink(cfg, s, t);
    after := Routes(cfg, after, t);
    after := Arms(cfg, after, t);
  }

  lemma Saves(cfg: Config, s: System, t: Token) returns (after: System)
    requires HasAllIds(cfg.mapping.tables) && Reachable(cfg, s) && t in s.procs && s.procs[t].pc == SavingTurn
    ensures Reachable(cfg, after) && OnlyMoved(s, t, after)
    ensures after.sh.db == Some(s.procs[t].conv) && after.sh.(db := s.sh.db, deeds := s.sh.deeds) == s.sh
  {
    var m := SaveTurn(s.sh, s.procs[t], FINE);
    Goes(cfg, s, t, FINE, m);
    after := System(m.sh, s.procs[t := m.p]);
  }

  lemma Waits(cfg: Config, s: System, now: real) returns (after: System)
    requires HasAllIds(cfg.mapping.tables) && Reachable(cfg, s) && s.sh.now <= now
    ensures Reachable(cfg, after) && after == s.(sh := s.sh.(now := now))
  {
    OneMore(cfg, s, Tick(now));
    after := Happen(cfg, s, Tick(now));
  }

  // ---- A handoff ----

  lemma AsksForAPerson(cfg: Config, s: System, t: Token) returns (after: System)
    requires HasAllIds(cfg.mapping.tables) && Reachable(cfg, s)
    requires t in s.procs && s.procs[t].pc == Thinking && !s.procs[t].connector && Routed(s.procs[t].conv)
    ensures Reachable(cfg, after) && OnlyMoved(s, t, after) && after.sh == s.sh
    ensures after.procs[t].pc == SavingProgress && !after.procs[t].connector && after.procs[t].conv.contactId == None
  {
    var schema := cfg.catalogue.For(Cruise);
    assert WellTyped(schema, map[]) && OwnSlots(schema, map[]);
    var m := Think(cfg, s.sh, s.procs[t], WANTS_A_PERSON);
    Goes(cfg, s, t, WANTS_A_PERSON, m);
    after := System(m.sh, s.procs[t := m.p]);
  }

  lemma SavesProgress(cfg: Config, s: System, t: Token) returns (after: System)
    requires HasAllIds(cfg.mapping.tables) && Reachable(cfg, s)
    requires t in s.procs && s.procs[t].pc == SavingProgress && !s.procs[t].connector && s.procs[t].conv.contactId == None
    ensures Reachable(cfg, after) && OnlyMoved(s, t, after) && after.sh.crm == s.sh.crm
    ensures after.procs[t].pc == Finding && !after.procs[t].connector
  {
    var m := SaveProgress(s.sh, s.procs[t], FINE);
    Goes(cfg, s, t, FINE, m);
    after := System(m.sh, s.procs[t := m.p]);
  }

  lemma Finds(cfg: Config, s: System, t: Token) returns (after: System)
    requires HasAllIds(cfg.mapping.tables) && Reachable(cfg, s) && s.sh.crm == START().sh.crm
    requires t in s.procs && s.procs[t].pc == Finding && !s.procs[t].connector
    ensures Reachable(cfg, after) && OnlyMoved(s, t, after) && after.sh.crm == s.sh.crm
    ensures after.procs[t].pc == Creating && !after.procs[t].connector && after.procs[t].resolution == CreateBoth
  {
    var m := Find(s.sh, s.procs[t], FINE);
    Goes(cfg, s, t, FINE, m);
    after := System(m.sh, s.procs[t := m.p]);
  }

  lemma Creates(cfg: Config, s: System, t: Token) returns (after: System)
    requires HasAllIds(cfg.mapping.tables) && Reachable(cfg, s)
    requires t in s.procs && s.procs[t].pc == Creating && !s.procs[t].connector && s.procs[t].resolution == CreateBoth
    ensures Reachable(cfg, after) && OnlyMoved(s, t, after)
    ensures var p := after.procs[t]; p.pc == Noting && !p.connector && p.target.isNew && p.target.lead in after.sh.crm.leads
  {
    var m := Create(cfg, s.sh, s.procs[t], FINE);
    Goes(cfg, s, t, FINE, m);
    after := System(m.sh, s.procs[t := m.p]);
  }

  lemma Notes(cfg: Config, s: System, t: Token) returns (after: System)
    requires HasAllIds(cfg.mapping.tables) && Reachable(cfg, s) && t in s.procs
    requires var p := s.procs[t]; p.pc == Noting && !p.connector && p.target.isNew && p.target.lead in s.sh.crm.leads
    ensures Reachable(cfg, after) && OnlyMoved(s, t, after)
    ensures var p := after.procs[t]; p.pc == Patching && !p.connector && p.target.lead in after.sh.crm.leads
  {
    var m := PostNote(cfg, s.sh, s.procs[t], FINE);
    Goes(cfg, s, t, FINE, m);
    after := System(m.sh, s.procs[t := m.p]);
  }

  lemma Patches(cfg: Config, s: System, t: Token) returns (after: System)
    requires HasAllIds(cfg.mapping.tables) && Reachable(cfg, s) && t in s.procs
    requires var p := s.procs[t]; p.pc == Patching && !p.connector && p.target.lead in s.sh.crm.leads
    ensures Reachable(cfg, after) && OnlyMoved(s, t, after)
    ensures after.procs[t].pc == SavingMarker && !after.procs[t].connector
  {
    var m := Patch(cfg, s.sh, s.procs[t], FINE);
    Goes(cfg, s, t, FINE, m);
    after := System(m.sh, s.procs[t := m.p]);
  }

  lemma SavesIds(cfg: Config, s: System, t: Token) returns (after: System)
    requires HasAllIds(cfg.mapping.tables) && Reachable(cfg, s) && t in s.procs
    requires s.procs[t].pc == SavingMarker && !s.procs[t].connector
    ensures Reachable(cfg, after) && OnlyMoved(s, t, after)
    ensures after.procs[t].pc == SavingFlip && after.procs[t].conv.phase == HandedOff
  {
    var m := SaveMarker(s.sh, s.procs[t], FINE);
    Goes(cfg, s, t, FINE, m);
    after := System(m.sh, s.procs[t := m.p]);
  }

  lemma Flips(cfg: Config, s: System, t: Token) returns (after: System)
    requires HasAllIds(cfg.mapping.tables) && Reachable(cfg, s) && t in s.procs
    requires s.procs[t].pc == SavingFlip && s.procs[t].conv.phase == HandedOff
    ensures Reachable(cfg, after) && OnlyMoved(s, t, after) && PhaseOf(after) == HandedOff
  {
    var m := SaveFlip(s.sh, s.procs[t], FINE);
    Goes(cfg, s, t, FINE, m);
    after := System(m.sh, s.procs[t := m.p]);
  }

  lemma Publishes(cfg: Config, s: System, t: Token) returns (after: System)
    requires HasAllIds(cfg.mapping.tables) && Reachable(cfg, s) && s.sh.crm == START().sh.crm
    requires t in s.procs && s.procs[t].pc == Finding && !s.procs[t].connector
    ensures Reachable(cfg, after) && OnlyMoved(s, t, after)
    ensures after.procs[t].pc == SavingMarker && !after.procs[t].connector
  {
    after := Finds(cfg, s, t);
    after := Creates(cfg, after, t);
    after := Notes(cfg, after, t);
    after := Patches(cfg, after, t);
  }

  lemma GetsToPublish(cfg: Config, s: System, t: Token) returns (after: System)
    requires HasAllIds(cfg.mapping.tables) && Reachable(cfg, s) && t !in s.procs && InForce(s.sh.lock, s.sh.now).None?
    requires s.sh.db.Some? && Routed(s.sh.db.value)
    ensures Reachable(cfg, after) && OnlyMoved(s, t, after) && after.sh.crm == s.sh.crm
    ensures after.procs[t].pc == Finding && !after.procs[t].connector
  {
    after := GetsToThink(cfg, s, t);
    after := AsksForAPerson(cfg, after, t);
    after := SavesProgress(cfg, after, t);
  }

  lemma Finishes(cfg: Config, s: System, t: Token) returns (after: System)
    requires HasAllIds(cfg.mapping.tables) && Reachable(cfg, s) && t in s.procs
    requires s.procs[t].pc == SavingMarker && !s.procs[t].connector
    ensures Reachable(cfg, after) && OnlyMoved(s, t, after) && PhaseOf(after) == HandedOff
  {
    after := SavesIds(cfg, s, t);
    after := Flips(cfg, after, t);
  }

  /** A flush whose customer asks for a person, up to the flip. */
  lemma HandsOff(cfg: Config, s: System, t: Token) returns (after: System)
    requires HasAllIds(cfg.mapping.tables) && Reachable(cfg, s) && t !in s.procs && InForce(s.sh.lock, s.sh.now).None?
    requires s.sh.db.Some? && Routed(s.sh.db.value) && s.sh.crm == START().sh.crm
    ensures Reachable(cfg, after) && OnlyMoved(s, t, after) && PhaseOf(after) == HandedOff
  {
    after := GetsToPublish(cfg, s, t);
    after := Publishes(cfg, after, t);
    after := Finishes(cfg, after, t);
  }

  // ---- The run ----

  /** The first flush stands before the save of its turn, long past its lease; the second has
      saved the same turn. */
  lemma Overtaken(cfg: Config) returns (s: System)
    requires HasAllIds(cfg.mapping.tables) && Usable(cfg.catalogue)
    ensures Reachable(cfg, s) && s.sh.db.Some? && Routed(s.sh.db.value) && s.sh.crm == START().sh.crm
    ensures "a" in s.procs && s.procs["a"].pc == SavingTurn && Routed(s.procs["a"].conv)
    ensures "c" !in s.procs && InForce(s.sh.lock, s.sh.now).None?
  {
    StartIsReachable(cfg);
    s := GetsToSave(cfg, START(), "a");
    s := Waits(cfg, s, 61.0);
    s := GetsToSave(cfg, s, "b");
    s := Saves(cfg, s, "b");
    s := Waits(cfg, s, 122.0);
  }

  lemma HandedOffBesides(cfg: Config) returns (s: System)
    requires HasAllIds(cfg.mapping.tables) && Usable(cfg.catalogue)
    ensures Reachable(cfg, s) && PhaseOf(s) == HandedOff
    ensures "a" in s.procs && s.procs["a"].pc == SavingTurn && Routed(s.procs["a"].conv)
  {
    var before := Overtaken(cfg);
    s := HandsOff(cfg, before, "c");
    assert s.procs["a"] == before.procs["a"];
  }

  lemma SaveReverts(cfg: Config, s: System, t: Token)
    requires HasAllIds(cfg.mapping.tables) && PhaseOf(s) == HandedOff
    requires t in s.procs && s.procs[t].pc == SavingTurn && Routed(s.procs[t].conv)
    ensures Possible(cfg, s, Move(t, FINE)) && Reverts(s, Move(t, FINE)) && PhaseOf(Happen(cfg, s, Move(t, FINE))) == Collecting
  {
    assert Advance(cfg, s.sh, t, s.procs[t], FINE) == SaveTurn(s.sh, s.procs[t], FINE);
  }

  /** A third flush hands the conversation off, and then the first one's save goes through: the
      record is collecting again, and the bot will go on asking. */
  lemma HandoffCanBeReverted(cfg: Config)
    requires HasAllIds(cfg.mapping.tables) && Usable(cfg.catalogue)
    ensures exists s, e :: Reachable(cfg, s) && Possible(cfg, s, e) && Reverts(s, e) && PhaseOf(Happen(cfg, s, e)) == Collecting
  {
    var s := HandedOffBesides(cfg);
    var e := Move("a", FINE);
    SaveReverts(cfg, s, "a");
    assert Reachable(cfg, s) && Possible(cfg, s, e) && Reverts(s, e) && PhaseOf(Happen(cfg, s, e)) == Collecting;
  }
}
