/** The ledgers count what happened: in every run each is the number of awaits that did it, so what
    is proved about the ledgers is proved about the calls. */
module ProtocolLedgers {
  import opened Prelude
  import opened LeadPayload
  import opened Crm
  import opened HandoffRuns
  import opened Leases
  import opened ProtocolState
  import opened Protocol
  import opened ProtocolReasons

  /** The things that are counted. */
  datatype Deed = Noted | ChatMade | LeadMade | ContactMade | PhaseFlipped | FarewellSent

  function Count(sh: Shared, deed: Deed): nat {
    match deed
    case Noted => sh.accounts.notes
    case ChatMade => sh.accounts.chats
    case LeadMade => sh.created.leads
    case ContactMade => sh.created.contacts
    case PhaseFlipped => sh.deeds.flips
    case FarewellSent => sh.deeds.farewells
  }

  /** The await, answered so, does the deed: the call reaches the other side, whether or not its
      answer comes back; a farewell is only returned by a flush all of whose calls were answered. */
  predicate Does(p: Proc, o: Oracle, deed: Deed) {
    && o.fault != Dropped
    && match deed
       case Noted => p.pc == Noting
       case ChatMade => p.pc == CreatingChat
       case LeadMade => p.pc == Creating && !p.resolution.Reuse?
       case ContactMade => p.pc == Creating && p.resolution == CreateBoth
       case PhaseFlipped => p.pc == SavingFlip
       case FarewellSent => p.pc == SettingFlag && o.fault == Answered && p.kind.Flush?
  }

  /** The flag goes up. */
  predicate Raises(p: Proc, o: Oracle) {
    (p.pc == Silencing || p.pc == SettingFlag) && o.fault != Dropped
  }

  predicate SameCounts(sh: Shared, after: Shared) {
    && after.accounts.notes == sh.accounts.notes && after.accounts.chats == sh.accounts.chats
    && after.created == sh.created && after.deeds.flips == sh.deeds.flips && after.deeds.farewells == sh.deeds.farewells
  }

  /** The count after one await, and the flag. */
  predicate Counted(sh: Shared, p: Proc, o: Oracle, after: Shared, deed: Deed) {
    && Count(after, deed) == Count(sh, deed) + (if Does(p, o, deed) then 1 else 0)
    && (after.flag <==> sh.flag || Raises(p, o))
  }

  // ---- Await by await ----

  lemma FlushCounts(cfg: Config, sh: Shared, p: Proc, o: Oracle)
    ensures p.pc == Draining ==> var after := Drain(sh, p, o).sh; SameCounts(sh, after) && after.flag == sh.flag
    ensures p.pc == CheckingBlock ==> var after := CheckBlock(sh, p, o).sh; SameCounts(sh, after) && after.flag == sh.flag
    ensures p.pc == Loading ==> Load(sh, p, o).sh == sh
    ensures p.pc == Silencing ==> var after := Silence(sh, p, o).sh; SameCounts(sh, after) && (after.flag <==> sh.flag || Raises(p, o))
  {
  }

  lemma TurnCounts(cfg: Config, sh: Shared, p: Proc, o: Oracle)
    ensures p.pc == Thinking ==> Think(cfg, sh, p, o).sh == sh
    ensures p.pc == Arming ==> Arm(cfg, sh, p).sh == sh
    ensures p.pc == SavingTurn ==> var after := SaveTurn(sh, p, o).sh; SameCounts(sh, after) && after.flag == sh.flag
    ensures p.pc == SavingProgress ==> var after := SaveProgress(sh, p, o).sh; SameCounts(sh, after) && after.flag == sh.flag
  {
  }

  lemma ResolveCounts(cfg: Config, sh: Shared, p: Proc, o: Oracle, deed: Deed)
    ensures p.pc == Finding ==> Find(sh, p, o).sh == sh
    ensures p.pc == Creating ==> Counted(sh, p, o, Create(cfg, sh, p, o).sh, deed)
  {
  }

  lemma PublishCounts(cfg: Config, sh: Shared, p: Proc, o: Oracle, deed: Deed)
    requires HasAllIds(cfg.mapping.tables)
    ensures p.pc == Noting ==> Counted(sh, p, o, PostNote(cfg, sh, p, o).sh, deed)
    ensures p.pc == ReadingStage ==> ReadStage(cfg, sh, p, o).sh == sh
    ensures p.pc == Patching ==> var after := Patch(cfg, sh, p, o).sh; SameCounts(sh, after) && after.flag == sh.flag
  {
  }

  lemma ChatCounts(sh: Shared, p: Proc, o: Oracle, deed: Deed)
    ensures p.pc == SavingMarker ==> var after := SaveMarker(sh, p, o).sh; SameCounts(sh, after) && after.flag == sh.flag
    ensures p.pc == CreatingChat ==> Counted(sh, p, o, CreateChat(sh, p, o).sh, deed)
    ensures p.pc == SavingChat ==> var after := SaveChat(sh, p, o).sh; SameCounts(sh, after) && after.flag == sh.flag
    ensures p.pc == Linking ==> var after := Link(sh, p, o).sh; SameCounts(sh, after) && after.flag == sh.flag
  {
  }

  lemma EndCounts(sh: Shared, t: Token, p: Proc, o: Oracle, deed: Deed)
    ensures p.pc == SavingFlip ==> Counted(sh, p, o, SaveFlip(sh, p, o).sh, deed)
    ensures p.pc == SettingFlag ==> Counted(sh, p, o, SetFlag(sh, p, o).sh, deed)
    ensures p.pc == Leaving ==> var after := Leave(sh, p, t, o).sh; SameCounts(sh, after) && after.flag == sh.flag
  {
  }

  lemma TurnAdvanceCounts(cfg: Config, sh: Shared, t: Token, p: Proc, o: Oracle, deed: Deed)
    requires HasAllIds(cfg.mapping.tables) && InSection(p) && (TakingTurn(p.pc) || p.pc == Loading)
    ensures Counted(sh, p, o, Advance(cfg, sh, t, p, o).sh, deed)
  {
    FlushCounts(cfg, sh, p, o);
    TurnCounts(cfg, sh, p, o);
  }

  /** The CRM half. */
  predicate InRun(pc: Pc) {
    pc.Finding? || pc.Creating? || pc.Noting? || pc.ReadingStage? || pc.Patching?
  }

  lemma RunAdvanceCounts(cfg: Config, sh: Shared, t: Token, p: Proc, o: Oracle, deed: Deed)
    requires HasAllIds(cfg.mapping.tables) && InRun(p.pc)
    ensures Counted(sh, p, o, Advance(cfg, sh, t, p, o).sh, deed)
  {
    ResolveCounts(cfg, sh, p, o, deed);
    PublishCounts(cfg, sh, p, o, deed);
  }

  lemma ChatAdvanceCounts(cfg: Config, sh: Shared, t: Token, p: Proc, o: Oracle, deed: Deed)
    requires HasAllIds(cfg.mapping.tables) && InSection(p) && !TakingTurn(p.pc) && p.pc != Loading && !InRun(p.pc)
    ensures Counted(sh, p, o, Advance(cfg, sh, t, p, o).sh, deed)
  {
    ChatCounts(sh, p, o, deed);
    EndCounts(sh, t, p, o, deed);
  }

  lemma AdvanceCounts(cfg: Config, sh: Shared, t: Token, p: Proc, o: Oracle, deed: Deed)
    requires HasAllIds(cfg.mapping.tables) && InSection(p)
    ensures Counted(sh, p, o, Advance(cfg, sh, t, p, o).sh, deed)
  {
    if TakingTurn(p.pc) || p.pc == Loading {
      TurnAdvanceCounts(cfg, sh, t, p, o, deed);
    } else if InRun(p.pc) {
      RunAdvanceCounts(cfg, sh, t, p, o, deed);
    } else {
      ChatAdvanceCounts(cfg, sh, t, p, o, deed);
    }
  }

  // ---- Runs ----

  /** The event is an await that does the deed. */
  predicate DoneAt(s: System, e: Event, deed: Deed) {
    e.Move? && e.token in s.procs && InSection(s.procs[e.token]) && Does(s.procs[e.token], e.oracle, deed)
  }

  /** The event raises the flag. */
  predicate RaisedAt(s: System, e: Event) {
    e.Move? && e.token in s.procs && InSection(s.procs[e.token]) && Raises(s.procs[e.token], e.oracle)
  }

  lemma StepCounts(cfg: Config, s: System, e: Event, deed: Deed)
    requires HasAllIds(cfg.mapping.tables) && Possible(cfg, s, e)
    ensures Count(Happen(cfg, s, e).sh, deed) == Count(s.sh, deed) + if DoneAt(s, e, deed) then 1 else 0
    ensures Happen(cfg, s, e).sh.flag <==> s.sh.flag || RaisedAt(s, e)
  {
    if e.Move? {
      MoveIs(cfg, s, e.token, e.oracle);
      AdvanceCounts(cfg, s.sh, e.token, s.procs[e.token], e.oracle, deed);
    }
  }

  /** How many of the first `n` events do the deed. */
  function DoneIn(states: seq<System>, events: seq<Event>, n: nat, deed: Deed): nat
    requires |states| == |events| + 1 && n <= |events|
  {
    if n == 0 then 0 else DoneIn(states, events, n - 1, deed) + if DoneAt(states[n - 1], events[n - 1], deed) then 1 else 0
  }

  predicate RaisedIn(states: seq<System>, events: seq<Event>, n: nat)
    requires |states| == |events| + 1 && n <= |events|
  {
    exists i: nat :: i < n && RaisedAt(states[i], events[i])
  }

  lemma NextCounts(cfg: Config, states: seq<System>, events: seq<Event>, i: nat, deed: Deed)
    requires IsRun(cfg, states, events) && i < |events|
    ensures Count(states[i + 1].sh, deed) == Count(states[i].sh, deed) + if DoneAt(states[i], events[i], deed) then 1 else 0
    ensures states[i + 1].sh.flag <==> states[i].sh.flag || RaisedAt(states[i], events[i])
  {
    assert StepAt(cfg, states, events, i);
    StepCounts(cfg, states[i], events[i], deed);
  }

  /** In every run, with any delays: notes, chats, leads, contacts, flips and farewells are counted as
      often as they were done. */
  lemma {:induction false} LedgersCount(cfg: Config, states: seq<System>, events: seq<Event>, n: nat, deed: Deed)
    requires IsRun(cfg, states, events) && n <= |events|
    ensures Count(states[n].sh, deed) == DoneIn(states, events, n, deed)
  {
    if n > 0 {
      LedgersCount(cfg, states, events, n - 1, deed);
      NextCounts(cfg, states, events, n - 1, deed);
    }
  }

  /** The flag is up if and only if somebody raised it: a handoff at its end, or a flush that found
      the conversation handed off and the flag gone. */
  lemma {:induction false} FlagIsRaisedExactly(cfg: Config, states: seq<System>, events: seq<Event>, n: nat)
    requires IsRun(cfg, states, events) && n <= |events|
    ensures states[n].sh.flag <==> RaisedIn(states, events, n)
  {
    if n > 0 {
      FlagIsRaisedExactly(cfg, states, events, n - 1);
      NextCounts(cfg, states, events, n - 1, Noted);
    }
  }

  // ---- Runs that returned, and links ----

  /** The await returns a run with that result. */
  predicate ReturnsRun(sh: Shared, p: Proc, o: Oracle, r: RunResult) {
    p.pc == Patching && o.fault == Answered && p.target.lead in sh.crm.leads && r == RunResult(p.target.lead, p.target.contact)
  }

  /** The await links the chat to the contact, or finds it linked. */
  predicate LinksNow(p: Proc, o: Oracle, contact: int, chat: string, refused: bool) {
    p.pc == Linking && o.fault != Dropped && p.conv.contactId == Some(contact) && p.conv.chatId == Some(chat) && o.alreadyLinked == refused
  }

  function Links(sh: Shared, refused: bool): set<(int, string)> {
    if refused then sh.deeds.refused else sh.deeds.linked
  }

  lemma PatchRecords(cfg: Config, sh: Shared, p: Proc, o: Oracle, r: RunResult)
    requires HasAllIds(cfg.mapping.tables) && p.pc == Patching
    ensures r in Patch(cfg, sh, p, o).sh.deeds.published <==> r in sh.deeds.published || ReturnsRun(sh, p, o, r)
  {
  }

  lemma LinkRecords(sh: Shared, p: Proc, o: Oracle, contact: int, chat: string, refused: bool)
    requires p.pc == Linking
    ensures (contact, chat) in Links(Link(sh, p, o).sh, refused)
            <==> (contact, chat) in Links(sh, refused) || LinksNow(p, o, contact, chat, refused)
  {
  }

  lemma AdvanceRecords(cfg: Config, sh: Shared, t: Token, p: Proc, o: Oracle, r: RunResult, chat: string, refused: bool)
    requires HasAllIds(cfg.mapping.tables) && InSection(p)
    ensures var after := Advance(cfg, sh, t, p, o).sh;
            && (r in after.deeds.published <==> r in sh.deeds.published || ReturnsRun(sh, p, o, r))
            && ((r.contact, chat) in Links(after, refused) <==> (r.contact, chat) in Links(sh, refused) || LinksNow(p, o, r.contact, chat, refused))
  {
    assert Framed(sh, p, Advance(cfg, sh, t, p, o));
    if p.pc == Patching {
      PatchRecords(cfg, sh, p, o, r);
    } else if p.pc == Linking {
      LinkRecords(sh, p, o, r.contact, chat, refused);
    }
  }

  predicate ReturnedAt(s: System, e: Event, r: RunResult) {
    e.Move? && e.token in s.procs && ReturnsRun(s.sh, s.procs[e.token], e.oracle, r)
  }

  predicate LinkedAt(s: System, e: Event, contact: int, chat: string, refused: bool) {
    e.Move? && e.token in s.procs && LinksNow(s.procs[e.token], e.oracle, contact, chat, refused)
  }

  lemma StepRecords(cfg: Config, s: System, e: Event, r: RunResult, chat: string, refused: bool)
    requires HasAllIds(cfg.mapping.tables) && Possible(cfg, s, e)
    ensures var after := Happen(cfg, s, e).sh;
            && (r in after.deeds.published <==> r in s.sh.deeds.published || ReturnedAt(s, e, r))
            && ((r.contact, chat) in Links(after, refused)
                <==> (r.contact, chat) in Links(s.sh, refused) || LinkedAt(s, e, r.contact, chat, refused))
  {
    if e.Move? {
      MoveIs(cfg, s, e.token, e.oracle);
      AdvanceRecords(cfg, s.sh, e.token, s.procs[e.token], e.oracle, r, chat, refused);
    }
  }

  predicate ReturnedIn(states: seq<System>, events: seq<Event>, n: nat, r: RunResult)
    requires |states| == |events| + 1 && n <= |events|
  {
    exists i: nat :: i < n && ReturnedAt(states[i], events[i], r)
  }

  predicate LinkedIn(states: seq<System>, events: seq<Event>, n: nat, contact: int, chat: string, refused: bool)
    requires |states| == |events| + 1 && n <= |events|
  {
    exists i: nat :: i < n && LinkedAt(states[i], events[i], contact, chat, refused)
  }

  lemma NextRecords(cfg: Config, states: seq<System>, events: seq<Event>, i: nat, r: RunResult, chat: string, refused: bool)
    requires IsRun(cfg, states, events) && i < |events|
    ensures r in states[i + 1].sh.deeds.published <==> r in states[i].sh.deeds.published || ReturnedAt(states[i], events[i], r)
    ensures (r.contact, chat) in Links(states[i + 1].sh, refused)
            <==> (r.contact, chat) in Links(states[i].sh, refused) || LinkedAt(states[i], events[i], r.contact, chat, refused)
  {
    assert StepAt(cfg, states, events, i);
    StepRecords(cfg, states[i], events[i], r, chat, refused);
  }

  /** In every run: the runs on record are those that some process's PATCH returned, and the links
      those that some process made or was refused because they had been made. */
  lemma {:induction false} RecordsAreDeeds(cfg: Config, states: seq<System>, events: seq<Event>, n: nat, r: RunResult, chat: string, refused: bool)
    requires IsRun(cfg, states, events) && n <= |events|
    ensures r in states[n].sh.deeds.published <==> ReturnedIn(states, events, n, r)
    ensures (r.contact, chat) in Links(states[n].sh, refused) <==> LinkedIn(states, events, n, r.contact, chat, refused)
  {
    if n > 0 {
      RecordsAreDeeds(cfg, states, events, n - 1, r, chat, refused);
      NextRecords(cfg, states, events, n - 1, r, chat, refused);
    }
  }
}
