/** The handoff on the mutable working state, call by call, as the end of a turn and the
    inactivity sweep both run it: whatever the calls do, it is what the protocol's state
    machine does when nobody else moves. */
module Handoff {
  import opened Prelude
  import opened Schemas
  import opened Conversations
  import opened LeadPayload
  import opened Crm
  import opened HandoffRuns
  import opened ProtocolState
  import opened Protocol
  import opened HandoffFlow

  /** The process stands where the chat half begins. */
  predicate BeforeChat(p: Proc, c: Conversation, contact: int, connector: bool) {
    && p.connector == connector && c.contactId == Some(contact)
    && (if !connector then p.pc == SavingFlip && p.conv == Flipped(c)
        else p.conv == c && p.pc == if c.chatId.None? then CreatingChat else Linking)
  }

  lemma ToChatIsBefore(p: Proc, contact: int)
    requires p.conv.contactId == Some(contact)
    ensures BeforeChat(ToChat(p), p.conv, contact, p.connector)
  {
  }

  /** A new chat's id is saved before the chat is linked. */
  method SaveChatId(s: Services, state: ConversationState, chatId: string) returns (ok: bool)
    requires s.Valid() && s.p.pc == SavingChat && s.p.conv == WithChat(state.Snapshot(), chatId)
    modifies s, state
    ensures s.notes == old(s.notes) && s.crm == old(s.crm)
    ensures s.Valid() && Moved(s.sh, s.p) == SaveChat(old(s.sh), old(s.p), s.answers(old(s.at))) && s.at == old(s.at) + 1
    ensures state.Snapshot() == WithChat(old(state.Snapshot()), chatId) && s.p.conv == state.Snapshot()
    ensures ok <==> s.answers(old(s.at)).fault == Answered
    ensures s.p.pc == if ok then Linking else Leaving
  {
    state.chatId := Some(chatId);
    assert state.Snapshot() == s.p.conv;
    ChatSaved(s.sh, s.p, s.answers(s.at));
    ok := s.Save(state, SaveChat(s.sh, s.p, s.answers(s.at)));
  }

  /** A chat is created, and its id saved at once. */
  method NewChat(s: Services, state: ConversationState) returns (chatId: Option<string>)
    requires s.Valid() && s.p.pc == CreatingChat && s.p.conv == state.Snapshot()
    modifies s, state
    ensures s.notes == old(s.notes) && s.crm == old(s.crm)
    ensures s.Valid() && Moved(s.sh, s.p) == EnsureChatBy(old(s.sh), old(s.p), s.answers, old(s.at))
    ensures state.Snapshot() == old(state.Snapshot()).(chatId := state.chatId)
    ensures match chatId
            case None => s.p.pc == Leaving && !Smooth(s.answers, old(s.at))
            case Some(_) =>
              s.p.pc == Linking && s.p.conv == state.Snapshot() && state.chatId == chatId && s.at == old(s.at) + 2
  {
    chatId := s.CreateChat();
    EnsureChatIs(old(s.sh), old(s.p), s.answers, old(s.at), Moved(s.sh, s.p));
    if chatId.None? {
      return None;
    }
    var saved := SaveChatId(s, state, chatId.value);
    if !saved {
      return None;
    }
  }

  /** The chat id, new if there is none. */
  method EnsureChat(s: Services, state: ConversationState) returns (chatId: Option<string>)
    requires s.Valid() && s.p.conv == state.Snapshot() && s.p.pc == if state.chatId.None? then CreatingChat else Linking
    modifies s, state
    ensures s.notes == old(s.notes) && s.crm == old(s.crm)
    ensures s.Valid() && Moved(s.sh, s.p) == EnsureChatBy(old(s.sh), old(s.p), s.answers, old(s.at))
    ensures state.Snapshot() == old(state.Snapshot()).(chatId := state.chatId)
    ensures match chatId
            case None => s.p.pc == Leaving && !Smooth(s.answers, old(s.at))
            case Some(_) =>
              && s.p.pc == Linking && s.p.conv == state.Snapshot() && state.chatId == chatId
              && s.at == if old(state.chatId).None? then old(s.at) + 2 else old(s.at)
  {
    chatId := state.chatId;
    if chatId.None? {
      chatId := NewChat(s, state);
    }
  }

  /** Creates the chat once, saves its id at once, and always links it. */
  method ConnectChatAtHandoff(s: Services, state: ConversationState, contact: int, connector: bool) returns (ok: bool)
    requires s.Valid() && BeforeChat(s.p, state.Snapshot(), contact, connector)
    modifies s, state
    ensures s.notes == old(s.notes) && s.crm == old(s.crm)
    ensures s.Valid() && Moved(s.sh, s.p) == ChatBy(old(s.sh), old(s.p), s.answers, old(s.at))
    ensures if ok then s.p.pc == SavingFlip && s.p.conv == Flipped(state.Snapshot())
            else s.p.pc == Leaving && !Smooth(s.answers, old(s.at))
    ensures ok ==> s.at == old(s.at) + ChatAwaits(old(s.p))
    ensures state.Snapshot() == old(state.Snapshot()).(chatId := state.chatId)
  {
    if !connector {
      return true;
    }
    var chatId := EnsureChat(s, state);
    ChatByIs(old(s.sh), old(s.p), s.answers, old(s.at), Moved(s.sh, s.p), if old(s.p.pc) == CreatingChat then old(s.at) + 2 else old(s.at));
    if chatId.None? {
      return false;
    }
    var reply := s.LinkChat(contact, chatId.value);
    return reply != LinkFailed;
  }

  method MarkHandedOff(state: ConversationState)
    modifies state
    ensures state.Snapshot() == Flipped(old(state.Snapshot()))
  {
    state.phase := HandedOff;
    state.lastAsked := None;
    state.deadline := None;
  }

  /** The point of no return. */
  method SaveFlipped(s: Services, state: ConversationState) returns (ok: bool)
    requires s.Valid() && s.p.pc == SavingFlip && s.p.conv == Flipped(state.Snapshot())
    modifies s, state
    ensures s.notes == old(s.notes) && s.crm == old(s.crm)
    ensures s.Valid() && Moved(s.sh, s.p) == SaveFlip(old(s.sh), old(s.p), s.answers(old(s.at))) && s.at == old(s.at) + 1
    ensures state.Snapshot() == Flipped(old(state.Snapshot()))
    ensures ok <==> s.answers(old(s.at)).fault == Answered
    ensures s.p.pc == if ok then SettingFlag else Leaving
    ensures ok ==> s.db == Some(state.Snapshot())
  {
    MarkHandedOff(state);
    FlipSaved(s.sh, s.p, s.answers(s.at));
    ok := s.Save(state, SaveFlip(s.sh, s.p, s.answers(s.at)));
  }

  /** The phase is saved before the flag goes up. */
  method FlipPhase(s: Services, state: ConversationState) returns (ok: bool)
    requires s.Valid() && s.p.pc == SavingFlip && s.p.conv == Flipped(state.Snapshot())
    modifies s, state
    ensures s.notes == old(s.notes) && s.crm == old(s.crm)
    ensures s.Valid() && Moved(s.sh, s.p) == FlipBy(old(s.sh), old(s.p), s.answers, old(s.at))
    ensures s.p.pc == Leaving && state.Snapshot() == Flipped(old(state.Snapshot()))
    ensures ok ==> s.flag && s.db == Some(state.Snapshot())
    ensures !ok ==> !Smooth(s.answers, old(s.at))
  {
    var saved := SaveFlipped(s, state);
    if !saved {
      return false;
    }
    FlagSet(s.sh, s.p, s.answers(s.at));
    ok := s.SetHandoff();
  }

  /** The ids of the lead are saved before anything else is done with them. */
  method SaveIds(s: Services, state: ConversationState, r: RunResult) returns (ok: bool)
    requires s.Valid() && s.p.pc == SavingMarker && s.p.conv == WithIds(state.Snapshot(), r)
    modifies s, state
    ensures s.notes == old(s.notes) && s.crm == old(s.crm)
    ensures s.Valid() && Moved(s.sh, s.p) == SaveMarker(old(s.sh), old(s.p), s.answers(old(s.at))) && s.at == old(s.at) + 1
    ensures state.Snapshot() == WithIds(old(state.Snapshot()), r)
    ensures state.leadId == Some(r.lead) && state.contactId == Some(r.contact)
    ensures if ok then BeforeChat(s.p, state.Snapshot(), r.contact, old(s.p).connector)
            else s.p.pc == Leaving && !Smooth(s.answers, old(s.at))
  {
    state.leadId := Some(r.lead);
    state.contactId := Some(r.contact);
    MarkerSaved(s.sh, s.p, s.answers(s.at));
    ToChatIsBefore(s.p.(marked := true), r.contact);
    ok := s.Save(state, SaveMarker(s.sh, s.p, s.answers(s.at)));
  }

  /** The CRM half. */
  method RunAndMark(s: Services, state: ConversationState, reason: HandoffReason, pending: seq<SlotName>) returns (ok: bool)
    requires s.Valid() && s.p.pc == Finding && s.p.conv == state.Snapshot() && s.p.reason == reason
    requires HasAllIds(s.cfg.mapping.tables) && ExactSearch(s.crm, s.cfg.phone, s.answers(s.at).matches)
    modifies s, state
    ensures s.Valid() && Moved(s.sh, s.p) == MarkBy(s.cfg, old(s.sh), old(s.p), s.answers, old(s.at))
    ensures Posts(old(s.notes), s.notes, reason, pending, if ok then state.leadId else None)
    ensures ok ==> OwnLead(s.crm, s.cfg.phone, state.leadId, state.contactId)
    ensures !ok ==> s.p.pc == Leaving && !Smooth(s.answers, old(s.at))
    ensures ok ==> s.at == old(s.at) + 5 && state.contactId.Some?
                   && BeforeChat(s.p, state.Snapshot(), state.contactId.value, old(s.p).connector)
  {
    var result := s.RunHandoff(reason, state, pending);
    if result.None? {
      return false;
    }
    ok := SaveIds(s, state, result.value);
  }

  /** The chat half and the flip. */
  method ConnectAndFlip(s: Services, state: ConversationState, connector: bool) returns (ok: bool)
    requires s.Valid() && state.contactId.Some? && BeforeChat(s.p, state.Snapshot(), state.contactId.value, connector)
    modifies s, state
    ensures s.notes == old(s.notes) && s.crm == old(s.crm)
    ensures s.Valid() && s.p.pc == Leaving
    ensures Moved(s.sh, s.p) == FinishBy(old(s.sh), old(s.p), s.answers, old(s.at))
    ensures state.leadId == old(state.leadId) && state.contactId == old(state.contactId)
    ensures ok ==> s.flag && s.db == Some(state.Snapshot()) && state.phase == HandedOff
    ensures !ok ==> !Smooth(s.answers, old(s.at))
  {
    var connected := ConnectChatAtHandoff(s, state, state.contactId.value, connector);
    assert FinishBy(old(s.sh), old(s.p), s.answers, old(s.at)) ==
           FlipFrom(Moved(s.sh, s.p), s.answers, old(s.at) + ChatAwaits(old(s.p)));
    if !connected {
      return false;
    }
    ok := FlipPhase(s, state);
  }

  /** Before the CRM half: it runs only while no contact has been recorded. */
  predicate BeforeRun(p: Proc, c: Conversation, reason: HandoffReason, connector: bool) {
    if c.contactId.None? then p.pc == Finding && p.conv == c && p.reason == reason && p.connector == connector
    else BeforeChat(p, c, c.contactId.value, connector)
  }

  lemma ToRunIsBefore(p: Proc)
    ensures BeforeRun(ToRun(p), p.conv, p.reason, p.connector)
  {
    if p.conv.contactId.Some? {
      ToChatIsBefore(p, p.conv.contactId.value);
    }
  }

  /** What a handoff posts: nothing when a contact is on record, and otherwise its note. */
  predicate HandoffPosts(
    before: seq<PostedNote>, after: seq<PostedNote>, contact: Option<int>, reason: HandoffReason, pending: seq<SlotName>, lead: Option<int>)
  {
    if contact.Some? then after == before else Posts(before, after, reason, pending, lead)
  }

  lemma PostedWhereverItEnds(before: seq<PostedNote>, after: seq<PostedNote>, reason: HandoffReason, pending: seq<SlotName>, lead: Option<int>)
    requires Posts(before, after, reason, pending, lead)
    ensures Posts(before, after, reason, pending, None)
  {
  }

  /** From the CRM half on, while no contact is on record. */
  method RunAndFinish(s: Services, state: ConversationState, reason: HandoffReason, pending: seq<SlotName>, connector: bool)
    returns (ok: bool)
    requires s.Valid() && s.p.pc == Finding && s.p.conv == state.Snapshot() && s.p.reason == reason && s.p.connector == connector
    requires HasAllIds(s.cfg.mapping.tables) && ExactSearch(s.crm, s.cfg.phone, s.answers(s.at).matches)
    modifies s, state
    ensures s.Valid() && s.p.pc == Leaving
    ensures Moved(s.sh, s.p) == HandoffBy(s.cfg, old(s.sh), old(s.p), s.answers, old(s.at))
    ensures Posts(old(s.notes), s.notes, reason, pending, if ok then state.leadId else None)
    ensures ok ==> OwnLead(s.crm, s.cfg.phone, state.leadId, state.contactId)
    ensures ok ==> s.flag && s.db == Some(state.Snapshot()) && state.phase == HandedOff
    ensures !ok ==> !Smooth(s.answers, old(s.at))
  {
    var marked := RunAndMark(s, state, reason, pending);
    if !marked {
      return false;
    }
    PostedWhereverItEnds(old(s.notes), s.notes, reason, pending, state.leadId);
    ok := ConnectAndFlip(s, state, connector);
  }

  /** From the CRM half on. One that raises nowhere leaves the durable phase flipped and the
      flag up; one that raises leaves what the machine leaves, from which the next attempt
      goes on. */
  method FinishHandoff(s: Services, state: ConversationState, reason: HandoffReason, pending: seq<SlotName>, connector: bool)
    returns (ok: bool)
    requires s.Valid() && BeforeRun(s.p, state.Snapshot(), reason, connector)
    requires HasAllIds(s.cfg.mapping.tables) && ExactSearch(s.crm, s.cfg.phone, s.answers(s.at).matches)
    modifies s, state
    ensures s.Valid() && s.p.pc == Leaving
    ensures Moved(s.sh, s.p) == HandoffBy(s.cfg, old(s.sh), old(s.p), s.answers, old(s.at))
    ensures HandoffPosts(old(s.notes), s.notes, old(state.contactId), reason, pending, if ok then state.leadId else None)
    ensures ok && old(state.contactId).None? ==> OwnLead(s.crm, s.cfg.phone, state.leadId, state.contactId)
    ensures ok ==> s.flag && s.db == Some(state.Snapshot()) && state.phase == HandedOff
    ensures !ok ==> !Smooth(s.answers, old(s.at))
  {
    if state.contactId.None? {
      ok := RunAndFinish(s, state, reason, pending, connector);
    } else {
      ok := ConnectAndFlip(s, state, connector);
    }
  }

  /** The silent handoff of the sweep. */
  method RunInactivityHandoff(s: Services, state: ConversationState, connector: bool) returns (ok: bool)
    requires s.Valid() && BeforeRun(s.p, state.Snapshot(), NoResponse, connector)
    requires HasAllIds(s.cfg.mapping.tables) && ExactSearch(s.crm, s.cfg.phone, s.answers(s.at).matches)
    modifies s, state
    ensures s.Valid() && s.p.pc == Leaving
    ensures Moved(s.sh, s.p) == HandoffBy(s.cfg, old(s.sh), old(s.p), s.answers, old(s.at))
    ensures HandoffPosts(old(s.notes), s.notes, old(state.contactId), NoResponse, [], if ok then state.leadId else None)
    ensures ok && old(state.contactId).None? ==> OwnLead(s.crm, s.cfg.phone, state.leadId, state.contactId)
    ensures ok ==> s.flag && s.db == Some(state.Snapshot()) && state.phase == HandedOff
    ensures !ok ==> !Smooth(s.answers, old(s.at))
  {
    ok := FinishHandoff(s, state, NoResponse, [], connector);
  }

  /** The handoff that ends a turn: the turn's progress is saved first, so that a failure
      retries from it. The reply is returned only when everything succeeded. */
  method HandOffTurn(s: Services, state: ConversationState, reason: HandoffReason, reply: string, pending: seq<SlotName>, connector: bool)
    returns (sent: Option<string>)
    requires s.Valid() && s.p.pc == SavingProgress && s.p.conv == state.Snapshot() && s.p.reason == reason && s.p.connector == connector
    requires HasAllIds(s.cfg.mapping.tables) && ExactSearch(s.crm, s.cfg.phone, s.answers(s.at + 1).matches)
    modifies s, state
    ensures s.Valid() && s.p.pc == Leaving
    ensures Moved(s.sh, s.p) == TurnHandoffBy(s.cfg, old(s.sh), old(s.p), s.answers, old(s.at))
    ensures HandoffPosts(old(s.notes), s.notes, old(state.contactId), reason, pending, if sent.Some? then state.leadId else None)
    ensures sent.Some? && old(state.contactId).None? ==> OwnLead(s.crm, s.cfg.phone, state.leadId, state.contactId)
    ensures sent.Some? ==> sent == Some(reply) && s.flag && s.db == Some(state.Snapshot()) && state.phase == HandedOff
    ensures sent.None? ==> !Smooth(s.answers, old(s.at))
  {
    ProgressSaved(s.sh, s.p, s.answers(s.at));
    ToRunIsBefore(s.p);
    var saved := s.Save(state, SaveProgress(s.sh, s.p, s.answers(s.at)));
    if !saved {
      return None;
    }
    var ok := FinishHandoff(s, state, reason, pending, connector);
    sent := if ok then Some(reply) else None;
  }
}
