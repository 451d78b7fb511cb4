/** The invariant of the handoff protocol, and why each await of the lock holder keeps it. */
module ProtocolInvariant {
  import opened Prelude
  import opened Schemas
  import opened Conversations
  import opened TurnLogic
  import opened TurnInvariants
  import opened LeadPayload
  import opened Crm
  import opened HandoffRuns
  import opened RetryTransparency
  import opened Leases
  import opened ProtocolState
  import opened Protocol

  predicate DeadlineMatches(deadline: Option<real>, armedAt: Option<real>, silence: real, now: real) {
    deadline.Some? ==> armedAt.Some? && deadline.value == armedAt.value + silence && armedAt.value <= now
  }

  predicate Connected(c: Conversation, deeds: Deeds) {
    && c.contactId.Some? && c.chatId.Some?
    && ((c.contactId.value, c.chatId.value) in deeds.linked || (c.contactId.value, c.chatId.value) in deeds.refused)
  }

  predicate Increasing(xs: seq<int>, bound: int) {
    (forall i, j :: 0 <= i < j < |xs| ==> xs[i] < xs[j]) && forall i :: 0 <= i < |xs| ==> 0 <= xs[i] < bound
  }

  /** The handoff markers of the durable record are earned. */
  predicate MarkersOk(c: Conversation, deeds: Deeds) {
    && (c.leadId.Some? <==> c.contactId.Some?)
    && (c.contactId.Some? ==> RunResult(c.leadId.value, c.contactId.value) in deeds.published)
    && (c.phase == HandedOff ==>
          && c.contactId.Some? && c.deadline.None?
          && (deeds.flippedWithConnector ==> Connected(c, deeds)))
    && deeds.flips == (if c.phase == HandedOff then 1 else 0)
    && deeds.farewells <= deeds.flips
  }

  predicate RecordOk(cfg: Config, db: Option<Conversation>, flag: bool, now: real, deeds: Deeds) {
    var c := Durable(db);
    && MarkersOk(c, deeds)
    && DeadlineMatches(c.deadline, deeds.armedAt, cfg.silence, now)
    && (flag ==> c.phase == HandedOff)
  }

  function One<T>(o: Option<T>): nat {
    if o.Some? then 1 else 0
  }

  /** Every note and chat is accounted for: recorded, lost, or in the holder's hands, and
      nothing is in hand once it is recorded. */
  predicate AccountsOk(c: Conversation, a: Accounts, openNotes: nat, openChats: nat) {
    && a.notes == a.lostNotes + openNotes + One(c.contactId)
    && a.chats == a.lostChats + openChats + One(c.chatId)
    && openNotes + One(c.contactId) <= 1 && openChats + One(c.chatId) <= 1
  }

  ghost predicate CrmOk(phone: string, crm: Crm, created: Creations) {
    && ValidCrm(crm)
    && created.contacts <= created.leads <= 1
    && (created.leads == 1 ==> HasLead(crm, phone))
  }

  predicate BufferOk(buffer: seq<string>, traffic: Traffic) {
    && traffic.received == Flatten(traffic.batches) + buffer
    && Increasing(traffic.handled, |traffic.batches|)
  }

  ghost predicate Books(cfg: Config, sh: Shared, openNotes: nat, openChats: nat) {
    && RecordOk(cfg, sh.db, sh.flag, sh.now, sh.deeds)
    && AccountsOk(Durable(sh.db), sh.accounts, openNotes, openChats)
    && CrmOk(cfg.phone, sh.crm, sh.created)
    && BufferOk(sh.buffer, sh.traffic)
  }

  // ---- The lock holder's own view ----

  predicate NothingOpen(p: Proc) {
    (p.noted ==> p.marked) && (p.chatted ==> p.chatSaved)
  }

  predicate NothingDone(p: Proc) {
    !p.noted && !p.chatted && !p.marked && !p.chatSaved
  }

  /** The working copy is still collecting, and coherent with when its deadline was armed. */
  predicate Working(cfg: Config, now: real, p: Proc) {
    && p.conv.phase == Collecting
    && DeadlineMatches(p.conv.deadline, p.armedAt, cfg.silence, now)
  }

  /** The working copy is the stored record, from which a handoff goes on. */
  predicate Synced(cfg: Config, sh: Shared, p: Proc) {
    Working(cfg, sh.now, p) && sh.db == Some(p.conv) && p.armedAt == sh.deeds.armedAt
  }

  predicate AtRun(cfg: Config, sh: Shared, p: Proc) {
    Synced(cfg, sh, p) && p.conv.contactId.None? && !p.marked && !p.chatted
  }

  predicate Creatable(r: Resolution, phone: string, crm: Crm) {
    match r
    case Reuse(_, _) => false
    case CreateOn(c) => c in crm.contacts && crm.contacts[c] == phone
    case CreateBoth => true
  }

  predicate LocalOk(cfg: Config, sh: Shared, p: Proc) {
    match p.pc
    case Waiting => false
    case Gone => false
    case Draining => NothingDone(p) && p.kind.Flush?
    case CheckingBlock =>
      NothingDone(p) && p.kind.Flush? && 0 <= p.batch < |sh.traffic.batches| && Increasing(sh.traffic.handled, p.batch)
    case Loading => NothingDone(p)
    case Silencing => NothingDone(p) && Durable(sh.db).phase == HandedOff
    case Thinking => NothingDone(p) && Working(cfg, sh.now, p) && p.conv == Durable(sh.db) && p.armedAt == sh.deeds.armedAt
    case Arming =>
      NothingDone(p) && Working(cfg, sh.now, p) && SameMarkers(Durable(sh.db), p.conv) && p.armedAt == sh.deeds.armedAt
    case SavingProgress =>
      NothingDone(p) && Working(cfg, sh.now, p) && SameMarkers(Durable(sh.db), p.conv) && p.armedAt == sh.deeds.armedAt
    case SavingTurn =>
      NothingDone(p) && Working(cfg, sh.now, p) && SameMarkers(Durable(sh.db), p.conv.(deadline := Durable(sh.db).deadline))
    case Finding => AtRun(cfg, sh, p) && !p.noted
    case Creating => AtRun(cfg, sh, p) && !p.noted && sh.created.leads == 0 && Creatable(p.resolution, cfg.phone, sh.crm)
    case Noting => AtRun(cfg, sh, p) && !p.noted
    case ReadingStage => AtRun(cfg, sh, p) && p.noted
    case Patching => AtRun(cfg, sh, p) && p.noted
    case SavingMarker =>
      && Working(cfg, sh.now, p) && p.armedAt == sh.deeds.armedAt && p.noted && !p.marked && !p.chatted
      && p.conv.leadId.Some? && p.conv.contactId.Some?
      && RunResult(p.conv.leadId.value, p.conv.contactId.value) in sh.deeds.published
      && sh.db == Some(p.conv.(leadId := None, contactId := None))
    case CreatingChat =>
      Synced(cfg, sh, p) && p.conv.contactId.Some? && p.connector && (p.noted ==> p.marked) && p.conv.chatId.None? && !p.chatted
    case SavingChat =>
      && Working(cfg, sh.now, p) && p.armedAt == sh.deeds.armedAt && (p.noted ==> p.marked) && p.connector
      && p.chatted && !p.chatSaved && p.conv.contactId.Some? && p.conv.chatId.Some?
      && sh.db == Some(p.conv.(chatId := None))
    case Linking => Synced(cfg, sh, p) && p.conv.contactId.Some? && p.connector && p.conv.chatId.Some? && NothingOpen(p)
    case SavingFlip =>
      && NothingOpen(p) && sh.db.Some? && sh.db.value.phase == Collecting && p.conv == Flipped(sh.db.value)
      && p.conv.contactId.Some? && (p.connector ==> Connected(p.conv, sh.deeds))
    case SettingFlag => NothingOpen(p) && Durable(sh.db).phase == HandedOff && sh.deeds.farewells == 0
    case Leaving => true
  }

  ghost predicate Good(cfg: Config, sh: Shared, p: Proc) {
    Books(cfg, sh, OpenNotes(p), OpenChats(p)) && (p.chatSaved ==> p.chatted) && LocalOk(cfg, sh, p)
  }

  /** What nothing may undo. */
  predicate Frozen(c: Conversation, d: Conversation) {
    && (c.phase == HandedOff ==> d.phase == HandedOff)
    && (c.contactId.Some? ==> d.contactId == c.contactId && d.leadId == c.leadId)
    && (c.chatId.Some? ==> d.chatId == c.chatId)
  }

  /** One await of the holder keeps everything; leaving the section leaves nothing open. */
  ghost predicate Kept(cfg: Config, sh: Shared, m: Moved) {
    && (if InSection(m.p) then Good(cfg, m.sh, m.p) else Books(cfg, m.sh, 0, 0))
    && Frozen(Durable(sh.db), Durable(m.sh.db))
    && (sh.flag ==> m.sh.flag)
    && m.sh.now == sh.now
  }

  lemma RaiseKeeps(cfg: Config, sh: Shared, p: Proc)
    requires Good(cfg, sh, p)
    ensures Good(cfg, sh, Raise(p))
  {
  }

  lemma Drained(buffer: seq<string>, traffic: Traffic)
    requires BufferOk(buffer, traffic)
    ensures BufferOk([], traffic.(batches := traffic.batches + [buffer]))
    ensures Increasing(traffic.handled, |traffic.batches|)
  {
    var batches := traffic.batches + [buffer];
    assert batches[..|batches| - 1] == traffic.batches;
    assert Flatten(batches) + [] == Flatten(traffic.batches) + buffer;
  }

  lemma DrainKeeps(cfg: Config, sh: Shared, p: Proc, o: Oracle)
    requires p.pc == Draining && Good(cfg, sh, p)
    ensures Kept(cfg, sh, Drain(sh, p, o))
  {
    if o.fault != Dropped && sh.buffer != [] {
      Drained(sh.buffer, sh.traffic);
      var after := sh.(buffer := [], traffic := sh.traffic.(batches := sh.traffic.batches + [sh.buffer]));
      assert Books(cfg, after, 0, 0);
    }
  }

  lemma Handled(buffer: seq<string>, traffic: Traffic, batch: int)
    requires BufferOk(buffer, traffic) && 0 <= batch < |traffic.batches| && Increasing(traffic.handled, batch)
    ensures BufferOk(buffer, traffic.(handled := traffic.handled + [batch]))
  {
  }

  lemma CheckBlockKeeps(cfg: Config, sh: Shared, p: Proc, o: Oracle)
    requires p.pc == CheckingBlock && Good(cfg, sh, p)
    ensures Kept(cfg, sh, CheckBlock(sh, p, o))
  {
    if o.fault == Answered && !o.blocked {
      Handled(sh.buffer, sh.traffic, p.batch);
      var after := sh.(traffic := sh.traffic.(handled := sh.traffic.handled + [p.batch]));
      assert Books(cfg, after, 0, 0);
    }
  }

  lemma ToFlipKeeps(cfg: Config, sh: Shared, p: Proc)
    requires Books(cfg, sh, 0, 0) && Synced(cfg, sh, p) && NothingOpen(p)
    requires p.conv.contactId.Some? && (p.connector ==> Connected(p.conv, sh.deeds)) && (p.chatSaved ==> p.chatted)
    ensures Good(cfg, sh, ToFlip(p))
  {
    assert Connected(p.conv, sh.deeds) ==> Connected(Flipped(p.conv), sh.deeds);
    assert LocalOk(cfg, sh, ToFlip(p));
  }

  lemma ToChatKeeps(cfg: Config, sh: Shared, p: Proc)
    requires Books(cfg, sh, 0, 0) && Synced(cfg, sh, p)
    requires p.conv.contactId.Some? && (p.noted ==> p.marked) && !p.chatted && !p.chatSaved
    ensures Good(cfg, sh, ToChat(p)) && InSection(ToChat(p))
  {
    if !p.connector {
      ToFlipKeeps(cfg, sh, p);
    } else {
      assert LocalOk(cfg, sh, ToChat(p));
    }
  }

  lemma ToRunKeeps(cfg: Config, sh: Shared, p: Proc)
    requires Books(cfg, sh, 0, 0) && Synced(cfg, sh, p)
    requires NothingDone(p)
    ensures Good(cfg, sh, ToRun(p)) && InSection(ToRun(p))
  {
    if p.conv.contactId.Some? {
      ToChatKeeps(cfg, sh, p);
    }
  }

  /** What loading establishes: the working copy is the stored record. */
  lemma LoadedIsStored(cfg: Config, sh: Shared, p: Proc, reason: HandoffReason)
    requires p.pc == Loading && Good(cfg, sh, p)
    ensures var c := Durable(sh.db);
            var loaded := p.(conv := c, armedAt := sh.deeds.armedAt);
            && (c.phase == HandedOff ==> Good(cfg, sh, loaded.(pc := Silencing)))
            && (c.phase == Collecting ==> Good(cfg, sh, loaded.(pc := Thinking)))
            && (c.phase == Collecting && c.deadline.Some? ==> Synced(cfg, sh, loaded.(reason := reason)))
  {
  }

  lemma LoadKeeps(cfg: Config, sh: Shared, p: Proc, o: Oracle)
    requires p.pc == Loading && Good(cfg, sh, p)
    ensures Kept(cfg, sh, Load(sh, p, o))
  {
    var c := Durable(sh.db);
    LoadedIsStored(cfg, sh, p, NoResponse);
    RaiseKeeps(cfg, sh, p);
    if o.fault == Answered && p.kind.Sweep? && !(c.phase == HandedOff || c.deadline.None? || c.deadline.value > p.kind.asOf) {
      ToRunKeeps(cfg, sh, p.(conv := c, armedAt := sh.deeds.armedAt, reason := NoResponse));
    }
  }

  lemma SilenceKeeps(cfg: Config, sh: Shared, p: Proc, o: Oracle)
    requires p.pc == Silencing && Good(cfg, sh, p)
    ensures Kept(cfg, sh, Silence(sh, p, o))
  {
    assert Books(cfg, sh.(flag := true), 0, 0);
  }

  /** A turn touches none of the handoff markers. */
  lemma TurnKeepsMarkers(catalogue: Catalogue, c: Conversation, input: TurnInput)
    ensures SameMarkers(c, TakeTurn(catalogue, c, input).conv)
  {
  }

  /** Whatever a turn decided, its working copy goes on with the stored markers. */
  lemma DecidedKeeps(cfg: Config, sh: Shared, p: Proc, c: Conversation, reason: HandoffReason)
    requires p.pc == Thinking && Good(cfg, sh, p) && SameMarkers(p.conv, c)
    ensures Good(cfg, sh, p.(conv := c, reason := reason, pc := SavingProgress))
    ensures Good(cfg, sh, p.(conv := c, pc := Arming))
  {
    assert Working(cfg, sh.now, p.(conv := c));
  }

  lemma ThinkKeeps(cfg: Config, sh: Shared, p: Proc, o: Oracle)
    requires p.pc == Thinking && Good(cfg, sh, p)
    ensures Kept(cfg, sh, Think(cfg, sh, p, o))
  {
    if o.fault == Answered {
      TurnKeepsMarkers(cfg.catalogue, p.conv, o.input);
      var t := TakeTurn(cfg.catalogue, p.conv, o.input);
      DecidedKeeps(cfg, sh, p, t.conv, if t.decision.HandOff? then t.decision.reason else p.reason);
    } else {
      RaiseKeeps(cfg, sh, p);
    }
  }

  lemma ArmKeeps(cfg: Config, sh: Shared, p: Proc)
    requires p.pc == Arming && Good(cfg, sh, p)
    ensures Kept(cfg, sh, Arm(cfg, sh, p))
  {
    assert Working(cfg, sh.now, Arm(cfg, sh, p).p);
  }

  /** A save whose record has the stored one's markers keeps the books. */
  lemma SaveKeepsBooks(cfg: Config, sh: Shared, c: Conversation, armedAt: Option<real>)
    requires Books(cfg, sh, 0, 0) && Durable(sh.db).phase == Collecting
    requires SameMarkers(Durable(sh.db), c.(deadline := Durable(sh.db).deadline))
    requires DeadlineMatches(c.deadline, armedAt, cfg.silence, sh.now)
    ensures Books(cfg, Saved(sh, c).(deeds := sh.deeds.(armedAt := armedAt)), 0, 0)
  {
    var deeds := sh.deeds.(armedAt := armedAt);
    assert MarkersOk(c, deeds);
    assert RecordOk(cfg, Some(c), sh.flag, sh.now, deeds);
  }

  lemma SaveTurnKeeps(cfg: Config, sh: Shared, p: Proc, o: Oracle)
    requires p.pc == SavingTurn && Good(cfg, sh, p)
    ensures Kept(cfg, sh, SaveTurn(sh, p, o))
  {
    if o.fault != Dropped {
      SaveKeepsBooks(cfg, sh, p.conv, p.armedAt);
    }
  }

  lemma SaveProgressKeeps(cfg: Config, sh: Shared, p: Proc, o: Oracle)
    requires p.pc == SavingProgress && Good(cfg, sh, p)
    ensures Kept(cfg, sh, SaveProgress(sh, p, o))
  {
    if o.fault != Dropped {
      SaveKeepsBooks(cfg, sh, p.conv, p.armedAt);
      var after := Saved(sh, p.conv);
      assert after == after.(deeds := after.deeds.(armedAt := p.armedAt));
      ToRunKeeps(cfg, after, p);
    }
  }

  lemma NoLeadIsCreatable(cfg: Config, sh: Shared, matches: seq<Match>)
    requires ExactSearch(sh.crm, cfg.phone, matches) && !Resolve(matches).Reuse? && CrmOk(cfg.phone, sh.crm, sh.created)
    ensures sh.created.leads == 0 && Creatable(Resolve(matches), cfg.phone, sh.crm)
  {
    ResolveIsExact(sh.crm, cfg.phone, matches);
    assert !HasLead(sh.crm, cfg.phone);
  }

  lemma FoundKeeps(cfg: Config, sh: Shared, p: Proc, o: Oracle)
    requires p.pc == Finding && Good(cfg, sh, p) && o.fault == Answered && ExactSearch(sh.crm, cfg.phone, o.matches)
    ensures Kept(cfg, sh, Find(sh, p, o))
  {
    if !Resolve(o.matches).Reuse? {
      NoLeadIsCreatable(cfg, sh, o.matches);
    }
  }

  lemma FindKeeps(cfg: Config, sh: Shared, p: Proc, o: Oracle)
    requires p.pc == Finding && Good(cfg, sh, p)
    requires o.fault == Answered ==> ExactSearch(sh.crm, cfg.phone, o.matches)
    ensures Kept(cfg, sh, Find(sh, p, o))
  {
    if o.fault == Answered {
      FoundKeeps(cfg, sh, p, o);
    } else {
      RaiseKeeps(cfg, sh, p);
    }
  }

  lemma CreatedKeepsCrm(cfg: Config, crm: Crm, created: Creations, r: Resolution)
    requires CrmOk(cfg.phone, crm, created) && created.leads == 0 && Creatable(r, cfg.phone, crm)
    ensures CrmOk(cfg.phone, Created(cfg.mapping, crm, cfg.phone, r),
                  Creations(1, created.contacts + if r.CreateBoth? then 1 else 0))
  {
    var after := Created(cfg.mapping, crm, cfg.phone, r);
    assert LeadOfPhone(after, cfg.phone, TargetOf(crm, r).lead);
  }

  lemma CreatedBooks(cfg: Config, sh: Shared, p: Proc)
    requires p.pc == Creating && Good(cfg, sh, p)
    ensures Books(cfg, CreateApplied(cfg, sh, p.resolution), 0, 0)
  {
    CreatedKeepsCrm(cfg, sh.crm, sh.created, p.resolution);
  }

  lemma CreatedMayNote(cfg: Config, sh: Shared, p: Proc, target: Target)
    requires p.pc == Creating && Good(cfg, sh, p)
    ensures Good(cfg, CreateApplied(cfg, sh, p.resolution), p.(target := target, pc := Noting))
  {
    CreatedBooks(cfg, sh, p);
  }

  lemma CreatedMayRaise(cfg: Config, sh: Shared, p: Proc)
    requires p.pc == Creating && Good(cfg, sh, p)
    ensures Good(cfg, CreateApplied(cfg, sh, p.resolution), Raise(p))
  {
    CreatedBooks(cfg, sh, p);
  }

  lemma CreateKeeps(cfg: Config, sh: Shared, p: Proc, o: Oracle)
    requires p.pc == Creating && Good(cfg, sh, p)
    ensures Kept(cfg, sh, Create(cfg, sh, p, o))
  {
    if o.fault == Dropped {
      RaiseKeeps(cfg, sh, p);
    } else {
      CreatedMayNote(cfg, sh, p, TargetOf(sh.crm, p.resolution));
      CreatedMayRaise(cfg, sh, p);
    }
  }

  lemma NotedBooks(cfg: Config, sh: Shared, p: Proc)
    requires p.pc == Noting && Good(cfg, sh, p)
    ensures var after := sh.(accounts := sh.accounts.(notes := sh.accounts.notes + 1));
            Books(cfg, after, 1, 0) && AtRun(cfg, after, p.(noted := true))
  {
  }

  lemma NotedMayRaise(cfg: Config, sh: Shared, p: Proc)
    requires p.pc == Noting && Good(cfg, sh, p)
    ensures Good(cfg, sh.(accounts := sh.accounts.(notes := sh.accounts.notes + 1)), Raise(p.(noted := true)))
  {
    NotedBooks(cfg, sh, p);
  }

  lemma NotedMayPatch(cfg: Config, sh: Shared, p: Proc, stage: Option<int>)
    requires p.pc == Noting && Good(cfg, sh, p)
    ensures Good(cfg, sh.(accounts := sh.accounts.(notes := sh.accounts.notes + 1)), p.(noted := true, stage := stage, pc := Patching))
  {
    NotedBooks(cfg, sh, p);
  }

  lemma NotedMayRead(cfg: Config, sh: Shared, p: Proc)
    requires p.pc == Noting && Good(cfg, sh, p)
    ensures Good(cfg, sh.(accounts := sh.accounts.(notes := sh.accounts.notes + 1)), p.(noted := true, pc := ReadingStage))
  {
    NotedBooks(cfg, sh, p);
  }

  lemma PostNoteKeeps(cfg: Config, sh: Shared, p: Proc, o: Oracle)
    requires p.pc == Noting && Good(cfg, sh, p)
    ensures Kept(cfg, sh, PostNote(cfg, sh, p, o))
  {
    if o.fault == Dropped {
      RaiseKeeps(cfg, sh, p);
    } else {
      NotedMayRaise(cfg, sh, p);
      NotedMayPatch(cfg, sh, p, Some(cfg.mapping.StageFor(p.reason)));
      NotedMayRead(cfg, sh, p);
    }
  }

  lemma ReadKeeps(cfg: Config, sh: Shared, p: Proc, stage: Option<int>)
    requires p.pc == ReadingStage && Good(cfg, sh, p)
    ensures Good(cfg, sh, p.(stage := stage, pc := Patching))
  {
    assert AtRun(cfg, sh, p.(stage := stage, pc := Patching));
  }

  lemma ReadStageKeeps(cfg: Config, sh: Shared, p: Proc, o: Oracle)
    requires p.pc == ReadingStage && Good(cfg, sh, p)
    ensures Kept(cfg, sh, ReadStage(cfg, sh, p, o))
  {
    if o.fault == Answered && p.target.lead in sh.crm.leads {
      ReadKeeps(cfg, sh, p, StageToSet(cfg.mapping, sh.crm, p.target, p.reason));
    } else {
      RaiseKeeps(cfg, sh, p);
    }
  }

  lemma PatchedKeepsCrm(phone: string, crm: Crm, created: Creations, l: int, values: seq<FieldValue>, stage: Option<int>)
    requires CrmOk(phone, crm, created) && l in crm.leads
    ensures CrmOk(phone, Patched(crm, l, values, stage), created)
  {
    if k :| LeadOfPhone(crm, phone, k) {
      assert LeadOfPhone(Patched(crm, l, values, stage), phone, k);
    }
  }

  lemma PublishedKeepsRecord(cfg: Config, db: Option<Conversation>, flag: bool, now: real, deeds: Deeds, more: Deeds)
    requires RecordOk(cfg, db, flag, now, deeds)
    requires deeds.published <= more.published && deeds.linked <= more.linked && deeds.refused <= more.refused
    requires more.(published := deeds.published, linked := deeds.linked, refused := deeds.refused) == deeds
    ensures RecordOk(cfg, db, flag, now, more)
  {
  }

  /** The run returned: its result is in the working copy, not yet in the store. */
  lemma RanKeeps(cfg: Config, sh: Shared, p: Proc, lead: int, contact: int)
    requires p.pc == Patching && Good(cfg, sh, p) && RunResult(lead, contact) in sh.deeds.published
    ensures Good(cfg, sh, p.(conv := p.conv.(leadId := Some(lead), contactId := Some(contact)), pc := SavingMarker))
  {
    assert p.conv.leadId.None?;
    var next := p.(conv := p.conv.(leadId := Some(lead), contactId := Some(contact)), pc := SavingMarker);
    assert next.conv.(leadId := None, contactId := None) == p.conv;
    assert LocalOk(cfg, sh, next);
  }

  lemma PatchAppliedKeeps(cfg: Config, sh: Shared, p: Proc, values: seq<FieldValue>, published: set<RunResult>)
    requires p.pc == Patching && Good(cfg, sh, p) && p.target.lead in sh.crm.leads
    requires sh.deeds.published <= published
    ensures Good(cfg, sh.(crm := Patched(sh.crm, p.target.lead, values, p.stage), deeds := sh.deeds.(published := published)), p)
  {
    PatchedKeepsCrm(cfg.phone, sh.crm, sh.created, p.target.lead, values, p.stage);
    var deeds := sh.deeds.(published := published);
    PublishedKeepsRecord(cfg, sh.db, sh.flag, sh.now, sh.deeds, deeds);
    var after := sh.(crm := Patched(sh.crm, p.target.lead, values, p.stage), deeds := deeds);
    assert Books(cfg, after, 1, 0);
  }

  lemma PatchKeeps(cfg: Config, sh: Shared, p: Proc, o: Oracle)
    requires HasAllIds(cfg.mapping.tables)
    requires p.pc == Patching && Good(cfg, sh, p)
    ensures Kept(cfg, sh, Patch(cfg, sh, p, o))
  {
    if o.fault != Dropped && p.target.lead in sh.crm.leads {
      var values := CustomFields(cfg.mapping.tables, p.conv.slots);
      var result := RunResult(p.target.lead, p.target.contact);
      var published := if o.fault == Answered then sh.deeds.published + {result} else sh.deeds.published;
      PatchAppliedKeeps(cfg, sh, p, values, published);
      var after := sh.(crm := Patched(sh.crm, p.target.lead, values, p.stage), deeds := sh.deeds.(published := published));
      if o.fault == Answered {
        RanKeeps(cfg, after, p, result.lead, result.contact);
      } else {
        RaiseKeeps(cfg, after, p);
      }
    } else {
      RaiseKeeps(cfg, sh, p);
    }
  }

  lemma SaveMarkerKeeps(cfg: Config, sh: Shared, p: Proc, o: Oracle)
    requires p.pc == SavingMarker && Good(cfg, sh, p)
    ensures Kept(cfg, sh, SaveMarker(sh, p, o))
  {
    if o.fault != Dropped {
      var after := Saved(sh, p.conv);
      assert MarkersOk(p.conv, sh.deeds);
      assert Books(cfg, after, 0, 0);
      ToChatKeeps(cfg, after, p.(marked := true));
    }
  }

  lemma ChattedBooks(cfg: Config, sh: Shared, p: Proc)
    requires p.pc == CreatingChat && Good(cfg, sh, p)
    ensures Books(cfg, sh.(accounts := sh.accounts.(chats := sh.accounts.chats + 1)), 0, 1)
  {
  }

  lemma ChattedMayRaise(cfg: Config, sh: Shared, p: Proc)
    requires p.pc == CreatingChat && Good(cfg, sh, p)
    ensures Good(cfg, sh.(accounts := sh.accounts.(chats := sh.accounts.chats + 1)), Raise(p.(chatted := true)))
  {
    ChattedBooks(cfg, sh, p);
  }

  lemma ChattedMaySave(cfg: Config, sh: Shared, p: Proc, chatId: string)
    requires p.pc == CreatingChat && Good(cfg, sh, p)
    ensures Good(cfg, sh.(accounts := sh.accounts.(chats := sh.accounts.chats + 1)),
                 p.(chatted := true, conv := p.conv.(chatId := Some(chatId)), pc := SavingChat))
  {
    var next := p.(chatted := true, conv := p.conv.(chatId := Some(chatId)), pc := SavingChat);
    ChattedBooks(cfg, sh, p);
    assert next.conv.(chatId := None) == p.conv;
  }

  lemma CreateChatKeeps(cfg: Config, sh: Shared, p: Proc, o: Oracle)
    requires p.pc == CreatingChat && Good(cfg, sh, p)
    ensures Kept(cfg, sh, CreateChat(sh, p, o))
  {
    if o.fault == Dropped {
      RaiseKeeps(cfg, sh, p);
    } else if o.fault == AnswerLost {
      ChattedMayRaise(cfg, sh, p);
    } else {
      ChattedMaySave(cfg, sh, p, o.chatId);
    }
  }

  lemma ChatSavedBooks(cfg: Config, sh: Shared, p: Proc)
    requires p.pc == SavingChat && Good(cfg, sh, p)
    ensures Books(cfg, Saved(sh, p.conv), 0, 0)
  {
    assert MarkersOk(p.conv, sh.deeds);
  }

  lemma ChatSavedMayRaise(cfg: Config, sh: Shared, p: Proc)
    requires p.pc == SavingChat && Good(cfg, sh, p)
    ensures Good(cfg, Saved(sh, p.conv), Raise(p.(chatSaved := true)))
  {
    ChatSavedBooks(cfg, sh, p);
  }

  lemma ChatSavedMayLink(cfg: Config, sh: Shared, p: Proc)
    requires p.pc == SavingChat && Good(cfg, sh, p)
    ensures Good(cfg, Saved(sh, p.conv), p.(chatSaved := true, pc := Linking))
  {
    ChatSavedBooks(cfg, sh, p);
  }

  lemma SaveChatKeeps(cfg: Config, sh: Shared, p: Proc, o: Oracle)
    requires p.pc == SavingChat && Good(cfg, sh, p)
    ensures Kept(cfg, sh, SaveChat(sh, p, o))
  {
    if o.fault == Dropped {
      RaiseKeeps(cfg, sh, p);
    } else {
      ChatSavedMayRaise(cfg, sh, p);
      ChatSavedMayLink(cfg, sh, p);
    }
  }

  lemma LinkedKeeps(cfg: Config, sh: Shared, p: Proc, linked: set<(int, string)>, refused: set<(int, string)>)
    requires p.pc == Linking && Good(cfg, sh, p)
    requires sh.deeds.linked <= linked && sh.deeds.refused <= refused
    ensures Good(cfg, sh.(deeds := sh.deeds.(linked := linked, refused := refused)), p)
  {
    var deeds := sh.deeds.(linked := linked, refused := refused);
    PublishedKeepsRecord(cfg, sh.db, sh.flag, sh.now, sh.deeds, deeds);
    assert Books(cfg, sh.(deeds := deeds), 0, 0);
  }

  lemma LinkKeeps(cfg: Config, sh: Shared, p: Proc, o: Oracle)
    requires p.pc == Linking && Good(cfg, sh, p)
    ensures Kept(cfg, sh, Link(sh, p, o))
  {
    var m := Link(sh, p, o);
    LinkedKeeps(cfg, sh, p, m.sh.deeds.linked, m.sh.deeds.refused);
    assert m.sh == sh.(deeds := sh.deeds.(linked := m.sh.deeds.linked, refused := m.sh.deeds.refused));
    if o.fault == Answered {
      assert Connected(p.conv, m.sh.deeds);
      ToFlipKeeps(cfg, m.sh, p);
    } else {
      RaiseKeeps(cfg, m.sh, p);
    }
  }

  /** The flip is earned: the record has its contact, and its link if there is a connector. */
  lemma FlipIsEarned(c: Conversation, d: Conversation, deeds: Deeds, connector: bool)
    requires MarkersOk(c, deeds) && c.phase == Collecting && d == Flipped(c)
    requires c.contactId.Some? && (connector ==> Connected(d, deeds))
    ensures MarkersOk(d, deeds.(flips := deeds.flips + 1, flippedWithConnector := connector))
  {
  }

  lemma FlipKeepsBooks(cfg: Config, sh: Shared, p: Proc, deeds: Deeds)
    requires p.pc == SavingFlip && Good(cfg, sh, p)
    requires deeds == sh.deeds.(flips := sh.deeds.flips + 1, flippedWithConnector := p.connector)
    ensures Books(cfg, Saved(sh, p.conv).(deeds := deeds), 0, 0)
  {
    FlipIsEarned(sh.db.value, p.conv, sh.deeds, p.connector);
    assert RecordOk(cfg, Some(p.conv), sh.flag, sh.now, deeds);
  }

  lemma FlippedIsGood(cfg: Config, sh: Shared, p: Proc, deeds: Deeds)
    requires p.pc == SavingFlip && Good(cfg, sh, p)
    requires deeds == sh.deeds.(flips := sh.deeds.flips + 1, flippedWithConnector := p.connector)
    ensures Good(cfg, Saved(sh, p.conv).(deeds := deeds), p.(pc := SettingFlag))
  {
    FlipKeepsBooks(cfg, sh, p, deeds);
    assert LocalOk(cfg, Saved(sh, p.conv).(deeds := deeds), p.(pc := SettingFlag));
  }

  lemma FlippedMayRaise(cfg: Config, sh: Shared, p: Proc, deeds: Deeds)
    requires p.pc == SavingFlip && Good(cfg, sh, p)
    requires deeds == sh.deeds.(flips := sh.deeds.flips + 1, flippedWithConnector := p.connector)
    ensures Good(cfg, Saved(sh, p.conv).(deeds := deeds), Raise(p))
  {
    FlipKeepsBooks(cfg, sh, p, deeds);
  }

  lemma FlipFreezes(c: Conversation)
    requires c.phase == Collecting
    ensures Frozen(c, Flipped(c))
  {
  }

  lemma SaveFlipKeeps(cfg: Config, sh: Shared, p: Proc, o: Oracle)
    requires p.pc == SavingFlip && Good(cfg, sh, p)
    ensures Kept(cfg, sh, SaveFlip(sh, p, o))
  {
    if o.fault == Dropped {
      RaiseKeeps(cfg, sh, p);
    } else {
      FlippedIsGood(cfg, sh, p, WithFlip(sh.deeds, p.connector));
      FlippedMayRaise(cfg, sh, p, WithFlip(sh.deeds, p.connector));
      FlipFreezes(sh.db.value);
    }
  }

  lemma FlaggedKeeps(cfg: Config, sh: Shared, p: Proc, farewells: nat)
    requires p.pc == SettingFlag && Good(cfg, sh, p) && farewells <= 1
    ensures Good(cfg, sh.(flag := true, deeds := sh.deeds.(farewells := farewells)), Raise(p))
  {
    var deeds := sh.deeds.(farewells := farewells);
    assert MarkersOk(Durable(sh.db), deeds);
    assert Books(cfg, sh.(flag := true, deeds := deeds), 0, 0);
  }

  lemma FlagIs(sh: Shared, p: Proc, o: Oracle)
    requires p.pc == SettingFlag && o.fault != Dropped && sh.deeds.farewells == 0
    ensures var farewells := SetFlag(sh, p, o).sh.deeds.farewells;
            farewells <= 1 && SetFlag(sh, p, o) == Moved(sh.(flag := true, deeds := sh.deeds.(farewells := farewells)), Raise(p))
  {
  }

  lemma SetFlagKeeps(cfg: Config, sh: Shared, p: Proc, o: Oracle)
    requires p.pc == SettingFlag && Good(cfg, sh, p)
    ensures Kept(cfg, sh, SetFlag(sh, p, o))
  {
    if o.fault == Dropped {
      RaiseKeeps(cfg, sh, p);
    } else {
      FlagIs(sh, p, o);
      FlaggedKeeps(cfg, sh, p, SetFlag(sh, p, o).sh.deeds.farewells);
    }
  }

  lemma LeaveKeeps(cfg: Config, sh: Shared, t: Token, p: Proc, o: Oracle)
    requires p.pc == Leaving && Good(cfg, sh, p)
    ensures Kept(cfg, sh, Leave(sh, p, t, o))
  {
  }

  lemma TurnAwaitsKeep(cfg: Config, sh: Shared, t: Token, p: Proc, o: Oracle)
    requires HasAllIds(cfg.mapping.tables) && InSection(p) && Good(cfg, sh, p)
    requires p.pc in {Draining, CheckingBlock, Loading, Silencing, Thinking, Arming, SavingTurn, SavingProgress}
    ensures Kept(cfg, sh, Advance(cfg, sh, t, p, o))
  {
    match p.pc
    case Draining => DrainKeeps(cfg, sh, p, o);
    case CheckingBlock => CheckBlockKeeps(cfg, sh, p, o);
    case Loading => LoadKeeps(cfg, sh, p, o);
    case Silencing => SilenceKeeps(cfg, sh, p, o);
    case Thinking => ThinkKeeps(cfg, sh, p, o);
    case Arming => ArmKeeps(cfg, sh, p);
    case SavingTurn => SaveTurnKeeps(cfg, sh, p, o);
    case SavingProgress => SaveProgressKeeps(cfg, sh, p, o);
  }

  lemma RunAwaitsKeep(cfg: Config, sh: Shared, t: Token, p: Proc, o: Oracle)
    requires HasAllIds(cfg.mapping.tables) && InSection(p) && Good(cfg, sh, p)
    requires p.pc in {Finding, Creating, Noting, ReadingStage, Patching, SavingMarker}
    requires p.pc == Finding && o.fault == Answered ==> ExactSearch(sh.crm, cfg.phone, o.matches)
    ensures Kept(cfg, sh, Advance(cfg, sh, t, p, o))
  {
    match p.pc
    case Finding => FindKeeps(cfg, sh, p, o);
    case Creating => CreateKeeps(cfg, sh, p, o);
    case Noting => PostNoteKeeps(cfg, sh, p, o);
    case ReadingStage => ReadStageKeeps(cfg, sh, p, o);
    case Patching => PatchKeeps(cfg, sh, p, o);
    case SavingMarker => SaveMarkerKeeps(cfg, sh, p, o);
  }

  lemma ChatAwaitsKeep(cfg: Config, sh: Shared, t: Token, p: Proc, o: Oracle)
    requires HasAllIds(cfg.mapping.tables) && InSection(p) && Good(cfg, sh, p)
    requires p.pc in {CreatingChat, SavingChat, Linking}
    ensures Kept(cfg, sh, Advance(cfg, sh, t, p, o))
  {
    match p.pc
    case CreatingChat => CreateChatKeeps(cfg, sh, p, o);
    case SavingChat => SaveChatKeeps(cfg, sh, p, o);
    case Linking => LinkKeeps(cfg, sh, p, o);
  }

  lemma EndAwaitsKeep(cfg: Config, sh: Shared, t: Token, p: Proc, o: Oracle)
    requires HasAllIds(cfg.mapping.tables) && InSection(p) && Good(cfg, sh, p)
    requires p.pc in {SavingFlip, SettingFlag}
    ensures Kept(cfg, sh, Advance(cfg, sh, t, p, o))
  {
    match p.pc
    case SavingFlip => SaveFlipKeeps(cfg, sh, p, o);
    case SettingFlag => SetFlagKeeps(cfg, sh, p, o);
  }

  /** Every await of the lock holder keeps the invariant and undoes nothing. */
  lemma AdvanceKeeps(cfg: Config, sh: Shared, t: Token, p: Proc, o: Oracle)
    requires HasAllIds(cfg.mapping.tables) && InSection(p) && Good(cfg, sh, p)
    requires p.pc == Finding && o.fault == Answered ==> ExactSearch(sh.crm, cfg.phone, o.matches)
    ensures Kept(cfg, sh, Advance(cfg, sh, t, p, o))
  {
    if p.pc in {Draining, CheckingBlock, Loading, Silencing, Thinking, Arming, SavingTurn, SavingProgress} {
      TurnAwaitsKeep(cfg, sh, t, p, o);
    } else if p.pc in {Finding, Creating, Noting, ReadingStage, Patching, SavingMarker} {
      RunAwaitsKeep(cfg, sh, t, p, o);
    } else if p.pc in {CreatingChat, SavingChat, Linking} {
      ChatAwaitsKeep(cfg, sh, t, p, o);
    } else if p.pc in {SavingFlip, SettingFlag} {
      EndAwaitsKeep(cfg, sh, t, p, o);
    } else {
      LeaveKeeps(cfg, sh, t, p, o);
    }
  }
}
