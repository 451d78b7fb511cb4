/** The handoff as the program runs it, call by call on the clients it awaits: whatever the
    calls do, it is a run of the protocol's state machine. */
module HandoffFlow {
  import opened Prelude
  import opened Schemas
  import opened Conversations
  import opened LeadPayload
  import opened Crm
  import opened HandoffRuns
  import opened RetryTransparency
  import opened ProtocolState
  import opened Protocol

  datatype LinkReply = Linked | AlreadyLinked | LinkFailed

  /** `m` is what saving the working copy does, answered by `o`. */
  predicate IsSave(sh: Shared, p: Proc, o: Oracle, m: Moved) {
    && m.sh.db == (if o.fault == Dropped then sh.db else Some(p.conv))
    && m.sh.flag == sh.flag && m.sh.crm == sh.crm
    && (o.fault != Answered ==> m.p.pc == Leaving)
  }

  lemma ProgressSaved(sh: Shared, p: Proc, o: Oracle)
    requires p.pc == SavingProgress
    ensures var m := SaveProgress(sh, p, o); IsSave(sh, p, o, m) && (o.fault == Answered ==> m.p == ToRun(p))
  {
  }

  lemma MarkerSaved(sh: Shared, p: Proc, o: Oracle)
    requires p.pc == SavingMarker
    ensures var m := SaveMarker(sh, p, o); IsSave(sh, p, o, m) && (o.fault == Answered ==> m.p == ToChat(p.(marked := true)))
  {
  }

  lemma ChatSaved(sh: Shared, p: Proc, o: Oracle)
    requires p.pc == SavingChat
    ensures var m := SaveChat(sh, p, o); IsSave(sh, p, o, m) && m.p.conv == p.conv && m.p.pc == if o.fault == Answered then Linking else Leaving
  {
  }

  lemma FlipSaved(sh: Shared, p: Proc, o: Oracle)
    requires p.pc == SavingFlip
    ensures var m := SaveFlip(sh, p, o); IsSave(sh, p, o, m) && m.p.pc == if o.fault == Answered then SettingFlag else Leaving
  {
  }

  lemma FlagSet(sh: Shared, p: Proc, o: Oracle)
    requires p.pc == SettingFlag
    ensures var m := SetFlag(sh, p, o); m.p.pc == Leaving && m.sh.db == sh.db && (o.fault == Answered ==> m.sh.flag)
  {
  }

  lemma ChatLinked(sh: Shared, p: Proc, o: Oracle)
    requires p.pc == Linking && p.conv.contactId.Some? && p.conv.chatId.Some?
    ensures var q := Link(sh, p, o).p;
            if o.fault == Answered then q.pc == SavingFlip && q.conv == Flipped(p.conv) else q.pc == Leaving
  {
  }

  lemma ChatCreated(sh: Shared, p: Proc, o: Oracle)
    requires p.pc == CreatingChat
    ensures var q := CreateChat(sh, p, o).p;
            if o.fault == Answered then q.pc == SavingChat && q.conv == WithChat(p.conv, o.chatId) else q.pc == Leaving
  {
  }

  /** From here on no call fails. */
  ghost predicate Smooth(answers: nat -> Oracle, at: nat) {
    forall k :: k >= at ==> answers(k).fault == Answered
  }

  /** What a process is about does not change while it runs the CRM sequence. */
  predicate SameTask(p: Proc, q: Proc) {
    q.kind == p.kind && q.connector == p.connector && q.reason == p.reason
  }

  /** The note is posted after the search, or after the creation if there was one. */
  function NoteAt(answers: nat -> Oracle, at: nat): nat {
    if Resolve(answers(at).matches).Reuse? then at + 1 else at + 2
  }

  /** How the runner's calls are answered when the machine's awaits are answered by `answers`. */
  function FaultsFrom(answers: nat -> Oracle, at: nat): Faults {
    Faults(answers(at).fault, answers(at + 1).fault, answers(NoteAt(answers, at)).fault, answers(at + 2).fault, answers(at + 3).fault)
  }

  /** A CRM call touches neither the store nor the flag. */
  predicate Quiet(sh: Shared, p: Proc, m: Moved) {
    m.sh.db == sh.db && m.sh.flag == sh.flag && SameTask(p, m.p)
  }

  /** Raising and going on are about the same task and, but for a save, the same conversation. */
  lemma RaiseIsQuiet(p: Proc)
    ensures SameTask(p, Raise(p)) && Raise(p).conv == p.conv && Raise(p).target == p.target
  {
  }

  lemma FindIsQuiet(sh: Shared, p: Proc, o: Oracle)
    requires p.pc == Finding
    ensures Quiet(sh, p, Find(sh, p, o)) && Find(sh, p, o).p.conv == p.conv && Find(sh, p, o).sh == sh
  {
    if o.fault != Answered {
      RaiseIsQuiet(p);
    }
  }

  lemma CreateIsQuiet(cfg: Config, sh: Shared, p: Proc, o: Oracle)
    requires p.pc == Creating
    ensures Quiet(sh, p, Create(cfg, sh, p, o)) && Create(cfg, sh, p, o).p.conv == p.conv
  {
    if o.fault != Answered || p.resolution.Reuse? {
      RaiseIsQuiet(p);
    }
  }

  lemma NoteIsQuiet(cfg: Config, sh: Shared, p: Proc, o: Oracle)
    requires p.pc == Noting
    ensures var m := PostNote(cfg, sh, p, o);
            Quiet(sh, p, m) && m.p.conv == p.conv && m.p.target == p.target && m.sh.crm == sh.crm
  {
    if o.fault == Dropped {
      RaiseIsQuiet(p);
    } else if o.fault == AnswerLost {
      RaiseIsQuiet(p.(noted := true));
    }
  }

  lemma StageIsQuiet(cfg: Config, sh: Shared, p: Proc, o: Oracle)
    requires p.pc == ReadingStage
    ensures var m := ReadStage(cfg, sh, p, o);
            Quiet(sh, p, m) && m.p.conv == p.conv && m.p.target == p.target && m.sh == sh
  {
  }

  lemma PatchIsQuiet(cfg: Config, sh: Shared, p: Proc, o: Oracle)
    requires p.pc == Patching && HasAllIds(cfg.mapping.tables)
    ensures Quiet(sh, p, Patch(cfg, sh, p, o))
  {
  }

  function Resolved(cfg: Config, sh: Shared, p: Proc, find: Oracle, create: Oracle): Moved
    requires p.pc == Finding
  {
    var m := Find(sh, p, find);
    if m.p.pc == Creating then Create(cfg, m.sh, m.p, create) else m
  }

  lemma ResolvedIsQuiet(cfg: Config, sh: Shared, p: Proc, find: Oracle, create: Oracle)
    requires p.pc == Finding
    ensures Quiet(sh, p, Resolved(cfg, sh, p, find, create)) && Resolved(cfg, sh, p, find, create).p.conv == p.conv
  {
    FindIsQuiet(sh, p, find);
    var m := Find(sh, p, find);
    if m.p.pc == Creating {
      CreateIsQuiet(cfg, m.sh, m.p, create);
    }
  }

  lemma FindGives(sh: Shared, p: Proc, o: Oracle)
    requires p.pc == Finding
    ensures var q, r := Find(sh, p, o).p, Resolve(o.matches);
            if o.fault != Answered then q.pc == Leaving
            else if r.Reuse? then q.pc == Noting && q.target == TargetOf(sh.crm, r)
            else q.pc == Creating && q.resolution == r
  {
  }

  lemma CreateGives(cfg: Config, sh: Shared, p: Proc, o: Oracle)
    requires p.pc == Creating && !p.resolution.Reuse?
    ensures var m := Create(cfg, sh, p, o);
            var r := CreateIf(Server(sh.crm, []), Created(cfg.mapping, sh.crm, cfg.phone, p.resolution), TargetOf(sh.crm, p.resolution), o.fault);
            && Server(m.sh.crm, []) == r.server
            && (if r.target.None? then m.p.pc == Leaving else m.p.pc == Noting && m.p.target == r.target.value)
  {
    if o.fault == Dropped {
      assert Create(cfg, sh, p, o) == Moved(sh, Raise(p));
    } else {
      assert Create(cfg, sh, p, o).sh == CreateApplied(cfg, sh, p.resolution);
    }
  }

  /** The machine's awaits up to a target are the runner's search and creation. */
  lemma ResolveAgrees(cfg: Config, sh: Shared, p: Proc, find: Oracle, create: Oracle, faults: Faults)
    requires p.pc == Finding && faults.find == find.fault && faults.create == create.fault
    ensures var m := Resolved(cfg, sh, p, find, create);
            var r := ResolveLead(cfg.mapping, Server(sh.crm, []), cfg.phone, find.matches, faults);
            && Server(m.sh.crm, []) == r.server
            && (if r.target.None? then m.p.pc == Leaving else m.p.pc == Noting && m.p.target == r.target.value)
  {
    FindIsQuiet(sh, p, find);
    FindGives(sh, p, find);
    var m := Find(sh, p, find);
    if m.p.pc == Creating {
      CreateGives(cfg, sh, m.p, create);
    }
  }

  function Noted(cfg: Config, sh: Shared, p: Proc, note: Oracle, read: Oracle): Moved
    requires p.pc == Noting
  {
    var m := PostNote(cfg, sh, p, note);
    if m.p.pc == ReadingStage then ReadStage(cfg, m.sh, m.p, read) else m
  }

  lemma NotedIsQuiet(cfg: Config, sh: Shared, p: Proc, note: Oracle, read: Oracle)
    requires p.pc == Noting
    ensures var m := Noted(cfg, sh, p, note, read);
            Quiet(sh, p, m) && m.p.conv == p.conv && m.p.target == p.target && m.sh.crm == sh.crm
  {
    NoteIsQuiet(cfg, sh, p, note);
    var m := PostNote(cfg, sh, p, note);
    if m.p.pc == ReadingStage {
      StageIsQuiet(cfg, m.sh, m.p, read);
    }
  }

  /** The note, and the decision about the stage. */
  lemma NoteAgrees(cfg: Config, sh: Shared, p: Proc, note: Oracle, read: Oracle)
    requires p.pc == Noting && p.target.lead in sh.crm.leads
    ensures var m := Noted(cfg, sh, p, note, read);
            if note.fault != Answered || (!p.target.isNew && read.fault != Answered) then m.p.pc == Leaving
            else m.p.pc == Patching && m.p.stage == StageToSet(cfg.mapping, sh.crm, p.target, p.reason)
  {
    NoteIsQuiet(cfg, sh, p, note);
  }

  function PublishedBy(cfg: Config, sh: Shared, p: Proc, note: Oracle, read: Oracle, patch: Oracle): Moved
    requires p.pc == Noting && HasAllIds(cfg.mapping.tables)
  {
    var m := Noted(cfg, sh, p, note, read);
    if m.p.pc == Patching then Patch(cfg, m.sh, m.p, patch) else m
  }

  lemma PublishedIsQuiet(cfg: Config, sh: Shared, p: Proc, note: Oracle, read: Oracle, patch: Oracle)
    requires p.pc == Noting && HasAllIds(cfg.mapping.tables)
    ensures Quiet(sh, p, PublishedBy(cfg, sh, p, note, read, patch))
  {
    NotedIsQuiet(cfg, sh, p, note, read);
    var m := Noted(cfg, sh, p, note, read);
    if m.p.pc == Patching {
      PatchIsQuiet(cfg, m.sh, m.p, patch);
    }
  }

  lemma PatchAgrees(cfg: Config, sh: Shared, p: Proc, patch: Oracle, request: Request)
    requires p.pc == Patching && p.target.lead in sh.crm.leads && HasAllIds(cfg.mapping.tables)
    requires request.reason == p.reason && request.slots == p.conv.slots
    requires p.stage == StageToSet(cfg.mapping, sh.crm, p.target, p.reason)
    ensures var m := Patch(cfg, sh, p, patch);
            && m.sh.crm == (if patch.fault == Dropped then sh.crm else PatchedFor(cfg.mapping, sh.crm, p.target, request))
            && (if patch.fault == Answered
                then m.p.pc == SavingMarker && m.p.conv == WithIds(p.conv, RunResult(p.target.lead, p.target.contact))
                else m.p.pc == Leaving && m.p.conv == p.conv)
  {
  }

  /** The machine's awaits from the note on are the runner's publication. */
  lemma PublishAgrees(cfg: Config, sh: Shared, p: Proc, note: Oracle, read: Oracle, patch: Oracle, faults: Faults, request: Request)
    requires p.pc == Noting && p.target.lead in sh.crm.leads && HasAllIds(cfg.mapping.tables)
    requires faults.note == note.fault && (!p.target.isNew ==> faults.read == read.fault) && faults.patch == patch.fault
    requires request.reason == p.reason && request.slots == p.conv.slots
    ensures var m := PublishedBy(cfg, sh, p, note, read, patch);
            var ran := Publish(cfg.mapping, Server(sh.crm, []), p.target, request, faults);
            && m.sh.crm == ran.server.crm
            && (match ran.result
                case None => m.p.pc == Leaving && m.p.conv == p.conv
                case Some(r) => m.p.pc == SavingMarker && m.p.conv == WithIds(p.conv, r))
  {
    NotedIsQuiet(cfg, sh, p, note, read);
    NoteAgrees(cfg, sh, p, note, read);
    var m := Noted(cfg, sh, p, note, read);
    if m.p.pc == Patching {
      PatchAgrees(cfg, m.sh, m.p, patch, request);
    }
  }

  function RunBy(cfg: Config, sh: Shared, p: Proc, find: Oracle, create: Oracle, note: Oracle, read: Oracle, patch: Oracle): Moved
    requires p.pc == Finding && HasAllIds(cfg.mapping.tables)
  {
    var m := Resolved(cfg, sh, p, find, create);
    if m.p.pc == Noting then PublishedBy(cfg, m.sh, m.p, note, read, patch) else m
  }

  lemma RunIsQuiet(cfg: Config, sh: Shared, p: Proc, find: Oracle, create: Oracle, note: Oracle, read: Oracle, patch: Oracle)
    requires p.pc == Finding && HasAllIds(cfg.mapping.tables)
    ensures Quiet(sh, p, RunBy(cfg, sh, p, find, create, note, read, patch))
  {
    ResolvedIsQuiet(cfg, sh, p, find, create);
    var m := Resolved(cfg, sh, p, find, create);
    if m.p.pc == Noting {
      PublishedIsQuiet(cfg, m.sh, m.p, note, read, patch);
    }
  }

  /** A run stops without a target, and publishes to it otherwise. */
  lemma RunUnfolds(mapping: Mapping, server: Server, request: Request, matches: seq<Match>, faults: Faults)
    requires HasAllIds(mapping.tables) && ExactSearch(server.crm, request.phone, matches)
    ensures var r := ResolveLead(mapping, server, request.phone, matches, faults);
            var ran := Run(mapping, server, request, matches, faults);
            && (r.target.None? ==> ran == Ran(r.server, None))
            && (r.target.Some? ==> r.target.value.lead in r.server.crm.leads
                                   && ran == Publish(mapping, r.server, r.target.value, request, faults))
  {
    ResolveIsExact(server.crm, request.phone, matches);
  }

  /** The machine's awaits from the search to the PATCH are one run of the handoff runner. */
  lemma RunAgrees(cfg: Config, sh: Shared, p: Proc, find: Oracle, create: Oracle, note: Oracle, read: Oracle, patch: Oracle, request: Request)
    requires p.pc == Finding && HasAllIds(cfg.mapping.tables)
    requires request.phone == cfg.phone && request.reason == p.reason && request.slots == p.conv.slots
    requires ExactSearch(sh.crm, cfg.phone, find.matches)
    ensures var m := RunBy(cfg, sh, p, find, create, note, read, patch);
            var ran := Run(cfg.mapping, Server(sh.crm, []), request, find.matches,
                           Faults(find.fault, create.fault, note.fault, read.fault, patch.fault));
            && m.sh.crm == ran.server.crm
            && (match ran.result
                case None => m.p.pc == Leaving && m.p.conv == p.conv
                case Some(r) => m.p.pc == SavingMarker && m.p.conv == WithIds(p.conv, r))
  {
    var faults := Faults(find.fault, create.fault, note.fault, read.fault, patch.fault);
    RunUnfolds(cfg.mapping, Server(sh.crm, []), request, find.matches, faults);
    ResolvedIsQuiet(cfg, sh, p, find, create);
    ResolveAgrees(cfg, sh, p, find, create, faults);
    var m := Resolved(cfg, sh, p, find, create);
    if m.p.pc == Noting {
      PublishAgrees(cfg, m.sh, m.p, note, read, patch, faults, request);
    }
  }

  /** A run gives up only when a call fails. */
  lemma SmoothRunSucceeds(mapping: Mapping, crm: Crm, request: Request, found: seq<Match>, answers: nat -> Oracle, at: nat)
    requires HasAllIds(mapping.tables) && ExactSearch(crm, request.phone, found)
    requires Smooth(answers, at)
    ensures Run(mapping, Server(crm, []), request, found, FaultsFrom(answers, at)).result.Some?
  {
    RunUnfolds(mapping, Server(crm, []), request, found, FaultsFrom(answers, at));
  }

  /** The CRM sequence of a process, as its awaits are answered from `at` on. */
  function RunFrom(cfg: Config, sh: Shared, p: Proc, answers: nat -> Oracle, at: nat): Moved
    requires p.pc == Finding && HasAllIds(cfg.mapping.tables)
  {
    RunBy(cfg, sh, p, answers(at), answers(at + 1), answers(NoteAt(answers, at)), answers(at + 2), answers(at + 3))
  }

  /** What it comes to is what the runner returns, and nothing else has changed. */
  lemma RunGives(cfg: Config, sh: Shared, p: Proc, answers: nat -> Oracle, at: nat, request: Request)
    requires p.pc == Finding && HasAllIds(cfg.mapping.tables)
    requires request.phone == cfg.phone && request.reason == p.reason && request.slots == p.conv.slots
    requires ExactSearch(sh.crm, cfg.phone, answers(at).matches)
    ensures var m := RunFrom(cfg, sh, p, answers, at);
            var ran := Run(cfg.mapping, Server(sh.crm, []), request, answers(at).matches, FaultsFrom(answers, at));
            && Quiet(sh, p, m) && m.sh.crm == ran.server.crm
            && (match ran.result
                case None => m.p.pc == Leaving && !Smooth(answers, at)
                case Some(r) => m.p.pc == SavingMarker && m.p.conv == WithIds(p.conv, r))
  {
    var find, create, note, read, patch := answers(at), answers(at + 1), answers(NoteAt(answers, at)), answers(at + 2), answers(at + 3);
    RunAgrees(cfg, sh, p, find, create, note, read, patch, request);
    RunIsQuiet(cfg, sh, p, find, create, note, read, patch);
    if Smooth(answers, at) {
      SmoothRunSucceeds(cfg.mapping, sh.crm, request, find.matches, answers, at);
    }
  }

  /** Creating the chat and saving its id, when there is none. */
  function EnsureChatBy(sh: Shared, p: Proc, answers: nat -> Oracle, at: nat): Moved {
    if p.pc != CreatingChat then Moved(sh, p)
    else
      var created := CreateChat(sh, p, answers(at));
      if created.p.pc == SavingChat then SaveChat(created.sh, created.p, answers(at + 1)) else created
  }

  lemma EnsureChatIs(sh: Shared, p: Proc, answers: nat -> Oracle, at: nat, created: Moved)
    requires p.pc == CreatingChat && created == CreateChat(sh, p, answers(at))
    ensures created.p.pc != SavingChat ==> EnsureChatBy(sh, p, answers, at) == created
    ensures created.p.pc == SavingChat ==> EnsureChatBy(sh, p, answers, at) == SaveChat(created.sh, created.p, answers(at + 1))
  {
  }

  function LinkFrom(m: Moved, answers: nat -> Oracle, at: nat): Moved {
    if m.p.pc == Linking then Link(m.sh, m.p, answers(at)) else m
  }

  /** The chat half: a chat, then its link. */
  function ChatBy(sh: Shared, p: Proc, answers: nat -> Oracle, at: nat): Moved {
    LinkFrom(EnsureChatBy(sh, p, answers, at), answers, if p.pc == CreatingChat then at + 2 else at)
  }

  lemma ChatByIs(sh: Shared, p: Proc, answers: nat -> Oracle, at: nat, ensured: Moved, next: nat)
    requires ensured == EnsureChatBy(sh, p, answers, at) && next == if p.pc == CreatingChat then at + 2 else at
    ensures ensured.p.pc != Linking ==> ChatBy(sh, p, answers, at) == ensured
    ensures ensured.p.pc == Linking ==> ChatBy(sh, p, answers, at) == Link(ensured.sh, ensured.p, answers(next))
  {
  }

  /** How many awaits the chat half takes when none fails. */
  function ChatAwaits(p: Proc): nat {
    if p.pc == CreatingChat then 3 else if p.pc == Linking then 1 else 0
  }

  /** The point of no return, and the flag. */
  function FlipBy(sh: Shared, p: Proc, answers: nat -> Oracle, at: nat): Moved
    requires p.pc == SavingFlip
  {
    var flipped := SaveFlip(sh, p, answers(at));
    if flipped.p.pc == SettingFlag then SetFlag(flipped.sh, flipped.p, answers(at + 1)) else flipped
  }

  /** The CRM half: the runner's calls, then the save of the ids. */
  function MarkBy(cfg: Config, sh: Shared, p: Proc, answers: nat -> Oracle, at: nat): Moved
    requires p.pc == Finding && HasAllIds(cfg.mapping.tables)
  {
    var ran := RunFrom(cfg, sh, p, answers, at);
    if ran.p.pc == SavingMarker then SaveMarker(ran.sh, ran.p, answers(at + 4)) else ran
  }

  function FlipFrom(m: Moved, answers: nat -> Oracle, at: nat): Moved {
    if m.p.pc == SavingFlip then FlipBy(m.sh, m.p, answers, at) else m
  }

  function FinishBy(sh: Shared, p: Proc, answers: nat -> Oracle, at: nat): Moved {
    FlipFrom(ChatBy(sh, p, answers, at), answers, at + ChatAwaits(p))
  }

  /** A whole handoff from the CRM half on. */
  function HandoffBy(cfg: Config, sh: Shared, p: Proc, answers: nat -> Oracle, at: nat): Moved
    requires HasAllIds(cfg.mapping.tables)
  {
    if p.pc != Finding then FinishBy(sh, p, answers, at)
    else
      var marked := MarkBy(cfg, sh, p, answers, at);
      if marked.p.pc == Leaving then marked else FinishBy(marked.sh, marked.p, answers, at + 5)
  }

  /** The handoff that ends a turn. */
  function TurnHandoffBy(cfg: Config, sh: Shared, p: Proc, answers: nat -> Oracle, at: nat): Moved
    requires p.pc == SavingProgress && HasAllIds(cfg.mapping.tables)
  {
    var saved := SaveProgress(sh, p, answers(at));
    if saved.p.pc == Leaving then saved else HandoffBy(cfg, saved.sh, saved.p, answers, at + 1)
  }

  /** At most one note more, with the reason and what was given up on, and exactly one when it is
      known to which lead. */
  predicate Posts(before: seq<PostedNote>, after: seq<PostedNote>, reason: HandoffReason, pending: seq<SlotName>, lead: Option<int>) {
    match lead
    case Some(l) => after == before + [PostedNote(l, reason, pending)]
    case None =>
      after == before
      || (|after| == |before| + 1 && before <= after && after[|before|].reason == reason && after[|before|].pending == pending)
  }

  function LeadOf(result: Option<RunResult>): Option<int> {
    if result.Some? then Some(result.value.lead) else None
  }

  lemma PostedOn(before: seq<PostedNote>, posted: seq<PostedNote>, reason: HandoffReason, pending: seq<SlotName>, lead: Option<int>)
    requires Posts([], posted, reason, pending, lead)
    ensures Posts(before, before + posted, reason, pending, lead)
  {
    if posted == [] {
      assert before + posted == before;
    }
  }

  lemma RunPosts(mapping: Mapping, crm: Crm, request: Request, found: seq<Match>, faults: Faults)
    requires HasAllIds(mapping.tables) && ExactSearch(crm, request.phone, found)
    ensures var ran := Run(mapping, Server(crm, []), request, found, faults);
            Posts([], ran.server.notes, request.reason, request.pending, LeadOf(ran.result))
  {
    ResolveIsExact(crm, request.phone, found);
    AttemptOutcome(mapping, Server(crm, []), request, Attempt(found, faults), Resolve(found));
  }

  /** The lead on record is one of the phone's, and the contact its own. */
  predicate OwnLead(crm: Crm, phone: string, lead: Option<int>, contact: Option<int>) {
    lead.Some? && LeadOfPhone(crm, phone, lead.value) && contact == Some(crm.leads[lead.value].contact)
  }

  function ContactOf(result: Option<RunResult>): Option<int> {
    if result.Some? then Some(result.value.contact) else None
  }

  lemma RunFindsOwnLead(mapping: Mapping, crm: Crm, request: Request, found: seq<Match>, faults: Faults)
    requires HasAllIds(mapping.tables) && ExactSearch(crm, request.phone, found)
    ensures var ran := Run(mapping, Server(crm, []), request, found, faults);
            ran.result.Some? ==> OwnLead(ran.server.crm, request.phone, LeadOf(ran.result), ContactOf(ran.result))
  {
    ResolveIsExact(crm, request.phone, found);
    AttemptOutcome(mapping, Server(crm, []), request, Attempt(found, faults), Resolve(found));
  }

  /** One run of the runner on a CRM. */
  method RunOnce(mapping: Mapping, crm: Crm, faults: Faults, found: seq<Match>, request: Request)
    returns (after: Crm, posted: seq<PostedNote>, result: Option<RunResult>)
    requires ExactSearch(crm, request.phone, found) && HasAllIds(mapping.tables)
    ensures var ran := Run(mapping, Server(crm, []), request, found, faults); after == ran.server.crm && result == ran.result
    ensures Posts([], posted, request.reason, request.pending, LeadOf(result))
    ensures result.Some? ==> OwnLead(after, request.phone, LeadOf(result), ContactOf(result))
  {
    var client := new CrmClient(Server(crm, []), faults, found);
    var runner := new HandoffRunner(client, mapping);
    result := runner.Execute(request);
    after, posted := client.server.crm, client.server.notes;
    RunPosts(mapping, crm, request, found, faults);
    RunFindsOwnLead(mapping, crm, request, found, faults);
  }

  /** The store, the CRM, the chat connector and the Redis flag, as one process sees them.
      `answers` says how each await is answered; the ghost fields follow the state machine. */
  class Services {
    const cfg: Config
    const answers: nat -> Oracle
    var at: nat
    var db: Option<Conversation>
    var flag: bool
    var crm: Crm
    var notes: seq<PostedNote>
    ghost var sh: Shared
    ghost var p: Proc

    ghost predicate Valid()
      reads this
    {
      db == sh.db && flag == sh.flag && crm == sh.crm
    }

    constructor (cfg: Config, answers: nat -> Oracle, db: Option<Conversation>, flag: bool, crm: Crm, ghost sh: Shared, ghost p: Proc)
      requires db == sh.db && flag == sh.flag && crm == sh.crm
      ensures Valid() && this.cfg == cfg && this.answers == answers && at == 0 && notes == [] && this.sh == sh && this.p == p
    {
      this.cfg, this.answers, this.at, this.db, this.flag, this.crm, this.notes := cfg, answers, 0, db, flag, crm, [];
      this.sh, this.p := sh, p;
    }

    /** A save; `next` is the machine's view of it. */
    method Save(state: ConversationState, ghost next: Moved) returns (ok: bool)
      requires Valid() && state.Snapshot() == p.conv && IsSave(sh, p, answers(at), next)
      modifies this
      ensures Valid() && at == old(at) + 1 && notes == old(notes) && crm == old(crm) && Moved(sh, p) == next
      ensures ok <==> answers(old(at)).fault == Answered
      ensures ok ==> db == Some(state.Snapshot())
    {
      var o := answers(at);
      at := at + 1;
      if o.fault != Dropped {
        db := Some(state.Snapshot());
      }
      ok := o.fault == Answered;
      sh, p := next.sh, next.p;
    }

    method CreateChat() returns (chatId: Option<string>)
      requires Valid() && p.pc == CreatingChat
      modifies this
      ensures Valid() && at == old(at) + 1 && notes == old(notes) && crm == old(crm)
      ensures Moved(sh, p) == Protocol.CreateChat(old(sh), old(p), answers(old(at)))
      ensures chatId == if answers(old(at)).fault == Answered then Some(answers(old(at)).chatId) else None
      ensures if chatId.Some? then p.pc == SavingChat && p.conv == WithChat(old(p).conv, chatId.value) else p.pc == Leaving
    {
      var o := answers(at);
      ChatCreated(sh, p, o);
      at := at + 1;
      chatId := if o.fault == Answered then Some(o.chatId) else None;
      ghost var m := Protocol.CreateChat(sh, p, o);
      sh, p := m.sh, m.p;
    }

    method LinkChat(contact: int, chatId: string) returns (reply: LinkReply)
      requires Valid() && p.pc == Linking && p.conv.contactId == Some(contact) && p.conv.chatId == Some(chatId)
      modifies this
      ensures Valid() && at == old(at) + 1 && notes == old(notes) && crm == old(crm)
      ensures Moved(sh, p) == Link(old(sh), old(p), answers(old(at)))
      ensures reply == if answers(old(at)).fault != Answered then LinkFailed
                       else if answers(old(at)).alreadyLinked then AlreadyLinked else Linked
      ensures if reply != LinkFailed then p.pc == SavingFlip && p.conv == Flipped(old(p).conv) else p.pc == Leaving
    {
      var o := answers(at);
      ChatLinked(sh, p, o);
      at := at + 1;
      reply := if o.fault != Answered then LinkFailed else if o.alreadyLinked then AlreadyLinked else Linked;
      ghost var m := Link(sh, p, o);
      sh, p := m.sh, m.p;
    }

    method SetHandoff() returns (ok: bool)
      requires Valid() && p.pc == SettingFlag
      modifies this
      ensures Valid() && at == old(at) + 1 && notes == old(notes) && crm == old(crm)
      ensures Moved(sh, p) == SetFlag(old(sh), old(p), answers(old(at)))
      ensures ok <==> answers(old(at)).fault == Answered
    {
      var o := answers(at);
      at := at + 1;
      if o.fault != Dropped {
        flag := true;
      }
      ok := o.fault == Answered;
      ghost var m := SetFlag(sh, p, o);
      sh, p := m.sh, m.p;
    }

    /** The CRM sequence, through the handoff runner. */
    method RunHandoff(reason: HandoffReason, state: ConversationState, pending: seq<SlotName>) returns (result: Option<RunResult>)
      requires Valid() && p.pc == Finding && p.conv == state.Snapshot() && p.reason == reason
      requires HasAllIds(cfg.mapping.tables) && ExactSearch(crm, cfg.phone, answers(at).matches)
      modifies this
      ensures Valid() && at == old(at) + 4 && SameTask(old(p), p)
      ensures Moved(sh, p) == RunFrom(cfg, old(sh), old(p), answers, old(at))
      ensures match result
              case None => p.pc == Leaving && !Smooth(answers, old(at))
              case Some(r) => p.pc == SavingMarker && p.conv == WithIds(old(p).conv, r)
      ensures Posts(old(notes), notes, reason, pending, LeadOf(result))
      ensures result.Some? ==> OwnLead(crm, cfg.phone, LeadOf(result), ContactOf(result))
    {
      var request := Request(reason, cfg.phone, state.slots, pending);
      ghost var m := RunFrom(cfg, sh, p, answers, at);
      RunGives(cfg, sh, p, answers, at, request);
      var posted: seq<PostedNote>;
      crm, posted, result := RunOnce(cfg.mapping, crm, FaultsFrom(answers, at), answers(at).matches, request);
      PostedOn(notes, posted, reason, pending, LeadOf(result));
      notes := notes + posted;
      at := at + 4;
      sh, p := m.sh, m.p;
    }
  }
}
