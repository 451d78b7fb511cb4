/** The handoff protocol for one sender, await by await. Debounced flushes and inactivity
    sweeps contend for the sender's TTL lock; whoever holds it loads the durable record, runs
    a turn or a silent handoff, and saves between the external calls. Any await may raise,
    before or after its effect, and any process may die anywhere. */
module Protocol {
  import opened Prelude
  import opened Conversations
  import opened TurnLogic
  import opened TurnInvariants
  import opened LeadPayload
  import opened Crm
  import opened HandoffRuns
  import opened RetryTransparency
  import opened Leases
  import opened ProtocolState

  // ---- What each await does ----

  function Raise(p: Proc): (q: Proc)
    ensures Follows(p, q)
  {
    p.(pc := Leaving)
  }

  function Saved(sh: Shared, c: Conversation): (after: Shared)
    ensures Unmoved(sh, after) && after.db == Some(c)
  {
    sh.(db := Some(c))
  }

  /** After a call: on to `next`, or raise when the answer was lost. */
  function Continue(o: Oracle, p: Proc, next: Proc): (q: Proc)
    ensures Follows(p, next) ==> Follows(p, q)
  {
    if o.fault == Answered then next else Raise(p)
  }

  function NoteApplied(sh: Shared): (after: Shared)
    ensures Unmoved(sh, after) && after.db == sh.db
  {
    sh.(accounts := sh.accounts.(notes := sh.accounts.notes + 1))
  }

  function ChatApplied(sh: Shared): (after: Shared)
    ensures Unmoved(sh, after) && after.db == sh.db
  {
    sh.(accounts := sh.accounts.(chats := sh.accounts.chats + 1))
  }

  function CreateApplied(cfg: Config, sh: Shared, r: Resolution): (after: Shared)
    ensures Unmoved(sh, after) && after.db == sh.db
  {
    sh.(crm := Created(cfg.mapping, sh.crm, cfg.phone, r),
        created := Creations(sh.created.leads + 1, sh.created.contacts + if r.CreateBoth? then 1 else 0))
  }

  function PatchApplied(cfg: Config, sh: Shared, p: Proc): (after: Shared)
    requires HasAllIds(cfg.mapping.tables) && p.target.lead in sh.crm.leads
    ensures Unmoved(sh, after) && after.db == sh.db && after.deeds == sh.deeds
  {
    sh.(crm := Patched(sh.crm, p.target.lead, CustomFields(cfg.mapping.tables, p.conv.slots), p.stage))
  }

  function DeedDone(sh: Shared, deeds: Deeds): (after: Shared)
    requires deeds.armedAt == sh.deeds.armedAt
    ensures Unmoved(sh, after) && after.db == sh.db
  {
    sh.(deeds := deeds)
  }

  function FlagApplied(sh: Shared): (after: Shared)
    ensures Unmoved(sh, after) && after.db == sh.db && after.deeds == sh.deeds
  {
    sh.(flag := true)
  }

  function Flipped(c: Conversation): (d: Conversation)
    ensures SameProgress(c, d)
  {
    c.(phase := HandedOff, lastAsked := None, deadline := None)
  }

  function WithIds(c: Conversation, r: RunResult): (d: Conversation)
    ensures SameProgress(c, d)
  {
    c.(leadId := Some(r.lead), contactId := Some(r.contact))
  }

  function WithChat(c: Conversation, chatId: string): (d: Conversation)
    ensures SameProgress(c, d)
  {
    c.(chatId := Some(chatId))
  }

  /** The chat half of a handoff starts with whatever is not done yet. */
  function ToChat(p: Proc): (q: Proc)
    ensures Follows(p, q) && HandingOff(q.pc) && q.pc != Patching
  {
    if !p.connector then ToFlip(p)
    else if p.conv.chatId.None? then p.(pc := CreatingChat)
    else p.(pc := Linking)
  }

  function ToFlip(p: Proc): (q: Proc)
    ensures Follows(p, q) && HandingOff(q.pc) && q.pc != Patching
  {
    p.(conv := Flipped(p.conv), pc := SavingFlip)
  }

  /** The CRM half runs only while no contact has been recorded. */
  function ToRun(p: Proc): (q: Proc)
    ensures Follows(p, q) && HandingOff(q.pc) && q.pc != Patching
  {
    if p.conv.contactId.None? then p.(pc := Finding) else ToChat(p)
  }

  function BufferTaken(sh: Shared): (after: Shared)
    ensures after.now == sh.now && after.lock == sh.lock && after.db == sh.db && after.deeds == sh.deeds
  {
    sh.(buffer := [], traffic := sh.traffic.(batches := sh.traffic.batches + [sh.buffer]))
  }

  function Holder(p: Proc, batch: int): (q: Proc)
    ensures q.kind == p.kind && q.expires == p.expires && q.conv == p.conv
  {
    p.(pc := CheckingBlock, batch := batch)
  }

  function Drain(sh: Shared, p: Proc, o: Oracle): (m: Moved)
    requires p.pc == Draining
    ensures Framed(sh, p, m)
  {
    if o.fault == Dropped || sh.buffer == [] then Moved(sh, Raise(p))
    else Moved(BufferTaken(sh), if o.fault == Answered then Holder(p, |sh.traffic.batches|) else Raise(p))
  }

  function CheckBlock(sh: Shared, p: Proc, o: Oracle): (m: Moved)
    requires p.pc == CheckingBlock
    ensures Framed(sh, p, m)
  {
    if o.fault != Answered || o.blocked then Moved(sh, Raise(p))
    else Moved(sh.(traffic := sh.traffic.(handled := sh.traffic.handled + [p.batch])), p.(pc := Loading))
  }

  function Loaded(sh: Shared, p: Proc): (q: Proc)
    ensures q.kind == p.kind && q.expires == p.expires && q.conv == Durable(sh.db)
  {
    p.(conv := Durable(sh.db), armedAt := sh.deeds.armedAt)
  }

  function AfterLoad(sh: Shared, p: Proc): (q: Proc)
    ensures q.kind == p.kind && q.expires == p.expires && SameProgress(Durable(sh.db), q.conv)
    ensures if p.kind.Flush? then q.reason == p.reason && (q.pc == Silencing || q.pc == Thinking)
            else q.reason == NoResponse && HandingOff(q.pc) && q.pc != Patching
  {
    if p.kind.Flush? then Loaded(sh, p).(pc := if Durable(sh.db).phase == HandedOff then Silencing else Thinking)
    else ToRun(Loaded(sh, p).(reason := NoResponse))
  }

  /** A sweep re-checks that the conversation is due. */
  function Load(sh: Shared, p: Proc, o: Oracle): (m: Moved)
    requires p.pc == Loading
    ensures Framed(sh, p, m)
  {
    var c := Durable(sh.db);
    if o.fault != Answered then Moved(sh, Raise(p))
    else if p.kind.Sweep? && (c.phase == HandedOff || c.deadline.None? || c.deadline.value > p.kind.asOf) then Moved(sh, Raise(p))
    else
      var m := Moved(sh, AfterLoad(sh, p));
      LoadFramed(sh, p, m);
      m
  }

  function Silence(sh: Shared, p: Proc, o: Oracle): (m: Moved)
    requires p.pc == Silencing
    ensures Framed(sh, p, m)
  {
    Moved(if o.fault == Dropped then sh else sh.(flag := true), Raise(p))
  }

  function Decided(p: Proc, t: Turned): (q: Proc)
    ensures q.kind == p.kind && q.expires == p.expires && (q.pc == SavingProgress || q.pc == Arming)
  {
    if t.decision.HandOff? then p.(conv := t.conv, reason := t.decision.reason, pc := SavingProgress)
    else p.(conv := t.conv, pc := Arming)
  }

  function Think(cfg: Config, sh: Shared, p: Proc, o: Oracle): (m: Moved)
    requires p.pc == Thinking
    ensures Framed(sh, p, m)
  {
    if o.fault != Answered then Moved(sh, Raise(p))
    else
      var m := Moved(sh, Decided(p, TakeTurn(cfg.catalogue, p.conv, o.input)));
      TurnFramed(sh, p, m);
      m
  }

  function Arm(cfg: Config, sh: Shared, p: Proc): (m: Moved)
    requires p.pc == Arming
    ensures Framed(sh, p, m)
  {
    var armed := Armed(p.conv, sh.now, cfg.silence);
    Moved(sh, p.(conv := armed, pc := SavingTurn,
                 armedAt := if NameOf(p.conv.slots).Some? then Some(sh.now) else p.armedAt))
  }

  function SaveTurn(sh: Shared, p: Proc, o: Oracle): (m: Moved)
    requires p.pc == SavingTurn
    ensures Framed(sh, p, m)
  {
    Moved(if o.fault == Dropped then sh else Saved(sh, p.conv).(deeds := sh.deeds.(armedAt := p.armedAt)), Raise(p))
  }

  function SaveProgress(sh: Shared, p: Proc, o: Oracle): (m: Moved)
    requires p.pc == SavingProgress
    ensures Framed(sh, p, m)
  {
    var m := if o.fault == Dropped then Moved(sh, Raise(p)) else Moved(Saved(sh, p.conv), Continue(o, p, ToRun(p)));
    HandoffFramed(sh, p, m);
    m
  }

  function Find(sh: Shared, p: Proc, o: Oracle): (m: Moved)
    requires p.pc == Finding
    ensures Framed(sh, p, m)
  {
    var r := Resolve(o.matches);
    var m :=
      if o.fault != Answered then Moved(sh, Raise(p))
      else if r.Reuse? then Moved(sh, p.(resolution := r, target := TargetOf(sh.crm, r), pc := Noting))
      else Moved(sh, p.(resolution := r, pc := Creating));
    HandoffFramed(sh, p, m);
    m
  }

  function Create(cfg: Config, sh: Shared, p: Proc, o: Oracle): (m: Moved)
    requires p.pc == Creating
    ensures Framed(sh, p, m)
  {
    var m :=
      if o.fault == Dropped || p.resolution.Reuse? then Moved(sh, Raise(p))
      else Moved(CreateApplied(cfg, sh, p.resolution), Continue(o, p, p.(target := TargetOf(sh.crm, p.resolution), pc := Noting)));
    HandoffFramed(sh, p, m);
    m
  }

  /** After its note a new lead is patched at once; a reused one has its stage read first. */
  function AfterNote(cfg: Config, p: Proc): (q: Proc)
    ensures Follows(p, q)
  {
    if p.target.isNew then p.(noted := true, stage := Some(cfg.mapping.StageFor(p.reason)), pc := Patching)
    else p.(noted := true, pc := ReadingStage)
  }

  function PostNote(cfg: Config, sh: Shared, p: Proc, o: Oracle): (m: Moved)
    requires p.pc == Noting
    ensures Framed(sh, p, m)
  {
    var m :=
      if o.fault == Dropped then Moved(sh, Raise(p))
      else Moved(NoteApplied(sh), Continue(o, p.(noted := true), AfterNote(cfg, p)));
    HandoffFramed(sh, p, m);
    m
  }

  function ReadStage(cfg: Config, sh: Shared, p: Proc, o: Oracle): (m: Moved)
    requires p.pc == ReadingStage
    ensures Framed(sh, p, m)
  {
    var m :=
      if o.fault != Answered || p.target.lead !in sh.crm.leads then Moved(sh, Raise(p))
      else Moved(sh, p.(stage := StageToSet(cfg.mapping, sh.crm, p.target, p.reason), pc := Patching));
    HandoffFramed(sh, p, m);
    m
  }

  function Returned(p: Proc, r: RunResult): (q: Proc)
    ensures Follows(p, q)
  {
    p.(conv := WithIds(p.conv, r), pc := SavingMarker)
  }

  function Patch(cfg: Config, sh: Shared, p: Proc, o: Oracle): (m: Moved)
    requires p.pc == Patching
    requires HasAllIds(cfg.mapping.tables)
    ensures Framed(sh, p, m)
  {
    var result := RunResult(p.target.lead, p.target.contact);
    var m :=
      if o.fault == Dropped || p.target.lead !in sh.crm.leads then Moved(sh, Raise(p))
      else if o.fault == AnswerLost then Moved(PatchApplied(cfg, sh, p), Raise(p))
      else Moved(DeedDone(PatchApplied(cfg, sh, p), WithRun(sh.deeds, result)), Returned(p, result));
    HandoffFramed(sh, p, m);
    m
  }

  function SaveMarker(sh: Shared, p: Proc, o: Oracle): (m: Moved)
    requires p.pc == SavingMarker
    ensures Framed(sh, p, m)
  {
    var marked := p.(marked := true);
    var m := if o.fault == Dropped then Moved(sh, Raise(p)) else Moved(Saved(sh, p.conv), Continue(o, marked, ToChat(marked)));
    HandoffFramed(sh, p, m);
    m
  }

  function CreateChat(sh: Shared, p: Proc, o: Oracle): (m: Moved)
    requires p.pc == CreatingChat
    ensures Framed(sh, p, m)
  {
    var chatted := p.(chatted := true);
    var m :=
      if o.fault == Dropped then Moved(sh, Raise(p))
      else Moved(ChatApplied(sh), Continue(o, chatted, chatted.(conv := WithChat(p.conv, o.chatId), pc := SavingChat)));
    HandoffFramed(sh, p, m);
    m
  }

  function SaveChat(sh: Shared, p: Proc, o: Oracle): (m: Moved)
    requires p.pc == SavingChat
    ensures Framed(sh, p, m)
  {
    var saved := p.(chatSaved := true);
    var m := if o.fault == Dropped then Moved(sh, Raise(p)) else Moved(Saved(sh, p.conv), Continue(o, saved, saved.(pc := Linking)));
    HandoffFramed(sh, p, m);
    m
  }

  /** A link the CRM refuses because the chat is already linked counts as done. */
  function Link(sh: Shared, p: Proc, o: Oracle): (m: Moved)
    requires p.pc == Linking
    ensures Framed(sh, p, m)
  {
    var m :=
      if o.fault == Dropped || p.conv.contactId.None? || p.conv.chatId.None? then Moved(sh, Raise(p))
      else
        var pair := (p.conv.contactId.value, p.conv.chatId.value);
        Moved(DeedDone(sh, WithLink(sh.deeds, pair, o.alreadyLinked)), Continue(o, p, ToFlip(p)));
    HandoffFramed(sh, p, m);
    m
  }

  function SaveFlip(sh: Shared, p: Proc, o: Oracle): (m: Moved)
    requires p.pc == SavingFlip
    ensures Framed(sh, p, m)
  {
    var m :=
      if o.fault == Dropped then Moved(sh, Raise(p))
      else Moved(DeedDone(Saved(sh, p.conv), WithFlip(sh.deeds, p.connector)), Continue(o, p, p.(pc := SettingFlag)));
    HandoffFramed(sh, p, m);
    m
  }

  /** Setting the flag is the last await; only then does a flush return its farewell. */
  function SetFlag(sh: Shared, p: Proc, o: Oracle): (m: Moved)
    requires p.pc == SettingFlag
    ensures Framed(sh, p, m)
  {
    var m :=
      if o.fault == Dropped then Moved(sh, Raise(p))
      else if o.fault == AnswerLost || p.kind.Sweep? then Moved(FlagApplied(sh), Raise(p))
      else Moved(DeedDone(FlagApplied(sh), WithFarewell(sh.deeds)), Raise(p));
    HandoffFramed(sh, p, m);
    m
  }

  function OpenNotes(p: Proc): nat {
    if p.noted && !p.marked then 1 else 0
  }

  function OpenChats(p: Proc): nat {
    if p.chatted && !p.chatSaved then 1 else 0
  }

  /** When a process ends, what it did but could not record is lost. */
  function Settled(sh: Shared, p: Proc): Shared {
    sh.(accounts := sh.accounts.(lostNotes := sh.accounts.lostNotes + OpenNotes(p), lostChats := sh.accounts.lostChats + OpenChats(p)))
  }

  /** The `finally` clause: an owner-safe release, which may itself fail. */
  function Leave(sh: Shared, p: Proc, t: Token, o: Oracle): (m: Moved)
    requires p.pc == Leaving
    ensures Framed(sh, p, m)
  {
    var lock := if o.fault == Dropped then sh.lock else CompareAndDelete(sh.lock, sh.now, t);
    Moved(Settled(sh, p).(lock := lock), p.(pc := Gone))
  }

  function Advance(cfg: Config, sh: Shared, t: Token, p: Proc, o: Oracle): (m: Moved)
    requires InSection(p) && HasAllIds(cfg.mapping.tables)
    ensures Framed(sh, p, m)
  {
    match p.pc
    case Draining => Drain(sh, p, o)
    case CheckingBlock => CheckBlock(sh, p, o)
    case Loading => Load(sh, p, o)
    case Silencing => Silence(sh, p, o)
    case Thinking => Think(cfg, sh, p, o)
    case Arming => Arm(cfg, sh, p)
    case SavingTurn => SaveTurn(sh, p, o)
    case SavingProgress => SaveProgress(sh, p, o)
    case Finding => Find(sh, p, o)
    case Creating => Create(cfg, sh, p, o)
    case Noting => PostNote(cfg, sh, p, o)
    case ReadingStage => ReadStage(cfg, sh, p, o)
    case Patching => Patch(cfg, sh, p, o)
    case SavingMarker => SaveMarker(sh, p, o)
    case CreatingChat => CreateChat(sh, p, o)
    case SavingChat => SaveChat(sh, p, o)
    case Linking => Link(sh, p, o)
    case SavingFlip => SaveFlip(sh, p, o)
    case SettingFlag => SetFlag(sh, p, o)
    case Leaving => Leave(sh, p, t, o)
  }

  // ---- The system ----

  datatype System = System(sh: Shared, procs: map<Token, Proc>)

  datatype Event =
    | Tick(now: real)
    | Receive(text: string)
    | Spawn(token: Token, kind: Kind, connector: bool, ttl: real)
    | TryLock(token: Token, fault: CallFault)
    | Move(token: Token, oracle: Oracle)
    | Crash(token: Token)
    | Outside(crm: Crm)

  function NewProc(kind: Kind, connector: bool, ttl: real): Proc {
    Proc(kind, connector, ttl, Waiting, 0.0, 0, NEW_CONVERSATION, None, NoResponse, CreateBoth,
         Target(0, 0, false), None, false, false, false, false)
  }

  function Entered(p: Proc, now: real): Proc {
    p.(expires := now + p.ttl, pc := if p.kind.Flush? then Draining else Loading)
  }

  /** SET NX: it fails while a lease is in force. */
  function Locking(sh: Shared, t: Token, p: Proc, fault: CallFault): Moved {
    if fault == Dropped || InForce(sh.lock, sh.now).Some? then Moved(sh, p.(pc := Gone))
    else Moved(sh.(lock := Some(Lease(t, sh.now + p.ttl))), if fault == Answered then Entered(p, sh.now) else p.(pc := Gone))
  }

  /** Which events can happen. Searches are exact, extraction is typed, other actors only add
      to the CRM. Nothing here bounds how long a process takes. */
  ghost predicate Possible(cfg: Config, s: System, e: Event) {
    match e
    case Tick(now) => s.sh.now <= now
    case Receive(_) => true
    case Spawn(t, kind, _, ttl) => t !in s.procs && ttl > 0.0 && (kind.Sweep? ==> kind.asOf == s.sh.now)
    case TryLock(t, _) => t in s.procs && s.procs[t].pc == Waiting
    case Move(t, o) =>
      && t in s.procs && InSection(s.procs[t])
      && (s.procs[t].pc == Thinking ==> TypedInput(cfg.catalogue, s.procs[t].conv, o.input))
      && (s.procs[t].pc == Finding && o.fault == Answered ==> ExactSearch(s.sh.crm, cfg.phone, o.matches))
    case Crash(t) => t in s.procs && s.procs[t].pc != Gone
    case Outside(crm) => Extends(s.sh.crm, crm)
  }

  function Happen(cfg: Config, s: System, e: Event): System
    requires HasAllIds(cfg.mapping.tables)
  {
    match e
    case Tick(now) => s.(sh := s.sh.(now := now))
    case Receive(text) =>
      s.(sh := s.sh.(buffer := s.sh.buffer + [text], traffic := s.sh.traffic.(received := s.sh.traffic.received + [text])))
    case Spawn(t, kind, connector, ttl) => s.(procs := s.procs[t := NewProc(kind, connector, ttl)])
    case TryLock(t, fault) =>
      if t !in s.procs then s
      else
        var m := Locking(s.sh, t, s.procs[t], fault);
        System(m.sh, s.procs[t := m.p])
    case Move(t, o) =>
      if t !in s.procs || !InSection(s.procs[t]) then s
      else
        var m := Advance(cfg, s.sh, t, s.procs[t], o);
        System(m.sh, s.procs[t := m.p])
    case Crash(t) =>
      if t !in s.procs then s
      else System(Settled(s.sh, s.procs[t]), s.procs[t := s.procs[t].(pc := Gone)])
    case Outside(crm) => s.(sh := s.sh.(crm := crm))
  }

  /** No process is still in its section when its lease has run out. */
  ghost predicate InTime(s: System) {
    forall t :: t in s.procs && InSection(s.procs[t]) ==> s.sh.now < s.procs[t].expires
  }

  ghost predicate Initial(s: System) {
    && s.procs == map[] && s.sh.lock == None && s.sh.buffer == [] && s.sh.db == None && !s.sh.flag
    && ValidCrm(s.sh.crm)
    && s.sh.traffic == Traffic([], [], []) && s.sh.accounts == Accounts(0, 0, 0, 0)
    && s.sh.created == Creations(0, 0) && s.sh.deeds == Deeds(None, {}, {}, {}, 0, false, 0)
  }

  ghost predicate StepAt(cfg: Config, states: seq<System>, events: seq<Event>, i: int)
    requires HasAllIds(cfg.mapping.tables) && |states| == |events| + 1 && 0 <= i < |events|
  {
    Possible(cfg, states[i], events[i]) && states[i + 1] == Happen(cfg, states[i], events[i])
  }

  /** A run: states and the events between them. */
  ghost predicate IsRun(cfg: Config, states: seq<System>, events: seq<Event>) {
    && HasAllIds(cfg.mapping.tables) && Usable(cfg.catalogue)
    && |states| == |events| + 1 && Initial(states[0])
    && forall i :: 0 <= i < |events| ==> StepAt(cfg, states, events, i)
  }

  predicate Grants(s: System, e: Event) {
    e.TryLock? && e.fault == Answered && InForce(s.sh.lock, s.sh.now).None?
  }

  ghost predicate TimelyAt(states: seq<System>, events: seq<Event>, i: int)
    requires |states| == |events| + 1 && 0 <= i < |events|
  {
    Grants(states[i], events[i]) ==> InTime(states[i])
  }

  /** A run in which, whenever the key is granted, every process in its section is in time. */
  ghost predicate IsTimelyRun(cfg: Config, states: seq<System>, events: seq<Event>) {
    IsRun(cfg, states, events) && forall i :: 0 <= i < |events| ==> TimelyAt(states, events, i)
  }
}
