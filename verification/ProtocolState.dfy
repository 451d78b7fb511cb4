/** The state of the handoff protocol for one sender: what its flushes and sweeps share, what
    each keeps to itself, and which part of it an await may touch. */
module ProtocolState {
  import opened Prelude
  import opened Schemas
  import opened Conversations
  import opened TurnLogic
  import opened Crm
  import opened HandoffRuns
  import opened Leases

  datatype Config = Config(catalogue: Catalogue, mapping: Mapping, phone: string, silence: real)

  /** A flush carries customer messages; a sweep carries the time it was started at. */
  datatype Kind = Flush | Sweep(asOf: real)

  /** The await a process stands before. */
  datatype Pc =
    | Waiting
    | Draining | CheckingBlock | Loading | Silencing | Thinking | Arming | SavingTurn
    | SavingProgress | Finding | Creating | Noting | ReadingStage | Patching | SavingMarker
    | CreatingChat | SavingChat | Linking | SavingFlip | SettingFlag | Leaving
    | Gone

  /** One flush or sweep: its working copy of the conversation and what it has done so far. */
  datatype Proc = Proc(
    kind: Kind,
    connector: bool,
    ttl: real,
    pc: Pc,
    expires: real,
    batch: int,
    conv: Conversation,
    armedAt: Option<real>,
    reason: HandoffReason,
    resolution: Resolution,
    target: Target,
    stage: Option<int>,
    noted: bool,
    marked: bool,
    chatted: bool,
    chatSaved: bool)

  // What has happened, for the statements about runs; no process reads these.

  /** Messages received, the batches drained from the buffer, and those handed to a turn. */
  datatype Traffic = Traffic(received: seq<string>, batches: seq<seq<string>>, handled: seq<int>)

  /** Notes and chats the CRM applied, and those whose process ended before recording them. */
  datatype Accounts = Accounts(notes: nat, lostNotes: nat, chats: nat, lostChats: nat)

  /** Leads and contacts created by the bot. */
  datatype Creations = Creations(leads: nat, contacts: nat)

  /** When the stored deadline was armed; runs that returned; links made or refused because
      already made; flips of the durable phase; farewells returned. */
  datatype Deeds = Deeds(
    armedAt: Option<real>,
    published: set<RunResult>,
    linked: set<(int, string)>,
    refused: set<(int, string)>,
    flips: nat,
    flippedWithConnector: bool,
    farewells: nat)

  /** Everything processes share: Redis, the durable store, the CRM. */
  datatype Shared = Shared(
    now: real,
    lock: Option<Lease>,
    buffer: seq<string>,
    db: Option<Conversation>,
    flag: bool,
    crm: Crm,
    traffic: Traffic,
    accounts: Accounts,
    created: Creations,
    deeds: Deeds)

  datatype Moved = Moved(sh: Shared, p: Proc)

  /** What the outside world answers at one await. */
  datatype Oracle = Oracle(
    fault: CallFault,
    blocked: bool,
    input: TurnInput,
    matches: seq<Match>,
    chatId: string,
    alreadyLinked: bool)

  predicate InSection(p: Proc) {
    p.pc != Waiting && p.pc != Gone
  }

  function Durable(db: Option<Conversation>): Conversation {
    db.GetOr(NEW_CONVERSATION)
  }

  /** The same slots, and at most the last question forgotten. */
  predicate SameProgress(c: Conversation, d: Conversation) {
    && c.tripType == d.tripType && c.slots == d.slots && c.asked == d.asked
    && c.attempts == d.attempts && c.pending == d.pending
    && (d.lastAsked == c.lastAsked || d.lastAsked == None)
  }

  /** Only leaving touches the lock, and nothing touches a lease, a kind or the clock. */
  predicate Stays(sh: Shared, p: Proc, m: Moved) {
    && m.p.expires == p.expires && m.p.kind == p.kind && m.p.pc != Waiting && m.p.pc != Draining && m.sh.now == sh.now
    && (InSection(m.p) || p.pc != Leaving ==> m.sh.lock == sh.lock)
  }

  /** A save stores the working copy, whose slots only loading and thinking change. */
  predicate Records(sh: Shared, p: Proc, m: Moved) {
    && (m.sh.db == sh.db || m.sh.db == Some(p.conv))
    && (p.pc != Thinking ==> SameProgress(p.conv, m.p.conv) || SameProgress(Durable(sh.db), m.p.conv))
  }

  /** The buffer is only drained, and its batches only handed on, where they should be. */
  predicate Delivers(sh: Shared, p: Proc, m: Moved) {
    && (p.pc != Draining ==> m.sh.buffer == sh.buffer)
    && (p.pc != Draining && p.pc != CheckingBlock ==> m.sh.traffic == sh.traffic && m.p.pc != CheckingBlock)
  }

  /** The awaits of a turn, which only a flush takes. */
  predicate TakingTurn(pc: Pc) {
    pc.Draining? || pc.CheckingBlock? || pc.Silencing? || pc.Thinking? || pc.Arming? || pc.SavingTurn? || pc.SavingProgress?
  }

  /** The awaits of a handoff. */
  predicate HandingOff(pc: Pc) {
    pc != Waiting && pc != Gone && pc != Loading && pc != Leaving && !TakingTurn(pc)
  }

  /** Only the save of a turn re-arms the deadline, and from a handoff there is no way back
      to a turn. */
  predicate Steers(sh: Shared, p: Proc, m: Moved) {
    && (p.pc != SavingTurn ==> m.sh.deeds.armedAt == sh.deeds.armedAt)
    && (HandingOff(m.p.pc) ==> HandingOff(p.pc) || p.pc == Loading || p.pc == SavingProgress)
    && (TakingTurn(m.p.pc) ==> TakingTurn(p.pc) || (p.pc == Loading && p.kind.Flush?))
  }

  /** Only a turn decides to hand off, and only it and a sweep's load set the reason. A PATCH
      comes straight after the note or the reading of the stage. */
  predicate KeepsReason(p: Proc, q: Proc) {
    && (p.pc != Thinking && p.pc != Loading ==> q.reason == p.reason)
    && (p.pc == Loading ==> (q.reason == p.reason && !HandingOff(q.pc)) || (p.kind.Sweep? && q.reason == NoResponse))
    && (q.pc == SavingProgress ==> p.pc == Thinking)
    && (q.pc == Patching ==> p.pc == Noting || p.pc == ReadingStage)
  }

  /** Only creating and patching write to the CRM, only a PATCH ends a run, and only a link links. */
  predicate Publishes(sh: Shared, p: Proc, m: Moved) {
    && (p.pc != Creating && p.pc != Patching ==> m.sh.crm == sh.crm)
    && (p.pc != Patching ==> m.sh.deeds.published == sh.deeds.published)
    && (p.pc != Linking ==> m.sh.deeds.linked == sh.deeds.linked && m.sh.deeds.refused == sh.deeds.refused)
  }

  predicate Framed(sh: Shared, p: Proc, m: Moved) {
    && Stays(sh, p, m) && Records(sh, p, m) && Delivers(sh, p, m) && Steers(sh, p, m) && KeepsReason(p, m.p)
    && Publishes(sh, p, m)
  }

  /** From a handoff's await a process goes on with the handoff or leaves, its slots and its
      reason as they were. */
  predicate Follows(p: Proc, q: Proc) {
    && q.expires == p.expires && q.kind == p.kind && (HandingOff(q.pc) || q.pc == Leaving)
    && SameProgress(p.conv, q.conv) && q.reason == p.reason
  }

  /** The clock, the lock, the messages and the deadline's arming are not touched. */
  predicate Unmoved(sh: Shared, after: Shared) {
    && after.now == sh.now && after.lock == sh.lock && after.buffer == sh.buffer && after.traffic == sh.traffic
    && after.deeds.armedAt == sh.deeds.armedAt
  }

  lemma TurnFramed(sh: Shared, p: Proc, m: Moved)
    requires p.pc == Thinking && m.sh == sh && m.p.kind == p.kind && m.p.expires == p.expires
    requires m.p.pc == SavingProgress || m.p.pc == Arming
    ensures Framed(sh, p, m)
  {
  }

  lemma LoadFramed(sh: Shared, p: Proc, m: Moved)
    requires p.pc == Loading && m.sh == sh && m.p.kind == p.kind && m.p.expires == p.expires
    requires SameProgress(Durable(sh.db), m.p.conv)
    requires HandingOff(m.p.pc) || (p.kind.Flush? && (m.p.pc == Silencing || m.p.pc == Thinking))
    requires m.p.pc != Patching && m.p.reason == if p.kind.Flush? then p.reason else NoResponse
    requires p.kind.Flush? ==> !HandingOff(m.p.pc)
    ensures Framed(sh, p, m)
  {
  }

  lemma HandoffFramed(sh: Shared, p: Proc, m: Moved)
    requires HandingOff(p.pc) || p.pc == SavingProgress
    requires Follows(p, m.p) && Unmoved(sh, m.sh) && (m.sh.db == sh.db || m.sh.db == Some(p.conv))
    requires m.p.pc == Patching ==> p.pc == Noting || p.pc == ReadingStage
    requires Publishes(sh, p, m)
    ensures Framed(sh, p, m)
  {
  }

  // ---- Entries in the ledgers ----

  function WithRun(deeds: Deeds, r: RunResult): (d: Deeds)
    ensures d.armedAt == deeds.armedAt
  {
    deeds.(published := deeds.published + {r})
  }

  function WithLink(deeds: Deeds, pair: (int, string), refused: bool): (d: Deeds)
    ensures d.armedAt == deeds.armedAt
  {
    if refused then deeds.(refused := deeds.refused + {pair}) else deeds.(linked := deeds.linked + {pair})
  }

  function WithFlip(deeds: Deeds, connector: bool): (d: Deeds)
    ensures d.armedAt == deeds.armedAt
  {
    deeds.(flips := deeds.flips + 1, flippedWithConnector := connector)
  }

  function WithFarewell(deeds: Deeds): (d: Deeds)
    ensures d.armedAt == deeds.armedAt
  {
    deeds.(farewells := deeds.farewells + 1)
  }
}
