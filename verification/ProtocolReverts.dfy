/** What the lease hypothesis is needed for: a process that outlives its lease can write a
    collecting record over a handed-off one. Exactly when that happens, in any run. */
module ProtocolReverts {
  import opened Prelude
  import opened Conversations
  import opened TurnLogic
  import opened LeadPayload
  import opened HandoffRuns
  import opened Leases
  import opened ProtocolState
  import opened Protocol
  import opened ProtocolRuns

  function PhaseOf(s: System): Phase {
    Durable(s.sh.db).phase
  }

  /** The awaits that save the record, but for the one that flips its phase. */
  predicate SavesWork(pc: Pc) {
    pc == SavingTurn || pc == SavingProgress || pc == SavingMarker || pc == SavingChat
  }

  /** The save goes through over a handed-off record, which the process loaded before it was. */
  predicate Reverts(s: System, e: Event) {
    && e.Move? && e.token in s.procs && SavesWork(s.procs[e.token].pc) && e.oracle.fault != Dropped
    && PhaseOf(s) == HandedOff
  }

  // ---- The phase of a working copy ----

  /** The awaits before a load, after the flip's save, and those that only signal. */
  predicate Idle(pc: Pc) {
    pc.Waiting? || pc.Draining? || pc.CheckingBlock? || pc.Loading? || pc.Silencing? || pc.SettingFlag? || pc.Leaving? || pc.Gone?
  }

  /** The record a flip saves: handed off, with no question open and no deadline. */
  predicate Closed(c: Conversation) {
    c.phase == HandedOff && c.lastAsked == None && c.deadline == None
  }

  /** From its load to the flip a process works on a collecting copy, which the flip closes. */
  predicate PhaseFits(p: Proc) {
    Idle(p.pc) || (if p.pc == SavingFlip then Closed(p.conv) else p.conv.phase == Collecting)
  }

  predicate PhasesFit(s: System) {
    forall t :: t in s.procs ==> PhaseFits(s.procs[t])
  }

  lemma TurnKeepsPhase(cfg: Config, p: Proc, o: Oracle)
    ensures TakeTurn(cfg.catalogue, p.conv, o.input).conv.phase == p.conv.phase
  {
  }

  /** A process goes on with a copy in the same phase, or has just flipped it. */
  lemma GoesOnFits(o: Oracle, p: Proc)
    requires p.conv.phase == Collecting
    ensures PhaseFits(Raise(p)) && PhaseFits(ToFlip(p)) && PhaseFits(ToChat(p)) && PhaseFits(ToRun(p))
    ensures PhaseFits(Continue(o, p, ToFlip(p))) && PhaseFits(Continue(o, p, ToChat(p))) && PhaseFits(Continue(o, p, ToRun(p)))
  {
  }

  lemma FlushLoadFits(sh: Shared, p: Proc, o: Oracle)
    requires p.pc == Loading && p.kind.Flush? && o.fault == Answered
    ensures PhaseFits(Load(sh, p, o).p)
  {
  }

  lemma SweepLoadFits(sh: Shared, p: Proc, o: Oracle)
    requires p.pc == Loading && p.kind.Sweep? && o.fault == Answered
    ensures PhaseFits(Load(sh, p, o).p)
  {
    if Durable(sh.db).phase == Collecting {
      GoesOnFits(o, p.(conv := Durable(sh.db), armedAt := sh.deeds.armedAt, reason := NoResponse));
    }
  }

  lemma LoadFits(sh: Shared, p: Proc, o: Oracle)
    requires p.pc == Loading
    ensures PhaseFits(Load(sh, p, o).p)
  {
    if o.fault == Answered {
      if p.kind.Flush? {
        FlushLoadFits(sh, p, o);
      } else {
        SweepLoadFits(sh, p, o);
      }
    }
  }

  lemma ThinkGoesOn(cfg: Config, sh: Shared, p: Proc, o: Oracle)
    requires p.pc == Thinking && o.fault == Answered
    ensures var q := Think(cfg, sh, p, o).p;
            (q.pc == SavingProgress || q.pc == Arming) && q.conv == TakeTurn(cfg.catalogue, p.conv, o.input).conv
  {
  }

  lemma ThinkFits(cfg: Config, sh: Shared, p: Proc, o: Oracle)
    requires p.pc == Thinking && PhaseFits(p)
    ensures PhaseFits(Think(cfg, sh, p, o).p)
  {
    if o.fault == Answered {
      TurnKeepsPhase(cfg, p, o);
      ThinkGoesOn(cfg, sh, p, o);
    }
  }

  lemma ArmFits(cfg: Config, sh: Shared, p: Proc)
    requires p.pc == Arming && PhaseFits(p)
    ensures PhaseFits(Arm(cfg, sh, p).p)
  {
  }

  lemma SaveProgressFits(sh: Shared, p: Proc, o: Oracle)
    requires p.pc == SavingProgress && PhaseFits(p)
    ensures PhaseFits(SaveProgress(sh, p, o).p)
  {
    GoesOnFits(o, p);
  }

  lemma FindFits(sh: Shared, p: Proc, o: Oracle)
    requires p.pc == Finding && PhaseFits(p)
    ensures PhaseFits(Find(sh, p, o).p)
  {
  }

  lemma CreateFits(cfg: Config, sh: Shared, p: Proc, o: Oracle)
    requires p.pc == Creating && PhaseFits(p)
    ensures PhaseFits(Create(cfg, sh, p, o).p)
  {
  }

  lemma PostNoteFits(cfg: Config, sh: Shared, p: Proc, o: Oracle)
    requires p.pc == Noting && PhaseFits(p)
    ensures PhaseFits(PostNote(cfg, sh, p, o).p)
  {
  }

  lemma ReadStageFits(cfg: Config, sh: Shared, p: Proc, o: Oracle)
    requires p.pc == ReadingStage && PhaseFits(p)
    ensures PhaseFits(ReadStage(cfg, sh, p, o).p)
  {
  }

  lemma PatchFits(cfg: Config, sh: Shared, p: Proc, o: Oracle)
    requires p.pc == Patching && PhaseFits(p) && HasAllIds(cfg.mapping.tables)
    ensures PhaseFits(Patch(cfg, sh, p, o).p)
  {
  }

  lemma SaveMarkerFits(sh: Shared, p: Proc, o: Oracle)
    requires p.pc == SavingMarker && PhaseFits(p)
    ensures PhaseFits(SaveMarker(sh, p, o).p)
  {
    GoesOnFits(o, p.(marked := true));
  }

  lemma CreateChatFits(sh: Shared, p: Proc, o: Oracle)
    requires p.pc == CreatingChat && PhaseFits(p)
    ensures PhaseFits(CreateChat(sh, p, o).p)
  {
  }

  lemma SaveChatFits(sh: Shared, p: Proc, o: Oracle)
    requires p.pc == SavingChat && PhaseFits(p)
    ensures PhaseFits(SaveChat(sh, p, o).p)
  {
  }

  lemma LinkFits(sh: Shared, p: Proc, o: Oracle)
    requires p.pc == Linking && PhaseFits(p)
    ensures PhaseFits(Link(sh, p, o).p)
  {
    GoesOnFits(o, p);
  }

  /** These leave their process idle. */
  lemma DrainFits(sh: Shared, p: Proc, o: Oracle)
    ensures p.pc == Draining ==> PhaseFits(Drain(sh, p, o).p)
    ensures p.pc == CheckingBlock ==> PhaseFits(CheckBlock(sh, p, o).p)
  {
  }

  lemma FlushFits(sh: Shared, p: Proc, o: Oracle)
    ensures p.pc == Silencing ==> PhaseFits(Silence(sh, p, o).p)
    ensures p.pc == SavingTurn ==> PhaseFits(SaveTurn(sh, p, o).p)
  {
  }

  lemma SaveFlipFits(sh: Shared, p: Proc, o: Oracle)
    requires p.pc == SavingFlip
    ensures PhaseFits(SaveFlip(sh, p, o).p)
  {
  }

  lemma SetFlagFits(sh: Shared, p: Proc, o: Oracle)
    requires p.pc == SettingFlag
    ensures PhaseFits(SetFlag(sh, p, o).p)
  {
  }

  lemma LeaveFits(sh: Shared, p: Proc, t: Token, o: Oracle)
    requires p.pc == Leaving
    ensures PhaseFits(Leave(sh, p, t, o).p)
  {
  }

  lemma AdvanceFits(cfg: Config, sh: Shared, t: Token, p: Proc, o: Oracle)
    requires HasAllIds(cfg.mapping.tables) && InSection(p) && PhaseFits(p)
    ensures PhaseFits(Advance(cfg, sh, t, p, o).p)
  {
    match p.pc
    case Loading => LoadFits(sh, p, o);
    case Thinking => ThinkFits(cfg, sh, p, o);
    case Arming => ArmFits(cfg, sh, p);
    case SavingProgress => SaveProgressFits(sh, p, o);
    case SavingMarker => SaveMarkerFits(sh, p, o);
    case Linking => LinkFits(sh, p, o);
    case Finding => FindFits(sh, p, o);
    case Creating => CreateFits(cfg, sh, p, o);
    case Noting => PostNoteFits(cfg, sh, p, o);
    case ReadingStage => ReadStageFits(cfg, sh, p, o);
    case Patching => PatchFits(cfg, sh, p, o);
    case CreatingChat => CreateChatFits(sh, p, o);
    case SavingChat => SaveChatFits(sh, p, o);
    case SavingFlip => SaveFlipFits(sh, p, o);
    case SettingFlag => SetFlagFits(sh, p, o);
    case Leaving => LeaveFits(sh, p, t, o);
    case Silencing => FlushFits(sh, p, o);
    case SavingTurn => FlushFits(sh, p, o);
    case _ => DrainFits(sh, p, o);
  }

  lemma OneFits(s: System, t: Token, sh: Shared, p: Proc)
    requires PhasesFit(s) && PhaseFits(p)
    ensures PhasesFit(System(sh, s.procs[t := p]))
  {
  }

  lemma MoveKeepsPhases(cfg: Config, s: System, t: Token, o: Oracle)
    requires HasAllIds(cfg.mapping.tables) && PhasesFit(s) && t in s.procs && InSection(s.procs[t])
    ensures var m := Advance(cfg, s.sh, t, s.procs[t], o); PhasesFit(System(m.sh, s.procs[t := m.p]))
  {
    var m := Advance(cfg, s.sh, t, s.procs[t], o);
    AdvanceFits(cfg, s.sh, t, s.procs[t], o);
    OneFits(s, t, m.sh, m.p);
  }

  lemma ProcessKeepsPhases(cfg: Config, s: System, e: Event)
    requires HasAllIds(cfg.mapping.tables) && PhasesFit(s) && Possible(cfg, s, e) && (e.TryLock? || e.Crash? || e.Spawn?)
    ensures PhasesFit(Happen(cfg, s, e))
  {
    match e
    case TryLock(t, fault) =>
      var m := Locking(s.sh, t, s.procs[t], fault);
      OneFits(s, t, m.sh, m.p);
    case Crash(t) => OneFits(s, t, Settled(s.sh, s.procs[t]), s.procs[t].(pc := Gone));
    case Spawn(t, kind, connector, ttl) => OneFits(s, t, s.sh, NewProc(kind, connector, ttl));
  }

  lemma WorldKeepsPhases(cfg: Config, s: System, e: Event)
    requires HasAllIds(cfg.mapping.tables) && PhasesFit(s) && Possible(cfg, s, e) && (e.Tick? || e.Receive? || e.Outside?)
    ensures PhasesFit(Happen(cfg, s, e))
  {
  }

  lemma StepKeepsPhases(cfg: Config, s: System, e: Event)
    requires HasAllIds(cfg.mapping.tables) && PhasesFit(s) && Possible(cfg, s, e)
    ensures PhasesFit(Happen(cfg, s, e))
  {
    if e.Move? {
      MoveKeepsPhases(cfg, s, e.token, e.oracle);
    } else if e.TryLock? || e.Crash? || e.Spawn? {
      ProcessKeepsPhases(cfg, s, e);
    } else {
      WorldKeepsPhases(cfg, s, e);
    }
  }

  // ---- What a save writes ----

  lemma TurnAwaitsStore(cfg: Config, sh: Shared, p: Proc, o: Oracle)
    ensures p.pc == Draining ==> Drain(sh, p, o).sh.db == sh.db
    ensures p.pc == CheckingBlock ==> CheckBlock(sh, p, o).sh.db == sh.db
    ensures p.pc == Silencing ==> Silence(sh, p, o).sh.db == sh.db
    ensures p.pc == Thinking ==> Think(cfg, sh, p, o).sh == sh
    ensures p.pc == Arming ==> Arm(cfg, sh, p).sh == sh
    ensures p.pc == SavingTurn ==> SaveTurn(sh, p, o).sh.db == if o.fault == Dropped then sh.db else Some(p.conv)
  {
  }

  lemma StartAwaitsStore(sh: Shared, t: Token, p: Proc, o: Oracle)
    ensures p.pc == Loading ==> Load(sh, p, o).sh == sh
    ensures p.pc == SavingProgress ==> SaveProgress(sh, p, o).sh.db == if o.fault == Dropped then sh.db else Some(p.conv)
    ensures p.pc == Leaving ==> Leave(sh, p, t, o).sh.db == sh.db
  {
  }

  lemma RunAwaitsStore(cfg: Config, sh: Shared, p: Proc, o: Oracle)
    requires HasAllIds(cfg.mapping.tables)
    ensures p.pc == Finding ==> Find(sh, p, o).sh == sh
    ensures p.pc == Creating ==> Create(cfg, sh, p, o).sh.db == sh.db
    ensures p.pc == Noting ==> PostNote(cfg, sh, p, o).sh.db == sh.db
    ensures p.pc == ReadingStage ==> ReadStage(cfg, sh, p, o).sh == sh
    ensures p.pc == Patching ==> Patch(cfg, sh, p, o).sh.db == sh.db
  {
  }

  lemma ChatAwaitsStore(sh: Shared, p: Proc, o: Oracle)
    ensures p.pc == SavingMarker ==> SaveMarker(sh, p, o).sh.db == if o.fault == Dropped then sh.db else Some(p.conv)
    ensures p.pc == CreatingChat ==> CreateChat(sh, p, o).sh.db == sh.db
    ensures p.pc == SavingChat ==> SaveChat(sh, p, o).sh.db == if o.fault == Dropped then sh.db else Some(p.conv)
    ensures p.pc == Linking ==> Link(sh, p, o).sh.db == sh.db
    ensures p.pc == SavingFlip ==> SaveFlip(sh, p, o).sh.db == if o.fault == Dropped then sh.db else Some(p.conv)
    ensures p.pc == SettingFlag ==> SetFlag(sh, p, o).sh.db == sh.db
  {
  }

  lemma AdvanceStores(cfg: Config, sh: Shared, t: Token, p: Proc, o: Oracle)
    requires HasAllIds(cfg.mapping.tables) && InSection(p)
    ensures Advance(cfg, sh, t, p, o).sh.db ==
            if (SavesWork(p.pc) || p.pc == SavingFlip) && o.fault != Dropped then Some(p.conv) else sh.db
  {
    TurnAwaitsStore(cfg, sh, p, o);
    StartAwaitsStore(sh, t, p, o);
    RunAwaitsStore(cfg, sh, p, o);
    ChatAwaitsStore(sh, p, o);
  }

  /** What the stored phase becomes, by what is stored. */
  lemma StoredPhase(before: Option<Conversation>, p: Proc, o: Oracle, after: Option<Conversation>)
    requires PhaseFits(p)
    requires after == if (SavesWork(p.pc) || p.pc == SavingFlip) && o.fault != Dropped then Some(p.conv) else before
    ensures Durable(before).phase == HandedOff ==> (Durable(after).phase == Collecting <==> SavesWork(p.pc) && o.fault != Dropped)
    ensures Durable(before).phase == Collecting && Durable(after).phase == HandedOff ==> p.pc == SavingFlip && Closed(Durable(after))
  {
  }

  lemma MoveRevertsExactly(cfg: Config, s: System, t: Token, o: Oracle)
    requires HasAllIds(cfg.mapping.tables) && PhasesFit(s) && t in s.procs && InSection(s.procs[t])
    ensures PhaseOf(s) == HandedOff && Durable(Advance(cfg, s.sh, t, s.procs[t], o).sh.db).phase == Collecting
            <==> Reverts(s, Move(t, o))
  {
    AdvanceStores(cfg, s.sh, t, s.procs[t], o);
    StoredPhase(s.sh.db, s.procs[t], o, Advance(cfg, s.sh, t, s.procs[t], o).sh.db);
  }

  /** Exactly what takes a handed-off record back to collecting: a save other than the flip's. */
  lemma StepRevertsExactly(cfg: Config, s: System, e: Event)
    requires HasAllIds(cfg.mapping.tables) && PhasesFit(s) && Possible(cfg, s, e)
    ensures PhaseOf(s) == HandedOff && PhaseOf(Happen(cfg, s, e)) == Collecting <==> Reverts(s, e)
  {
    if e.Move? {
      MoveRevertsExactly(cfg, s, e.token, e.oracle);
    }
  }

  /** Only the flip's save hands the stored record off, and it closes it. */
  lemma MoveHandsOff(cfg: Config, s: System, t: Token, o: Oracle)
    requires HasAllIds(cfg.mapping.tables) && PhasesFit(s) && t in s.procs && InSection(s.procs[t])
    requires PhaseOf(s) == Collecting && Durable(Advance(cfg, s.sh, t, s.procs[t], o).sh.db).phase == HandedOff
    ensures s.procs[t].pc == SavingFlip && Closed(Durable(Advance(cfg, s.sh, t, s.procs[t], o).sh.db))
  {
    AdvanceStores(cfg, s.sh, t, s.procs[t], o);
    StoredPhase(s.sh.db, s.procs[t], o, Advance(cfg, s.sh, t, s.procs[t], o).sh.db);
  }

  // ---- Runs ----

  lemma {:induction false} RunKeepsPhases(cfg: Config, states: seq<System>, events: seq<Event>, i: nat)
    requires IsRun(cfg, states, events) && i < |states|
    ensures PhasesFit(states[i])
  {
    if i > 0 {
      RunKeepsPhases(cfg, states, events, i - 1);
      assert StepAt(cfg, states, events, i - 1);
      StepKeepsPhases(cfg, states[i - 1], events[i - 1]);
    }
  }

  predicate RevertsAt(states: seq<System>, events: seq<Event>, i: int)
    requires |states| == |events| + 1 && 0 <= i < |events|
  {
    Reverts(states[i], events[i])
  }

  /** In every run, with any delays: a record that becomes handed off is closed by that event, which
      is a flip's save going through. */
  lemma HandedOffIsClosed(cfg: Config, states: seq<System>, events: seq<Event>, i: nat)
    requires IsRun(cfg, states, events) && i < |events|
    requires PhaseOf(states[i]) == Collecting && PhaseOf(states[i + 1]) == HandedOff
    ensures Closed(Durable(states[i + 1].sh.db))
    ensures var e := events[i]; e.Move? && e.token in states[i].procs && states[i].procs[e.token].pc == SavingFlip
  {
    RunKeepsPhases(cfg, states, events, i);
    assert StepAt(cfg, states, events, i);
    HandsOffOnlyByFlip(cfg, states[i], events[i]);
  }

  lemma HandsOffOnlyByFlip(cfg: Config, s: System, e: Event)
    requires HasAllIds(cfg.mapping.tables) && PhasesFit(s) && Possible(cfg, s, e)
    requires PhaseOf(s) == Collecting && PhaseOf(Happen(cfg, s, e)) == HandedOff
    ensures e.Move? && e.token in s.procs && s.procs[e.token].pc == SavingFlip && Closed(Durable(Happen(cfg, s, e).sh.db))
  {
    if e.Move? {
      MoveHandsOff(cfg, s, e.token, e.oracle);
    }
  }

  lemma RevertedExactly(cfg: Config, states: seq<System>, events: seq<Event>, i: nat)
    requires IsRun(cfg, states, events) && i < |events|
    ensures PhaseOf(states[i]) == HandedOff && PhaseOf(states[i + 1]) == Collecting <==> RevertsAt(states, events, i)
  {
    RunKeepsPhases(cfg, states, events, i);
    assert StepAt(cfg, states, events, i);
    StepRevertsExactly(cfg, states[i], events[i]);
  }

  lemma {:induction false} StaysHandedOff(cfg: Config, states: seq<System>, events: seq<Event>, i: nat, j: nat)
    requires IsRun(cfg, states, events) && i <= j < |states| && PhaseOf(states[i]) == HandedOff
    requires forall k :: i <= k < j ==> !RevertsAt(states, events, k)
    ensures PhaseOf(states[j]) == HandedOff
    decreases j
  {
    if i < j {
      StaysHandedOff(cfg, states, events, i, j - 1);
      RevertedExactly(cfg, states, events, j - 1);
    }
  }

  ghost predicate ForGood(states: seq<System>) {
    forall i, j :: 0 <= i <= j < |states| && PhaseOf(states[i]) == HandedOff ==> PhaseOf(states[j]) == HandedOff
  }

  /** In every run, with any delays: handed off is for good if and only if no save but the flip's
      went through over a handed-off record. */
  lemma HandedOffForGoodExactly(cfg: Config, states: seq<System>, events: seq<Event>)
    requires IsRun(cfg, states, events)
    ensures ForGood(states) <==> forall i :: 0 <= i < |events| ==> !RevertsAt(states, events, i)
  {
    if forall i :: 0 <= i < |events| ==> !RevertsAt(states, events, i) {
      forall i, j | 0 <= i <= j < |states| && PhaseOf(states[i]) == HandedOff ensures PhaseOf(states[j]) == HandedOff {
        StaysHandedOff(cfg, states, events, i, j);
      }
    } else {
      var i :| 0 <= i < |events| && RevertsAt(states, events, i);
      RevertedExactly(cfg, states, events, i);
      assert PhaseOf(states[i]) == HandedOff && PhaseOf(states[i + 1]) == Collecting;
    }
  }

  lemma PrefixIsTimely(cfg: Config, states: seq<System>, events: seq<Event>, n: nat)
    requires IsRun(cfg, states, events) && n <= |events|
    requires forall k :: 0 <= k < n ==> TimelyAt(states, events, k)
    ensures IsTimelyRun(cfg, states[..n + 1], events[..n])
  {
    var first, some := states[..n + 1], events[..n];
    forall k | 0 <= k < n ensures StepAt(cfg, first, some, k) {
      assert StepAt(cfg, states, events, k);
    }
    forall k | 0 <= k < n ensures TimelyAt(first, some, k) {
      assert TimelyAt(states, events, k);
    }
  }

  /** Before it goes back, the key was granted while some process had outlived its lease. */
  lemma RevertsOnlyLate(cfg: Config, states: seq<System>, events: seq<Event>, i: nat)
    requires IsRun(cfg, states, events) && i < |events| && RevertsAt(states, events, i)
    ensures exists k :: 0 <= k < i && !TimelyAt(states, events, k)
  {
    if forall k :: 0 <= k < i ==> TimelyAt(states, events, k) {
      assert TimelyAt(states, events, i);
      PrefixIsTimely(cfg, states, events, i + 1);
      RevertedExactly(cfg, states, events, i);
      HandedOffForGood(cfg, states[..i + 2], events[..i + 1], i, i + 1);
    }
  }
}
