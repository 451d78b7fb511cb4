/** What holds in every run of the protocol, however late its processes are: the slot
    bookkeeping of every record, and that no customer message is lost or handled twice. */
module ProtocolAnyRun {
  import opened Prelude
  import opened Schemas
  import opened Conversations
  import opened TurnLogic
  import opened TurnInvariants
  import opened LeadPayload
  import opened HandoffRuns
  import opened Leases
  import opened ProtocolState
  import opened Protocol

  // ---- The slot invariant ----

  lemma ProgressIsSound(catalogue: Catalogue, c: Conversation, d: Conversation)
    requires Sound(catalogue, c) && SameProgress(c, d)
    ensures Sound(catalogue, d)
  {
  }

  ghost predicate AllSound(cfg: Config, s: System) {
    && Sound(cfg.catalogue, Durable(s.sh.db))
    && forall t :: t in s.procs ==> Sound(cfg.catalogue, s.procs[t].conv)
  }

  lemma ThinkTakesTurn(cfg: Config, sh: Shared, p: Proc, o: Oracle)
    requires p.pc == Thinking
    ensures Think(cfg, sh, p, o).p.conv == if o.fault == Answered then TakeTurn(cfg.catalogue, p.conv, o.input).conv else p.conv
  {
  }

  lemma ThinkKeepsSound(cfg: Config, sh: Shared, p: Proc, o: Oracle)
    requires Usable(cfg.catalogue) && p.pc == Thinking
    requires Sound(cfg.catalogue, p.conv) && TypedInput(cfg.catalogue, p.conv, o.input)
    ensures Sound(cfg.catalogue, Think(cfg, sh, p, o).p.conv)
  {
    ThinkTakesTurn(cfg, sh, p, o);
    TurnKeepsSound(cfg.catalogue, p.conv, o.input);
  }

  lemma RecordsKeepSound(catalogue: Catalogue, sh: Shared, p: Proc, m: Moved)
    requires Sound(catalogue, Durable(sh.db)) && Sound(catalogue, p.conv)
    requires Records(sh, p, m)
    ensures Sound(catalogue, Durable(m.sh.db))
    ensures p.pc != Thinking ==> Sound(catalogue, m.p.conv)
  {
    if p.pc != Thinking {
      if SameProgress(p.conv, m.p.conv) {
        ProgressIsSound(catalogue, p.conv, m.p.conv);
      } else {
        ProgressIsSound(catalogue, Durable(sh.db), m.p.conv);
      }
    }
  }

  lemma MoveKeepsSound(cfg: Config, sh: Shared, t: Token, p: Proc, o: Oracle)
    requires HasAllIds(cfg.mapping.tables) && Usable(cfg.catalogue) && InSection(p)
    requires Sound(cfg.catalogue, Durable(sh.db)) && Sound(cfg.catalogue, p.conv)
    requires p.pc == Thinking ==> TypedInput(cfg.catalogue, p.conv, o.input)
    ensures var m := Advance(cfg, sh, t, p, o); Sound(cfg.catalogue, Durable(m.sh.db)) && Sound(cfg.catalogue, m.p.conv)
  {
    var m := Advance(cfg, sh, t, p, o);
    assert Framed(sh, p, m);
    RecordsKeepSound(cfg.catalogue, sh, p, m);
    if p.pc == Thinking {
      ThinkKeepsSound(cfg, sh, p, o);
    }
  }

  lemma OneSound(cfg: Config, s: System, t: Token, sh: Shared, p: Proc)
    requires AllSound(cfg, s) && Sound(cfg.catalogue, Durable(sh.db)) && Sound(cfg.catalogue, p.conv)
    ensures AllSound(cfg, System(sh, s.procs[t := p]))
  {
  }

  lemma NewIsSound(catalogue: Catalogue)
    ensures Sound(catalogue, NEW_CONVERSATION)
  {
  }

  lemma LockingKeepsSound(cfg: Config, s: System, t: Token, fault: CallFault)
    requires AllSound(cfg, s) && t in s.procs
    ensures var m := Locking(s.sh, t, s.procs[t], fault); AllSound(cfg, System(m.sh, s.procs[t := m.p]))
  {
    var m := Locking(s.sh, t, s.procs[t], fault);
    OneSound(cfg, s, t, m.sh, m.p);
  }

  /** Entering the section, starting and dying leave the working copy alone. */
  lemma ProcessKeepsSound(cfg: Config, s: System, e: Event)
    requires HasAllIds(cfg.mapping.tables) && AllSound(cfg, s) && Possible(cfg, s, e) && (e.TryLock? || e.Crash? || e.Spawn?)
    ensures AllSound(cfg, Happen(cfg, s, e))
  {
    match e
    case TryLock(t, fault) => LockingKeepsSound(cfg, s, t, fault);
    case Crash(t) => OneSound(cfg, s, t, Settled(s.sh, s.procs[t]), s.procs[t].(pc := Gone));
    case Spawn(t, kind, connector, ttl) =>
      NewIsSound(cfg.catalogue);
      OneSound(cfg, s, t, s.sh, NewProc(kind, connector, ttl));
  }

  lemma WorldKeepsSound(cfg: Config, s: System, e: Event)
    requires HasAllIds(cfg.mapping.tables) && AllSound(cfg, s) && Possible(cfg, s, e) && (e.Tick? || e.Receive? || e.Outside?)
    ensures AllSound(cfg, Happen(cfg, s, e))
  {
  }

  lemma StepKeepsSound(cfg: Config, s: System, e: Event)
    requires HasAllIds(cfg.mapping.tables) && Usable(cfg.catalogue) && AllSound(cfg, s) && Possible(cfg, s, e)
    ensures AllSound(cfg, Happen(cfg, s, e))
  {
    if e.Move? {
      var m := Advance(cfg, s.sh, e.token, s.procs[e.token], e.oracle);
      MoveKeepsSound(cfg, s.sh, e.token, s.procs[e.token], e.oracle);
      OneSound(cfg, s, e.token, m.sh, m.p);
    } else if e.TryLock? || e.Crash? || e.Spawn? {
      ProcessKeepsSound(cfg, s, e);
    } else {
      WorldKeepsSound(cfg, s, e);
    }
  }

  /** Every stored record and every working copy satisfies the slot invariant. */
  lemma {:induction false} EveryRecordIsSound(cfg: Config, states: seq<System>, events: seq<Event>, i: nat)
    requires IsRun(cfg, states, events) && i < |states|
    ensures AllSound(cfg, states[i])
  {
    if i > 0 {
      EveryRecordIsSound(cfg, states, events, i - 1);
      assert StepAt(cfg, states, events, i - 1);
      StepKeepsSound(cfg, states[i - 1], events[i - 1]);
    }
  }

  // ---- Messages ----

  /** The batches a process has in its hands or has handed to a turn. */
  predicate ClaimsOk(s: System) {
    forall t :: t in s.procs && s.procs[t].pc == CheckingBlock ==>
      0 <= s.procs[t].batch < |s.sh.traffic.batches| && s.procs[t].batch !in s.sh.traffic.handled
  }

  predicate ClaimsDiffer(s: System) {
    forall t, u :: t in s.procs && u in s.procs && t != u && s.procs[t].pc == CheckingBlock && s.procs[u].pc == CheckingBlock ==>
      s.procs[t].batch != s.procs[u].batch
  }

  predicate HandledOnce(traffic: Traffic) {
    && (forall i, j :: 0 <= i < j < |traffic.handled| ==> traffic.handled[i] != traffic.handled[j])
    && (forall i :: 0 <= i < |traffic.handled| ==> 0 <= traffic.handled[i] < |traffic.batches|)
    && (forall i :: 0 <= i < |traffic.batches| ==> traffic.batches[i] != [])
  }

  predicate Conserved(buffer: seq<string>, traffic: Traffic) {
    traffic.received == Flatten(traffic.batches) + buffer && HandledOnce(traffic)
  }

  predicate Accounted(s: System) {
    Conserved(s.sh.buffer, s.sh.traffic) && ClaimsOk(s) && ClaimsDiffer(s)
  }

  lemma DrainedIsConserved(buffer: seq<string>, traffic: Traffic)
    requires Conserved(buffer, traffic) && buffer != []
    ensures Conserved([], traffic.(batches := traffic.batches + [buffer]))
  {
    var batches := traffic.batches + [buffer];
    assert batches[..|batches| - 1] == traffic.batches;
  }

  /** A batch just drained is claimed by nobody else. */
  lemma NewClaim(s: System, t: Token, sh: Shared, p: Proc)
    requires ClaimsOk(s) && ClaimsDiffer(s) && HandledOnce(s.sh.traffic)
    requires sh.traffic.handled == s.sh.traffic.handled && |s.sh.traffic.batches| <= |sh.traffic.batches|
    requires p.pc == CheckingBlock ==> |s.sh.traffic.batches| == p.batch < |sh.traffic.batches|
    ensures ClaimsOk(System(sh, s.procs[t := p])) && ClaimsDiffer(System(sh, s.procs[t := p]))
  {
  }

  lemma DrainIs(sh: Shared, p: Proc, o: Oracle)
    requires p.pc == Draining
    ensures var m, batches := Drain(sh, p, o), sh.traffic.batches;
            && (m.p.pc == CheckingBlock ==> m.p.batch == |batches| && sh.buffer != [] && o.fault == Answered)
            && (if o.fault == Dropped || sh.buffer == [] then m.sh == sh
                else m.sh == sh.(buffer := [], traffic := sh.traffic.(batches := batches + [sh.buffer])))
  {
  }

  lemma DrainConserves(s: System, t: Token, o: Oracle)
    requires Accounted(s) && t in s.procs && s.procs[t].pc == Draining
    ensures var m := Drain(s.sh, s.procs[t], o); Accounted(System(m.sh, s.procs[t := m.p]))
  {
    var m := Drain(s.sh, s.procs[t], o);
    DrainIs(s.sh, s.procs[t], o);
    NewClaim(s, t, m.sh, m.p);
    if s.sh.buffer != [] {
      DrainedIsConserved(s.sh.buffer, s.sh.traffic);
    }
  }

  /** A batch handed to a turn is claimed no more. */
  lemma ClaimSpent(s: System, t: Token, sh: Shared, p: Proc)
    requires Accounted(s) && t in s.procs && s.procs[t].pc == CheckingBlock && p.pc != CheckingBlock
    requires sh.traffic == s.sh.traffic.(handled := s.sh.traffic.handled + [s.procs[t].batch])
    ensures ClaimsOk(System(sh, s.procs[t := p])) && ClaimsDiffer(System(sh, s.procs[t := p])) && HandledOnce(sh.traffic)
  {
  }

  lemma CheckBlockConserves(s: System, t: Token, o: Oracle)
    requires Accounted(s) && t in s.procs && s.procs[t].pc == CheckingBlock
    ensures var m := CheckBlock(s.sh, s.procs[t], o); Accounted(System(m.sh, s.procs[t := m.p]))
  {
    var m := CheckBlock(s.sh, s.procs[t], o);
    if o.fault == Answered && !o.blocked {
      ClaimSpent(s, t, m.sh, m.p);
    } else {
      OthersConserve(s, t, m.sh, m.p);
    }
  }

  lemma OthersConserve(s: System, t: Token, sh: Shared, p: Proc)
    requires Accounted(s) && sh.buffer == s.sh.buffer && sh.traffic == s.sh.traffic && p.pc != CheckingBlock
    ensures Accounted(System(sh, s.procs[t := p]))
  {
  }

  lemma MoveConserves(cfg: Config, s: System, t: Token, o: Oracle)
    requires HasAllIds(cfg.mapping.tables) && Accounted(s) && t in s.procs && InSection(s.procs[t])
    ensures var m := Advance(cfg, s.sh, t, s.procs[t], o); Accounted(System(m.sh, s.procs[t := m.p]))
  {
    var p := s.procs[t];
    var m := Advance(cfg, s.sh, t, p, o);
    if p.pc == Draining {
      DrainConserves(s, t, o);
    } else if p.pc == CheckingBlock {
      CheckBlockConserves(s, t, o);
    } else {
      assert Framed(s.sh, p, m);
      OthersConserve(s, t, m.sh, m.p);
    }
  }

  lemma LockingConserves(s: System, t: Token, fault: CallFault)
    requires Accounted(s) && t in s.procs && s.procs[t].pc == Waiting
    ensures var m := Locking(s.sh, t, s.procs[t], fault); Accounted(System(m.sh, s.procs[t := m.p]))
  {
    var m := Locking(s.sh, t, s.procs[t], fault);
    OthersConserve(s, t, m.sh, m.p);
  }

  lemma ProcessConserves(cfg: Config, s: System, e: Event)
    requires HasAllIds(cfg.mapping.tables) && Accounted(s) && Possible(cfg, s, e) && (e.Spawn? || e.Crash?)
    ensures Accounted(Happen(cfg, s, e))
  {
    if e.Spawn? {
      OthersConserve(s, e.token, s.sh, NewProc(e.kind, e.connector, e.ttl));
    } else {
      OthersConserve(s, e.token, Settled(s.sh, s.procs[e.token]), s.procs[e.token].(pc := Gone));
    }
  }

  lemma WorldConserves(cfg: Config, s: System, e: Event)
    requires HasAllIds(cfg.mapping.tables) && Accounted(s) && Possible(cfg, s, e) && (e.Tick? || e.Receive? || e.Outside?)
    ensures Accounted(Happen(cfg, s, e))
  {
  }

  lemma StepConserves(cfg: Config, s: System, e: Event)
    requires HasAllIds(cfg.mapping.tables) && Accounted(s) && Possible(cfg, s, e)
    ensures Accounted(Happen(cfg, s, e))
  {
    match e
    case Move(t, o) => MoveConserves(cfg, s, t, o);
    case TryLock(t, fault) => LockingConserves(s, t, fault);
    case Spawn(_, _, _, _) => ProcessConserves(cfg, s, e);
    case Crash(_) => ProcessConserves(cfg, s, e);
    case _ => WorldConserves(cfg, s, e);
  }

  /** The customer's messages, in the order received, are the drained batches in the order
      drained, then the buffer: each batch is a non-empty contiguous block of the conversation,
      and none reaches a turn twice. */
  lemma {:induction false} MessagesAreConserved(cfg: Config, states: seq<System>, events: seq<Event>, i: nat)
    requires IsRun(cfg, states, events) && i < |states|
    ensures Accounted(states[i])
  {
    if i > 0 {
      MessagesAreConserved(cfg, states, events, i - 1);
      assert StepAt(cfg, states, events, i - 1);
      StepConserves(cfg, states[i - 1], events[i - 1]);
    }
  }
}
