/** Exactly when a buffered message is left with no flush on its way. A timer may still start one:
    `Delivery` takes the timers into account. */
module ProtocolStranded {
  import opened LeadPayload
  import opened HandoffRuns
  import opened Leases
  import opened ProtocolState
  import opened Protocol

  /** A flush that will still drain the buffer, if nothing goes wrong. */
  predicate Awaits(p: Proc) {
    p.kind.Flush? && (p.pc == Waiting || p.pc == Draining)
  }

  predicate Awaited(s: System) {
    exists t :: t in s.procs && Awaits(s.procs[t])
  }

  predicate AwaitedBesides(s: System, t: Token) {
    exists u :: u in s.procs && u != t && Awaits(s.procs[u])
  }

  predicate Stranded(s: System) {
    s.sh.buffer != [] && !Awaited(s)
  }

  /** The event turns the flush `t` away before it has drained: its lock request is refused or
      lost, its drain is dropped, or it dies. */
  predicate TurnsAway(s: System, e: Event, t: Token) {
    && t in s.procs && Awaits(s.procs[t])
    && match e
       case TryLock(u, fault) => u == t && (fault != Answered || InForce(s.sh.lock, s.sh.now).Some?)
       case Move(u, o) => u == t && o.fault == Dropped
       case Crash(u) => u == t
       case _ => false
  }

  /** The event strands a message: the last flush for it is turned away, or it arrives with no
      flush to come. */
  predicate Strands(s: System, e: Event) {
    match e
    case Receive(_) => !Awaited(s)
    case TryLock(t, _) => s.sh.buffer != [] && TurnsAway(s, e, t) && !AwaitedBesides(s, t)
    case Move(t, _) => s.sh.buffer != [] && TurnsAway(s, e, t) && !AwaitedBesides(s, t)
    case Crash(t) => s.sh.buffer != [] && TurnsAway(s, e, t) && !AwaitedBesides(s, t)
    case _ => false
  }

  predicate SpawnsFlush(e: Event) {
    e.Spawn? && e.kind.Flush?
  }

  lemma OneChanged(s: System, t: Token, sh: Shared, p: Proc)
    ensures Awaited(System(sh, s.procs[t := p])) <==> Awaits(p) || AwaitedBesides(s, t)
    ensures t in s.procs ==> (Awaited(s) <==> Awaits(s.procs[t]) || AwaitedBesides(s, t))
  {
    var after := System(sh, s.procs[t := p]);
    if Awaits(p) {
      assert Awaits(after.procs[t]);
    }
    if AwaitedBesides(s, t) {
      var u :| u in s.procs && u != t && Awaits(s.procs[u]);
      assert Awaits(after.procs[u]);
    }
  }

  /** After any await a process waits no more, and only a drain that got through empties the
      buffer. */
  lemma DrainEmpties(sh: Shared, p: Proc, o: Oracle)
    requires p.pc == Draining
    ensures Drain(sh, p, o).sh.buffer == if o.fault == Dropped then sh.buffer else []
  {
  }

  lemma MoveEmpties(cfg: Config, sh: Shared, t: Token, p: Proc, o: Oracle)
    requires HasAllIds(cfg.mapping.tables) && InSection(p)
    ensures var m := Advance(cfg, sh, t, p, o);
            !Awaits(m.p) && m.sh.buffer == if p.pc == Draining && o.fault != Dropped then [] else sh.buffer
  {
    assert Framed(sh, p, Advance(cfg, sh, t, p, o));
    if p.pc == Draining {
      DrainEmpties(sh, p, o);
    }
  }

  /** A change of one process, and of the buffer only by emptying it. */
  lemma ChangeStrands(s: System, t: Token, sh: Shared, p: Proc)
    requires t in s.procs && !Awaits(p) && (sh.buffer == s.sh.buffer || sh.buffer == [])
    ensures Stranded(System(sh, s.procs[t := p])) <==> sh.buffer != [] && !AwaitedBesides(s, t)
    ensures Stranded(s) <==> s.sh.buffer != [] && !Awaits(s.procs[t]) && !AwaitedBesides(s, t)
  {
    OneChanged(s, t, sh, p);
  }

  lemma MoveStrands(cfg: Config, s: System, t: Token, o: Oracle)
    requires HasAllIds(cfg.mapping.tables) && t in s.procs && InSection(s.procs[t])
    requires s.procs[t].pc == Draining ==> s.procs[t].kind.Flush?
    ensures var m := Advance(cfg, s.sh, t, s.procs[t], o);
            Stranded(System(m.sh, s.procs[t := m.p])) <==> Stranded(s) || Strands(s, Move(t, o))
  {
    var m := Advance(cfg, s.sh, t, s.procs[t], o);
    MoveEmpties(cfg, s.sh, t, s.procs[t], o);
    ChangeStrands(s, t, m.sh, m.p);
  }

  lemma TryLockStrands(s: System, t: Token, fault: CallFault)
    requires t in s.procs && s.procs[t].pc == Waiting
    ensures var m := Locking(s.sh, t, s.procs[t], fault);
            Stranded(System(m.sh, s.procs[t := m.p])) <==> Stranded(s) || Strands(s, TryLock(t, fault))
  {
    var m := Locking(s.sh, t, s.procs[t], fault);
    OneChanged(s, t, m.sh, m.p);
  }

  lemma CrashStrands(s: System, t: Token)
    requires t in s.procs
    ensures var after := System(Settled(s.sh, s.procs[t]), s.procs[t := s.procs[t].(pc := Gone)]);
            Stranded(after) <==> Stranded(s) || Strands(s, Crash(t))
  {
    ChangeStrands(s, t, Settled(s.sh, s.procs[t]), s.procs[t].(pc := Gone));
  }

  lemma SpawnStrands(s: System, t: Token, kind: Kind, connector: bool, ttl: real)
    requires t !in s.procs
    ensures Stranded(s.(procs := s.procs[t := NewProc(kind, connector, ttl)])) <==> Stranded(s) && !kind.Flush?
  {
    OneChanged(s, t, s.sh, NewProc(kind, connector, ttl));
    if Awaited(s) {
      var u :| u in s.procs && Awaits(s.procs[u]);
      assert u != t;
    }
  }

  /** Only flushes drain. */
  predicate DrainersFlush(s: System) {
    forall t :: t in s.procs && s.procs[t].pc == Draining ==> s.procs[t].kind.Flush?
  }

  lemma OneDrains(s: System, t: Token, sh: Shared, p: Proc)
    requires DrainersFlush(s) && (p.pc == Draining ==> p.kind.Flush?)
    ensures DrainersFlush(System(sh, s.procs[t := p]))
  {
  }

  lemma MoveKeepsDrainers(cfg: Config, s: System, t: Token, o: Oracle)
    requires HasAllIds(cfg.mapping.tables) && DrainersFlush(s) && t in s.procs && InSection(s.procs[t])
    ensures var m := Advance(cfg, s.sh, t, s.procs[t], o); DrainersFlush(System(m.sh, s.procs[t := m.p]))
  {
    var m := Advance(cfg, s.sh, t, s.procs[t], o);
    assert Framed(s.sh, s.procs[t], m);
    OneDrains(s, t, m.sh, m.p);
  }

  lemma LockingKeepsDrainers(s: System, t: Token, fault: CallFault)
    requires DrainersFlush(s) && t in s.procs && s.procs[t].pc == Waiting
    ensures var m := Locking(s.sh, t, s.procs[t], fault); DrainersFlush(System(m.sh, s.procs[t := m.p]))
  {
    var m := Locking(s.sh, t, s.procs[t], fault);
    OneDrains(s, t, m.sh, m.p);
  }

  lemma OthersKeepDrainers(cfg: Config, s: System, e: Event)
    requires HasAllIds(cfg.mapping.tables) && DrainersFlush(s) && Possible(cfg, s, e) && !e.Move? && !e.TryLock?
    ensures DrainersFlush(Happen(cfg, s, e))
  {
  }

  lemma StepKeepsDrainers(cfg: Config, s: System, e: Event)
    requires HasAllIds(cfg.mapping.tables) && DrainersFlush(s) && Possible(cfg, s, e)
    ensures DrainersFlush(Happen(cfg, s, e))
  {
    if e.Move? {
      MoveKeepsDrainers(cfg, s, e.token, e.oracle);
    } else if e.TryLock? {
      LockingKeepsDrainers(s, e.token, e.fault);
    } else {
      OthersKeepDrainers(cfg, s, e);
    }
  }

  /** Exactly what each event does: a stranded message stays stranded until a flush is started,
      and a message becomes stranded when the last flush for it is turned away, or when it
      arrives with no flush to come. */
  lemma StepStrandsExactly(cfg: Config, s: System, e: Event)
    requires HasAllIds(cfg.mapping.tables) && DrainersFlush(s) && Possible(cfg, s, e)
    ensures Stranded(Happen(cfg, s, e)) <==> (Stranded(s) && !SpawnsFlush(e)) || Strands(s, e)
  {
    match e
    case Move(t, o) => MoveStrands(cfg, s, t, o);
    case TryLock(t, fault) => TryLockStrands(s, t, fault);
    case Crash(t) => CrashStrands(s, t);
    case Spawn(t, kind, connector, ttl) => SpawnStrands(s, t, kind, connector, ttl);
    case _ =>
  }

  // ---- Runs ----

  /** Event `j` stranded a message, and no flush has been started between it and state `i`. */
  ghost predicate StrandedSince(states: seq<System>, events: seq<Event>, j: int, i: int)
    requires |states| == |events| + 1 && 0 <= j < i < |states|
  {
    Strands(states[j], events[j]) && forall k :: j < k < i ==> !SpawnsFlush(events[k])
  }

  lemma {:induction false} RunKeepsDrainers(cfg: Config, states: seq<System>, events: seq<Event>, i: nat)
    requires IsRun(cfg, states, events) && i < |states|
    ensures DrainersFlush(states[i])
  {
    if i > 0 {
      RunKeepsDrainers(cfg, states, events, i - 1);
      assert StepAt(cfg, states, events, i - 1);
      StepKeepsDrainers(cfg, states[i - 1], events[i - 1]);
    }
  }

  lemma StateStrandsExactly(cfg: Config, states: seq<System>, events: seq<Event>, i: nat)
    requires IsRun(cfg, states, events) && i < |events|
    ensures Stranded(states[i + 1]) <==> (Stranded(states[i]) && !SpawnsFlush(events[i])) || Strands(states[i], events[i])
  {
    RunKeepsDrainers(cfg, states, events, i);
    assert StepAt(cfg, states, events, i);
    StepStrandsExactly(cfg, states[i], events[i]);
  }

  /** In every run, however slow its processes: a message is stranded if and only if some event
      stranded one and no flush has been started since. */
  lemma {:induction false} StrandedExactly(cfg: Config, states: seq<System>, events: seq<Event>, i: nat)
    requires IsRun(cfg, states, events) && i < |states|
    ensures Stranded(states[i]) <==> exists j :: 0 <= j < i && StrandedSince(states, events, j, i)
  {
    if i > 0 {
      var n := i - 1;
      StrandedExactly(cfg, states, events, n);
      StateStrandsExactly(cfg, states, events, n);
      forall j | 0 <= j < n
        ensures StrandedSince(states, events, j, i) <==> StrandedSince(states, events, j, n) && !SpawnsFlush(events[n])
      {
      }
      assert StrandedSince(states, events, n, i) <==> Strands(states[n], events[n]);
    }
  }
}
