/** Exactly which drained batches never reach a turn. */
module ProtocolBatches {
  import opened LeadPayload
  import opened HandoffRuns
  import opened Leases
  import opened ProtocolState
  import opened Protocol
  import opened ProtocolAnyRun

  /** The process has drained the batch, and not asked yet whether the sender is blocked. */
  predicate Holds(p: Proc, k: int) {
    p.pc == CheckingBlock && p.batch == k
  }

  predicate Held(s: System, k: int) {
    exists t :: t in s.procs && Holds(s.procs[t], k)
  }

  predicate HeldBesides(s: System, t: Token, k: int) {
    exists u :: u in s.procs && u != t && Holds(s.procs[u], k)
  }

  /** Drained from the buffer, handed to no turn, and in nobody's hands any more. */
  predicate Lost(s: System, k: int) {
    0 <= k < |s.sh.traffic.batches| && k !in s.sh.traffic.handled && !Held(s, k)
  }

  /** The event loses batch `k`: the answer of its drain is lost, the check of the block fails or
      says that the sender is blocked, or its process dies in between. */
  predicate Loses(s: System, e: Event, k: int) {
    match e
    case Move(t, o) =>
      && t in s.procs
      && (|| (s.procs[t].pc == Draining && s.sh.buffer != [] && o.fault == AnswerLost && k == |s.sh.traffic.batches|)
          || (Holds(s.procs[t], k) && (o.fault != Answered || o.blocked)))
    case Crash(t) => t in s.procs && Holds(s.procs[t], k)
    case _ => false
  }

  lemma OneChanged(s: System, t: Token, sh: Shared, p: Proc, k: int)
    ensures Held(System(sh, s.procs[t := p]), k) <==> Holds(p, k) || HeldBesides(s, t, k)
    ensures t in s.procs ==> (Held(s, k) <==> Holds(s.procs[t], k) || HeldBesides(s, t, k))
  {
    var after := System(sh, s.procs[t := p]);
    if Holds(p, k) {
      assert Holds(after.procs[t], k);
    }
    if HeldBesides(s, t, k) {
      var u :| u in s.procs && u != t && Holds(s.procs[u], k);
      assert Holds(after.procs[u], k);
    }
  }

  /** Whoever holds a batch is alone with it, and it is a drained one not handed on yet. */
  lemma HolderIsAlone(s: System, t: Token, k: int)
    requires Accounted(s) && t in s.procs && Holds(s.procs[t], k)
    ensures !HeldBesides(s, t, k) && 0 <= k < |s.sh.traffic.batches| && k !in s.sh.traffic.handled
  {
  }

  lemma NobodyHoldsTheNext(s: System)
    requires Accounted(s)
    ensures !Held(s, |s.sh.traffic.batches|)
  {
  }

  lemma DrainLoses(s: System, t: Token, o: Oracle, k: int)
    requires Accounted(s) && t in s.procs && s.procs[t].pc == Draining
    ensures var m := Drain(s.sh, s.procs[t], o);
            Lost(System(m.sh, s.procs[t := m.p]), k) <==> Lost(s, k) || Loses(s, Move(t, o), k)
  {
    var m := Drain(s.sh, s.procs[t], o);
    OneChanged(s, t, m.sh, m.p, k);
    NobodyHoldsTheNext(s);
  }

  lemma CheckBlockLoses(s: System, t: Token, o: Oracle, k: int)
    requires Accounted(s) && t in s.procs && s.procs[t].pc == CheckingBlock
    ensures var m := CheckBlock(s.sh, s.procs[t], o);
            Lost(System(m.sh, s.procs[t := m.p]), k) <==> Lost(s, k) || Loses(s, Move(t, o), k)
  {
    var m := CheckBlock(s.sh, s.procs[t], o);
    OneChanged(s, t, m.sh, m.p, k);
    HolderIsAlone(s, t, s.procs[t].batch);
  }

  /** Nothing else has batches in its hands. */
  lemma OthersLose(s: System, t: Token, sh: Shared, p: Proc, k: int)
    requires sh.traffic.batches == s.sh.traffic.batches && sh.traffic.handled == s.sh.traffic.handled
    requires p.pc != CheckingBlock && (t in s.procs ==> s.procs[t].pc != CheckingBlock)
    ensures Lost(System(sh, s.procs[t := p]), k) <==> Lost(s, k)
  {
    OneChanged(s, t, sh, p, k);
    if Held(s, k) {
      var u :| u in s.procs && Holds(s.procs[u], k);
      assert u != t;
    }
  }

  lemma MoveLoses(cfg: Config, s: System, t: Token, o: Oracle, k: int)
    requires HasAllIds(cfg.mapping.tables) && Accounted(s) && t in s.procs && InSection(s.procs[t])
    ensures var m := Advance(cfg, s.sh, t, s.procs[t], o);
            Lost(System(m.sh, s.procs[t := m.p]), k) <==> Lost(s, k) || Loses(s, Move(t, o), k)
  {
    var p := s.procs[t];
    if p.pc == Draining {
      DrainLoses(s, t, o, k);
    } else if p.pc == CheckingBlock {
      CheckBlockLoses(s, t, o, k);
    } else {
      var m := Advance(cfg, s.sh, t, p, o);
      assert Framed(s.sh, p, m);
      OthersLose(s, t, m.sh, m.p, k);
    }
  }

  lemma CrashLoses(s: System, t: Token, k: int)
    requires Accounted(s) && t in s.procs
    ensures var after := System(Settled(s.sh, s.procs[t]), s.procs[t := s.procs[t].(pc := Gone)]);
            Lost(after, k) <==> Lost(s, k) || Loses(s, Crash(t), k)
  {
    OneChanged(s, t, Settled(s.sh, s.procs[t]), s.procs[t].(pc := Gone), k);
    if Holds(s.procs[t], k) {
      HolderIsAlone(s, t, k);
    }
  }

  lemma TryLockLoses(s: System, t: Token, fault: CallFault, k: int)
    requires t in s.procs && s.procs[t].pc == Waiting
    ensures var m := Locking(s.sh, t, s.procs[t], fault); Lost(System(m.sh, s.procs[t := m.p]), k) <==> Lost(s, k)
  {
    var m := Locking(s.sh, t, s.procs[t], fault);
    OthersLose(s, t, m.sh, m.p, k);
  }

  /** Exactly what each event does: a lost batch stays lost, and one is lost only between its drain
      and its turn. */
  lemma StepLosesExactly(cfg: Config, s: System, e: Event, k: int)
    requires HasAllIds(cfg.mapping.tables) && Accounted(s) && Possible(cfg, s, e)
    ensures Lost(Happen(cfg, s, e), k) <==> Lost(s, k) || Loses(s, e, k)
  {
    match e
    case Move(t, o) => MoveLoses(cfg, s, t, o, k);
    case TryLock(t, fault) => TryLockLoses(s, t, fault, k);
    case Crash(t) => CrashLoses(s, t, k);
    case Spawn(t, kind, connector, ttl) => OthersLose(s, t, s.sh, NewProc(kind, connector, ttl), k);
    case _ =>
  }

  // ---- Runs ----

  predicate LosesAt(states: seq<System>, events: seq<Event>, j: int, k: int)
    requires |states| == |events| + 1 && 0 <= j < |events|
  {
    Loses(states[j], events[j], k)
  }

  lemma StateLosesExactly(cfg: Config, states: seq<System>, events: seq<Event>, i: nat, k: int)
    requires IsRun(cfg, states, events) && i < |events|
    ensures Lost(states[i + 1], k) <==> Lost(states[i], k) || LosesAt(states, events, i, k)
  {
    MessagesAreConserved(cfg, states, events, i);
    assert StepAt(cfg, states, events, i);
    StepLosesExactly(cfg, states[i], events[i], k);
  }

  /** In every run, however slow its processes: a batch is lost if and only if some event lost
      it. */
  lemma {:induction false} LostExactly(cfg: Config, states: seq<System>, events: seq<Event>, i: nat, k: int)
    requires IsRun(cfg, states, events) && i < |states|
    ensures Lost(states[i], k) <==> exists j :: 0 <= j < i && LosesAt(states, events, j, k)
  {
    if i > 0 {
      LostExactly(cfg, states, events, i - 1, k);
      StateLosesExactly(cfg, states, events, i - 1, k);
    }
  }

  /** So a drained batch has reached a turn, once, or will be asked about by the one process that
      holds it, unless an event has lost it. */
  lemma EveryBatchReachesATurnExactly(cfg: Config, states: seq<System>, events: seq<Event>, i: nat, k: int)
    requires IsRun(cfg, states, events) && i < |states| && 0 <= k < |states[i].sh.traffic.batches|
    ensures k in states[i].sh.traffic.handled || Held(states[i], k)
            <==> !exists j :: 0 <= j < i && LosesAt(states, events, j, k)
    ensures !(k in states[i].sh.traffic.handled && Held(states[i], k))
  {
    LostExactly(cfg, states, events, i, k);
    MessagesAreConserved(cfg, states, events, i);
  }
}
