/** A sweep only hands off conversations that have been silent for the whole window. */
module ProtocolSweep {
  import opened Prelude
  import opened Conversations
  import opened TurnDecisions
  import opened LeadPayload
  import opened HandoffRuns
  import opened Leases
  import opened ProtocolState
  import opened Protocol
  import opened ProtocolInvariant
  import opened ProtocolSafety
  import opened ProtocolRuns

  // ---- Sweeps ----

  /** The silence window had passed when the sweep started. */
  predicate WindowPassed(cfg: Config, armedAt: Option<real>, kind: Kind) {
    kind.Sweep? && armedAt.Some? && armedAt.value + cfg.silence <= kind.asOf
  }

  predicate SweepOk(cfg: Config, sh: Shared, p: Proc) {
    p.kind.Sweep? ==> !TakingTurn(p.pc) && (HandingOff(p.pc) ==> WindowPassed(cfg, sh.deeds.armedAt, p.kind))
  }

  ghost predicate SweepsOk(cfg: Config, s: System) {
    forall t :: t in s.procs && InSection(s.procs[t]) ==> SweepOk(cfg, s.sh, s.procs[t])
  }

  /** A sweep goes on if and only if the record it loads is still collecting and its deadline has
      passed. */
  lemma SweepGoesOnExactly(sh: Shared, p: Proc, o: Oracle)
    requires p.pc == Loading && p.kind.Sweep?
    ensures var c := Durable(sh.db);
            HandingOff(Load(sh, p, o).p.pc)
            <==> o.fault == Answered && c.phase == Collecting && c.deadline.Some? && c.deadline.value <= p.kind.asOf
  {
    assert Framed(sh, p, Load(sh, p, o));
  }

  /** A flush thinks about a collecting record as it is stored, and stays silent about any other. */
  lemma FlushGoesOnExactly(sh: Shared, p: Proc, o: Oracle)
    requires p.pc == Loading && p.kind.Flush?
    ensures var c, q := Durable(sh.db), Load(sh, p, o).p;
            && (q.pc == Thinking <==> o.fault == Answered && c.phase == Collecting)
            && (q.pc == Silencing <==> o.fault == Answered && c.phase == HandedOff)
            && (q.pc == Thinking || q.pc == Silencing ==> q.conv == c)
            && (q.pc == Thinking || q.pc == Silencing || q.pc == Leaving)
  {
  }

  /** Before the save of a turn the deadline is set a full silence from now if the name is known,
      and nothing else of the record changes. */
  lemma ArmsExactly(cfg: Config, sh: Shared, p: Proc)
    requires p.pc == Arming
    ensures var q := Arm(cfg, sh, p).p;
            && q.pc == SavingTurn
            && q.conv.deadline == (if NameKnown(p.conv.slots) then Some(sh.now + cfg.silence) else p.conv.deadline)
            && q.conv.(deadline := p.conv.deadline) == p.conv
  {
    ArmedExactly(p.conv, sh.now, cfg.silence);
  }

  lemma LoadKeepsSweep(cfg: Config, sh: Shared, p: Proc, o: Oracle)
    requires p.pc == Loading && RecordOk(cfg, sh.db, sh.flag, sh.now, sh.deeds)
    ensures SweepOk(cfg, Load(sh, p, o).sh, Load(sh, p, o).p)
  {
    var m := Load(sh, p, o);
    assert Framed(sh, p, m);
    if p.kind.Sweep? && HandingOff(m.p.pc) {
      SweepGoesOnExactly(sh, p, o);
    }
  }

  lemma FramedKeepsSweep(cfg: Config, sh: Shared, p: Proc, m: Moved)
    requires SweepOk(cfg, sh, p) && Framed(sh, p, m) && p.pc != Loading
    ensures SweepOk(cfg, m.sh, m.p)
  {
  }

  lemma MoveKeepsSweeps(cfg: Config, s: System, t: Token, o: Oracle)
    requires HasAllIds(cfg.mapping.tables) && Inv(cfg, s) && t in s.procs && InSection(s.procs[t])
    requires SweepsOk(cfg, s)
    ensures var m := Advance(cfg, s.sh, t, s.procs[t], o); SweepsOk(cfg, System(m.sh, s.procs[t := m.p]))
  {
    var p := s.procs[t];
    var m := Advance(cfg, s.sh, t, p, o);
    assert Good(cfg, s.sh, p) && Framed(s.sh, p, m);
    if p.pc == Loading {
      LoadKeepsSweep(cfg, s.sh, p, o);
    } else {
      FramedKeepsSweep(cfg, s.sh, p, m);
    }
  }

  lemma OneSwept(cfg: Config, s: System, t: Token, sh: Shared, p: Proc)
    requires SweepsOk(cfg, s) && sh.deeds == s.sh.deeds && (InSection(p) ==> SweepOk(cfg, sh, p))
    ensures SweepsOk(cfg, System(sh, s.procs[t := p]))
  {
  }

  lemma LockingKeepsSweeps(cfg: Config, s: System, t: Token, fault: CallFault)
    requires SweepsOk(cfg, s) && t in s.procs && s.procs[t].pc == Waiting
    ensures var m := Locking(s.sh, t, s.procs[t], fault); SweepsOk(cfg, System(m.sh, s.procs[t := m.p]))
  {
    var m := Locking(s.sh, t, s.procs[t], fault);
    OneSwept(cfg, s, t, m.sh, m.p);
  }

  lemma OthersKeepSweeps(cfg: Config, s: System, e: Event)
    requires HasAllIds(cfg.mapping.tables) && SweepsOk(cfg, s) && Possible(cfg, s, e) && !e.Move? && !e.TryLock?
    ensures SweepsOk(cfg, Happen(cfg, s, e))
  {
  }

  lemma StepKeepsSweeps(cfg: Config, s: System, e: Event)
    requires HasAllIds(cfg.mapping.tables) && Inv(cfg, s) && Possible(cfg, s, e)
    requires SweepsOk(cfg, s)
    ensures SweepsOk(cfg, Happen(cfg, s, e))
  {
    if e.Move? {
      MoveKeepsSweeps(cfg, s, e.token, e.oracle);
    } else if e.TryLock? {
      LockingKeepsSweeps(cfg, s, e.token, e.fault);
    } else {
      OthersKeepSweeps(cfg, s, e);
    }
  }

  lemma NextKeepsSweeps(cfg: Config, states: seq<System>, events: seq<Event>, i: nat)
    requires IsTimelyRun(cfg, states, events) && i < |events| && SweepsOk(cfg, states[i])
    ensures SweepsOk(cfg, states[i + 1])
  {
    RunSatisfiesInv(cfg, states, events, i);
    assert StepAt(cfg, states, events, i);
    StepKeepsSweeps(cfg, states[i], events[i]);
  }

  lemma {:induction false} RunKeepsSweeps(cfg: Config, states: seq<System>, events: seq<Event>, i: nat)
    requires IsTimelyRun(cfg, states, events) && i < |states|
    ensures SweepsOk(cfg, states[i])
  {
    if i > 0 {
      RunKeepsSweeps(cfg, states, events, i - 1);
      NextKeepsSweeps(cfg, states, events, i - 1);
    }
  }

  /** Whenever a sweep is anywhere in a handoff (in particular when it posts the note or flips
      the phase), the last saved turn that armed the deadline was a full silence window before
      the time the sweep works with, which is not in the future. */
  lemma SweepHandsOffOnlyDue(cfg: Config, states: seq<System>, events: seq<Event>, i: nat, t: Token)
    requires IsTimelyRun(cfg, states, events) && i < |states| && t in states[i].procs
    requires states[i].procs[t].kind.Sweep? && HandingOff(states[i].procs[t].pc)
    ensures var armedAt, asOf := states[i].sh.deeds.armedAt, states[i].procs[t].kind.asOf;
            armedAt.Some? && armedAt.value + cfg.silence <= asOf <= states[i].sh.now
  {
    RunSatisfiesInv(cfg, states, events, i);
    RunKeepsSweeps(cfg, states, events, i);
    assert Started(states[i].procs[t], states[i].sh.now);
  }
}
