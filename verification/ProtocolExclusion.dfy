/** Mutual exclusion of a sender's flushes and sweeps, and exactly what it depends on. */
module ProtocolExclusion {
  import opened Prelude
  import opened LeadPayload
  import opened HandoffRuns
  import opened Leases
  import opened ProtocolState
  import opened Protocol

  predicate Exclusive(s: System) {
    forall t, u :: t in s.procs && u in s.procs && InSection(s.procs[t]) && InSection(s.procs[u]) ==> t == u
  }

  /** Whoever is in its section and in time still owns the key. */
  predicate Owns(sh: Shared, t: Token, p: Proc) {
    InSection(p) && sh.now < p.expires ==> sh.lock == Some(Lease(t, p.expires))
  }

  predicate Owned(s: System) {
    forall t :: t in s.procs ==> Owns(s.sh, t, s.procs[t])
  }

  /** What a change of shared state and of one process must respect. */
  predicate LeavesOthers(s: System, t: Token, sh: Shared) {
    && s.sh.now <= sh.now
    && forall u :: u in s.procs && u != t && Owns(s.sh, u, s.procs[u]) ==> Owns(sh, u, s.procs[u])
  }

  lemma OneMoved(s: System, t: Token, sh: Shared, p: Proc)
    requires Owned(s) && LeavesOthers(s, t, sh) && Owns(sh, t, p)
    ensures Owned(System(sh, s.procs[t := p]))
  {
  }

  lemma LeaveKeepsOwn(sh: Shared, t: Token, p: Proc, o: Oracle)
    requires p.pc == Leaving
    ensures var m := Leave(sh, p, t, o);
            && Owns(m.sh, t, m.p) && m.sh.now == sh.now
            && (m.sh.lock == sh.lock || m.sh.lock == CompareAndDelete(sh.lock, sh.now, t))
  {
  }

  lemma AdvanceKeepsOwn(cfg: Config, sh: Shared, t: Token, p: Proc, o: Oracle)
    requires HasAllIds(cfg.mapping.tables) && InSection(p) && Owns(sh, t, p)
    ensures var m := Advance(cfg, sh, t, p, o);
            && Owns(m.sh, t, m.p) && m.sh.now == sh.now
            && (m.sh.lock == sh.lock || m.sh.lock == CompareAndDelete(sh.lock, sh.now, t))
  {
    if p.pc == Leaving {
      LeaveKeepsOwn(sh, t, p, o);
    } else {
      assert Framed(sh, p, Advance(cfg, sh, t, p, o));
    }
  }

  lemma MoveKeepsOwned(cfg: Config, s: System, t: Token, o: Oracle)
    requires HasAllIds(cfg.mapping.tables) && Owned(s) && t in s.procs && InSection(s.procs[t])
    ensures var m := Advance(cfg, s.sh, t, s.procs[t], o); Owned(System(m.sh, s.procs[t := m.p]))
  {
    var m := Advance(cfg, s.sh, t, s.procs[t], o);
    AdvanceKeepsOwn(cfg, s.sh, t, s.procs[t], o);
    OneMoved(s, t, m.sh, m.p);
  }

  lemma TryLockKeepsOwned(s: System, t: Token, fault: CallFault)
    requires Owned(s) && t in s.procs && s.procs[t].pc == Waiting
    ensures var m := Locking(s.sh, t, s.procs[t], fault); Owned(System(m.sh, s.procs[t := m.p]))
  {
    var m := Locking(s.sh, t, s.procs[t], fault);
    OneMoved(s, t, m.sh, m.p);
  }

  lemma StepKeepsOwned(cfg: Config, s: System, e: Event)
    requires HasAllIds(cfg.mapping.tables) && Owned(s) && Possible(cfg, s, e)
    ensures Owned(Happen(cfg, s, e))
  {
    match e
    case Move(t, o) => MoveKeepsOwned(cfg, s, t, o);
    case TryLock(t, fault) => TryLockKeepsOwned(s, t, fault);
    case Spawn(t, kind, connector, ttl) => OneMoved(s, t, s.sh, NewProc(kind, connector, ttl));
    case Crash(t) => OneMoved(s, t, Settled(s.sh, s.procs[t]), s.procs[t].(pc := Gone));
    case _ =>
  }

  /** In every run, with any delays: a process that is in its section and in time owns the key. */
  lemma {:induction false} RunKeepsOwned(cfg: Config, states: seq<System>, events: seq<Event>, i: nat)
    requires IsRun(cfg, states, events) && i < |states|
    ensures Owned(states[i])
  {
    if i > 0 {
      RunKeepsOwned(cfg, states, events, i - 1);
      assert StepAt(cfg, states, events, i - 1);
      StepKeepsOwned(cfg, states[i - 1], events[i - 1]);
    }
  }

  /** Granting a free key keeps mutual exclusion if and only if everyone was in time. */
  lemma GrantExcludesExactly(s: System, t: Token)
    requires Owned(s) && t in s.procs && s.procs[t].pc == Waiting && InForce(s.sh.lock, s.sh.now).None?
    ensures var m := Locking(s.sh, t, s.procs[t], Answered); Exclusive(System(m.sh, s.procs[t := m.p])) <==> InTime(s)
  {
    var m := Locking(s.sh, t, s.procs[t], Answered);
    var after := System(m.sh, s.procs[t := m.p]);
    assert InSection(after.procs[t]);
    if !InTime(s) {
      var u :| u in s.procs && InSection(s.procs[u]) && s.sh.now >= s.procs[u].expires;
      assert u != t && u in after.procs && InSection(after.procs[u]);
    }
  }

  /** Nobody enters a section except by being granted the key. */
  lemma OnlyGrantsEnter(cfg: Config, s: System, e: Event)
    requires HasAllIds(cfg.mapping.tables) && Exclusive(s) && Possible(cfg, s, e) && !Grants(s, e)
    ensures Exclusive(Happen(cfg, s, e))
  {
  }

  lemma StepExcludesExactly(cfg: Config, s: System, e: Event)
    requires HasAllIds(cfg.mapping.tables) && Owned(s) && Exclusive(s) && Possible(cfg, s, e)
    ensures Exclusive(Happen(cfg, s, e)) <==> (Grants(s, e) ==> InTime(s))
  {
    if Grants(s, e) {
      GrantExcludesExactly(s, e.token);
    } else {
      OnlyGrantsEnter(cfg, s, e);
    }
  }

  lemma NextExcludesExactly(cfg: Config, states: seq<System>, events: seq<Event>, n: nat)
    requires IsRun(cfg, states, events) && 0 < n < |states| && Exclusive(states[n - 1])
    ensures Exclusive(states[n]) <==> TimelyAt(states, events, n - 1)
  {
    RunKeepsOwned(cfg, states, events, n - 1);
    assert StepAt(cfg, states, events, n - 1);
    StepExcludesExactly(cfg, states[n - 1], events[n - 1]);
  }

  /** Mutual exclusion over a whole run holds if and only if, whenever the key was granted,
      every process still in its section was within its lease. */
  lemma {:induction false} ExclusionUpTo(cfg: Config, states: seq<System>, events: seq<Event>, n: nat)
    requires IsRun(cfg, states, events) && n < |states|
    ensures (forall i :: 0 <= i <= n ==> Exclusive(states[i])) <==> forall i :: 0 <= i < n ==> TimelyAt(states, events, i)
  {
    if n > 0 {
      ExclusionUpTo(cfg, states, events, n - 1);
      if Exclusive(states[n - 1]) {
        NextExcludesExactly(cfg, states, events, n);
      }
    }
  }

  lemma ExclusionExactly(cfg: Config, states: seq<System>, events: seq<Event>)
    requires IsRun(cfg, states, events)
    ensures (forall i :: 0 <= i < |states| ==> Exclusive(states[i])) <==> IsTimelyRun(cfg, states, events)
  {
    ExclusionUpTo(cfg, states, events, |events|);
  }

  /** A process that leaves in time gives the key back, unless the release itself is dropped. */
  lemma LeavingFreesTheKey(s: System, t: Token, o: Oracle)
    requires Owned(s) && t in s.procs && s.procs[t].pc == Leaving && s.sh.now < s.procs[t].expires
    ensures Leave(s.sh, s.procs[t], t, o).sh.lock == if o.fault == Dropped then s.sh.lock else None
  {
    assert Owns(s.sh, t, s.procs[t]);
  }

  /** One that leaves late takes nobody else's lease with it. */
  lemma LeavingLateTakesNothing(s: System, t: Token, u: Token, o: Oracle)
    requires Owned(s) && t in s.procs && s.procs[t].pc == Leaving
    requires u in s.procs && u != t && InSection(s.procs[u]) && s.sh.now < s.procs[u].expires
    ensures Leave(s.sh, s.procs[t], t, o).sh.lock == s.sh.lock == Some(Lease(u, s.procs[u].expires))
  {
    assert Owns(s.sh, u, s.procs[u]);
  }
}
