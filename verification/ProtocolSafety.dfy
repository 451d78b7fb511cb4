/** The handoff protocol's invariant over the whole system: every kind of event keeps it. */
module ProtocolSafety {
  import opened Prelude
  import opened LeadPayload
  import opened Crm
  import opened HandoffRuns
  import opened Leases
  import opened ProtocolState
  import opened Protocol
  import opened ProtocolInvariant
  import opened ProtocolExclusion

  predicate Nobody(s: System) {
    forall t :: t in s.procs ==> !InSection(s.procs[t])
  }

  predicate Started(p: Proc, now: real) {
    && (p.pc == Waiting ==> NothingDone(p))
    && (p.kind.Sweep? ==> p.kind.asOf <= now)
  }

  predicate Fresh(s: System) {
    forall t :: t in s.procs ==> Started(s.procs[t], s.sh.now)
  }

  ghost predicate Coherent(cfg: Config, s: System) {
    forall t :: t in s.procs && InSection(s.procs[t]) ==> Good(cfg, s.sh, s.procs[t])
  }

  ghost predicate Inv(cfg: Config, s: System) {
    && Exclusive(s)
    && Fresh(s)
    && Coherent(cfg, s)
    && (Nobody(s) ==> Books(cfg, s.sh, 0, 0))
  }

  /** Only the holder is in its section, and stays the only one. */
  lemma HolderIsAlone(s: System, t: Token, after: System)
    requires Exclusive(s) && t in s.procs && InSection(s.procs[t])
    requires t in after.procs && after.procs == s.procs[t := after.procs[t]]
    ensures forall u :: u in after.procs && InSection(after.procs[u]) ==> u == t
    ensures Nobody(after) <==> !InSection(after.procs[t])
  {
    forall u | u in after.procs && InSection(after.procs[u]) ensures u == t {}
  }

  /** The holder moved, and either still holds or has left. */
  lemma HolderMoved(cfg: Config, s: System, t: Token, m: Moved)
    requires Inv(cfg, s) && t in s.procs && InSection(s.procs[t])
    requires Stays(s.sh, s.procs[t], m)
    requires if InSection(m.p) then Good(cfg, m.sh, m.p) else Books(cfg, m.sh, 0, 0)
    ensures Inv(cfg, System(m.sh, s.procs[t := m.p]))
  {
    HolderIsAlone(s, t, System(m.sh, s.procs[t := m.p]));
  }

  /** A process outside its section changed, and nothing it shares did. */
  lemma OutsiderMoved(cfg: Config, s: System, t: Token, p: Proc)
    requires Inv(cfg, s) && (t in s.procs ==> !InSection(s.procs[t])) && !InSection(p)
    requires Started(p, s.sh.now)
    ensures Inv(cfg, System(s.sh, s.procs[t := p]))
  {
    var after := System(s.sh, s.procs[t := p]);
    if Nobody(after) {
      forall u | u in s.procs ensures !InSection(s.procs[u]) {
        assert u != t ==> after.procs[u] == s.procs[u];
      }
    }
  }

  /** What a process relies on, and what the books say at rest, survives a change. */
  ghost predicate Preserved(cfg: Config, sh: Shared, after: Shared) {
    && (forall p :: Good(cfg, sh, p) ==> Good(cfg, after, p))
    && (Books(cfg, sh, 0, 0) ==> Books(cfg, after, 0, 0))
  }

  /** Shared state changed under everyone, keeping what each relies on. */
  lemma SharedMoved(cfg: Config, s: System, sh: Shared)
    requires Inv(cfg, s) && sh.now >= s.sh.now
    requires Preserved(cfg, s.sh, sh)
    ensures Inv(cfg, s.(sh := sh))
  {
    if Nobody(s.(sh := sh)) {
      assert Nobody(s);
    }
  }

  lemma MoveKeepsInv(cfg: Config, s: System, t: Token, o: Oracle)
    requires HasAllIds(cfg.mapping.tables) && Inv(cfg, s) && t in s.procs && InSection(s.procs[t])
    requires s.procs[t].pc == Finding && o.fault == Answered ==> ExactSearch(s.sh.crm, cfg.phone, o.matches)
    ensures var m := Advance(cfg, s.sh, t, s.procs[t], o);
            && Inv(cfg, System(m.sh, s.procs[t := m.p]))
            && Frozen(Durable(s.sh.db), Durable(m.sh.db))
            && (s.sh.flag ==> m.sh.flag)
  {
    AdvanceKeeps(cfg, s.sh, t, s.procs[t], o);
    HolderMoved(cfg, s, t, Advance(cfg, s.sh, t, s.procs[t], o));
  }

  lemma SettleKeeps(cfg: Config, sh: Shared, p: Proc)
    requires Good(cfg, sh, p)
    ensures Books(cfg, Settled(sh, p), 0, 0)
  {
  }

  lemma CrashKeepsInv(cfg: Config, s: System, t: Token)
    requires Inv(cfg, s) && t in s.procs && s.procs[t].pc != Gone
    ensures Inv(cfg, System(Settled(s.sh, s.procs[t]), s.procs[t := s.procs[t].(pc := Gone)]))
  {
    var p := s.procs[t];
    if InSection(p) {
      SettleKeeps(cfg, s.sh, p);
      HolderMoved(cfg, s, t, Moved(Settled(s.sh, p), p.(pc := Gone)));
    } else {
      assert Settled(s.sh, p) == s.sh;
      OutsiderMoved(cfg, s, t, p.(pc := Gone));
    }
  }

  lemma EnteredIsGood(cfg: Config, sh: Shared, p: Proc, lock: Option<Lease>)
    requires Books(cfg, sh, 0, 0) && NothingDone(p)
    ensures Good(cfg, sh.(lock := lock), Entered(p, sh.now))
    ensures Books(cfg, sh.(lock := lock), 0, 0)
  {
  }

  /** Entering an empty section keeps the invariant. */
  lemma EnterKeepsInv(cfg: Config, s: System, t: Token, p: Proc, lock: Option<Lease>)
    requires Inv(cfg, s) && Nobody(s) && Started(p, s.sh.now) && NothingDone(p)
    ensures Inv(cfg, System(s.sh.(lock := lock), s.procs[t := Entered(p, s.sh.now)]))
  {
    EnteredIsGood(cfg, s.sh, p, lock);
  }

  /** If the newcomer is alone in its section, the section was empty. */
  lemma AloneMeansEmpty(s: System, t: Token, p: Proc, sh: Shared)
    requires t in s.procs && !InSection(s.procs[t]) && InSection(p) && Exclusive(System(sh, s.procs[t := p]))
    ensures Nobody(s)
  {
    var after := System(sh, s.procs[t := p]);
    assert InSection(after.procs[t]);
    forall u | u in s.procs ensures !InSection(s.procs[u]) {
      assert u != t ==> u in after.procs && after.procs[u] == s.procs[u];
    }
  }

  /** A grant whose answer was lost locks the key for nobody. */
  lemma LostGrantKeepsInv(cfg: Config, s: System, t: Token, lock: Option<Lease>)
    requires Inv(cfg, s) && t in s.procs && s.procs[t].pc == Waiting
    ensures Inv(cfg, System(s.sh.(lock := lock), s.procs[t := s.procs[t].(pc := Gone)]))
  {
    LockIsNobodysBusiness(cfg, s, lock);
    OutsiderMoved(cfg, s.(sh := s.sh.(lock := lock)), t, s.procs[t].(pc := Gone));
  }

  lemma GrantKeepsInv(cfg: Config, s: System, t: Token, lock: Option<Lease>)
    requires Inv(cfg, s) && t in s.procs && s.procs[t].pc == Waiting
    requires Exclusive(System(s.sh.(lock := lock), s.procs[t := Entered(s.procs[t], s.sh.now)]))
    ensures Inv(cfg, System(s.sh.(lock := lock), s.procs[t := Entered(s.procs[t], s.sh.now)]))
  {
    var p := s.procs[t];
    assert Started(p, s.sh.now);
    AloneMeansEmpty(s, t, Entered(p, s.sh.now), s.sh.(lock := lock));
    EnterKeepsInv(cfg, s, t, p, lock);
  }

  lemma RefusedKeepsInv(cfg: Config, s: System, t: Token)
    requires Inv(cfg, s) && t in s.procs && s.procs[t].pc == Waiting
    ensures Inv(cfg, System(s.sh, s.procs[t := s.procs[t].(pc := Gone)]))
  {
    assert Started(s.procs[t], s.sh.now);
    OutsiderMoved(cfg, s, t, s.procs[t].(pc := Gone));
  }

  lemma LockPreserves(cfg: Config, sh: Shared, lock: Option<Lease>)
    ensures Preserved(cfg, sh, sh.(lock := lock))
  {
    forall p | Good(cfg, sh, p) ensures Good(cfg, sh.(lock := lock), p) {
      LockLocal(cfg, sh, lock, p);
    }
  }

  lemma LockLocal(cfg: Config, sh: Shared, lock: Option<Lease>, p: Proc)
    requires LocalOk(cfg, sh, p)
    ensures LocalOk(cfg, sh.(lock := lock), p)
  {
  }

  lemma LockIsNobodysBusiness(cfg: Config, s: System, lock: Option<Lease>)
    requires Inv(cfg, s)
    ensures Inv(cfg, s.(sh := s.sh.(lock := lock)))
  {
    LockPreserves(cfg, s.sh, lock);
    SharedMoved(cfg, s, s.sh.(lock := lock));
  }

  lemma LaterBooks(cfg: Config, sh: Shared, now: real, notes: nat, chats: nat)
    requires sh.now <= now && Books(cfg, sh, notes, chats)
    ensures Books(cfg, sh.(now := now), notes, chats)
  {
  }

  lemma TickPreserves(cfg: Config, sh: Shared, now: real)
    requires sh.now <= now
    ensures Preserved(cfg, sh, sh.(now := now))
  {
    forall p | Good(cfg, sh, p) ensures Good(cfg, sh.(now := now), p) {
      LaterBooks(cfg, sh, now, OpenNotes(p), OpenChats(p));
      LaterLocal(cfg, sh, now, p);
    }
    if Books(cfg, sh, 0, 0) {
      LaterBooks(cfg, sh, now, 0, 0);
    }
  }

  lemma LaterLocal(cfg: Config, sh: Shared, now: real, p: Proc)
    requires sh.now <= now && LocalOk(cfg, sh, p)
    ensures LocalOk(cfg, sh.(now := now), p)
  {
  }

  function WithText(sh: Shared, text: string): Shared {
    sh.(buffer := sh.buffer + [text], traffic := sh.traffic.(received := sh.traffic.received + [text]))
  }

  lemma ReceivedInBuffer(buffer: seq<string>, traffic: Traffic, text: string)
    requires BufferOk(buffer, traffic)
    ensures BufferOk(buffer + [text], traffic.(received := traffic.received + [text]))
  {
  }

  lemma ReceiveBooks(cfg: Config, sh: Shared, text: string, notes: nat, chats: nat)
    requires Books(cfg, sh, notes, chats)
    ensures Books(cfg, WithText(sh, text), notes, chats)
  {
    ReceivedInBuffer(sh.buffer, sh.traffic, text);
  }

  lemma ReceiveLocal(cfg: Config, sh: Shared, text: string, p: Proc)
    requires LocalOk(cfg, sh, p)
    ensures LocalOk(cfg, WithText(sh, text), p)
  {
  }

  lemma ReceivePreserves(cfg: Config, sh: Shared, text: string)
    ensures Preserved(cfg, sh, WithText(sh, text))
  {
    forall p | Good(cfg, sh, p) ensures Good(cfg, WithText(sh, text), p) {
      ReceiveBooks(cfg, sh, text, OpenNotes(p), OpenChats(p));
      ReceiveLocal(cfg, sh, text, p);
    }
    if Books(cfg, sh, 0, 0) {
      ReceiveBooks(cfg, sh, text, 0, 0);
    }
  }

  lemma OutsideBooks(cfg: Config, sh: Shared, crm: Crm, notes: nat, chats: nat)
    requires Books(cfg, sh, notes, chats) && Extends(sh.crm, crm)
    ensures Books(cfg, sh.(crm := crm), notes, chats)
  {
    if l :| LeadOfPhone(sh.crm, cfg.phone, l) {
      assert LeadOfPhone(crm, cfg.phone, l);
    }
  }

  lemma OutsideLocal(cfg: Config, sh: Shared, crm: Crm, p: Proc)
    requires LocalOk(cfg, sh, p) && Extends(sh.crm, crm)
    ensures LocalOk(cfg, sh.(crm := crm), p)
  {
  }

  lemma OutsidePreserves(cfg: Config, sh: Shared, crm: Crm)
    requires Extends(sh.crm, crm)
    ensures Preserved(cfg, sh, sh.(crm := crm))
  {
    forall p | Good(cfg, sh, p) ensures Good(cfg, sh.(crm := crm), p) {
      OutsideBooks(cfg, sh, crm, OpenNotes(p), OpenChats(p));
      OutsideLocal(cfg, sh, crm, p);
    }
    if Books(cfg, sh, 0, 0) {
      OutsideBooks(cfg, sh, crm, 0, 0);
    }
  }

  lemma TickKeepsInv(cfg: Config, s: System, now: real)
    requires Inv(cfg, s) && s.sh.now <= now
    ensures Inv(cfg, s.(sh := s.sh.(now := now)))
  {
    TickPreserves(cfg, s.sh, now);
    SharedMoved(cfg, s, s.sh.(now := now));
  }

  lemma ReceiveKeepsInv(cfg: Config, s: System, text: string)
    requires Inv(cfg, s)
    ensures Inv(cfg, s.(sh := WithText(s.sh, text)))
  {
    ReceivePreserves(cfg, s.sh, text);
    SharedMoved(cfg, s, WithText(s.sh, text));
  }

  lemma OutsideKeepsInv(cfg: Config, s: System, crm: Crm)
    requires Inv(cfg, s) && Extends(s.sh.crm, crm)
    ensures Inv(cfg, s.(sh := s.sh.(crm := crm)))
  {
    OutsidePreserves(cfg, s.sh, crm);
    SharedMoved(cfg, s, s.sh.(crm := crm));
  }
}
