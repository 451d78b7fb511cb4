/** Two runs that show what the protocol does not promise: without the lease hypothesis two
    processes overlap, and a message can stay in the buffer with nobody left to drain it. */
module ProtocolExamples {
  import opened Prelude
  import opened TurnInvariants
  import opened LeadPayload
  import opened Crm
  import opened HandoffRuns
  import opened Leases
  import opened ProtocolState
  import opened Protocol
  import opened ProtocolExclusion

  ghost predicate EndsIn(cfg: Config, states: seq<System>, events: seq<Event>, s: System) {
    IsRun(cfg, states, events) && states[|states| - 1] == s
  }

  ghost predicate Reachable(cfg: Config, s: System) {
    exists states, events :: EndsIn(cfg, states, events, s)
  }

  function START(): System {
    System(Shared(0.0, None, [], None, false, Crm(map[], map[], 0), Traffic([], [], []), Accounts(0, 0, 0, 0), Creations(0, 0),
                  Deeds(None, {}, {}, {}, 0, false, 0)), map[])
  }

  lemma StartIsReachable(cfg: Config)
    requires HasAllIds(cfg.mapping.tables) && Usable(cfg.catalogue)
    ensures Reachable(cfg, START())
  {
    assert EndsIn(cfg, [START()], [], START());
  }

  lemma OneMore(cfg: Config, s: System, e: Event)
    requires HasAllIds(cfg.mapping.tables) && Reachable(cfg, s) && Possible(cfg, s, e)
    ensures Reachable(cfg, Happen(cfg, s, e))
  {
    var states, events :| EndsIn(cfg, states, events, s);
    var next := Happen(cfg, s, e);
    var states', events' := states + [next], events + [e];
    forall i | 0 <= i < |events'| ensures StepAt(cfg, states', events', i) {
      if i < |events| {
        assert StepAt(cfg, states, events, i);
      }
    }
    assert EndsIn(cfg, states', events', next);
  }

  const FRESH_FLUSH := NewProc(Flush, true, 60.0)

  /** The first flush has been granted the key, with `buffer` waiting for it. */
  function HELD(buffer: seq<string>): System {
    System(START().sh.(buffer := buffer, traffic := Traffic(buffer, [], []), lock := Some(Lease("a", 60.0))),
           map["a" := Entered(FRESH_FLUSH, 0.0)])
  }

  lemma HeldIsReachable(cfg: Config)
    requires HasAllIds(cfg.mapping.tables) && Usable(cfg.catalogue)
    ensures Reachable(cfg, HELD(["hola"]))
  {
    StartIsReachable(cfg);
    var s1 := START().(sh := START().sh.(buffer := ["hola"], traffic := Traffic(["hola"], [], [])));
    OneMore(cfg, START(), Receive("hola"));
    assert Happen(cfg, START(), Receive("hola")) == s1;
    var s2 := s1.(procs := map["a" := FRESH_FLUSH]);
    OneMore(cfg, s1, Spawn("a", Flush, true, 60.0));
    assert Happen(cfg, s1, Spawn("a", Flush, true, 60.0)) == s2;
    OneMore(cfg, s2, TryLock("a", Answered));
    assert Happen(cfg, s2, TryLock("a", Answered)) == HELD(["hola"]);
  }

  /** A process that outlives its lease overlaps with the next one. */
  lemma OverrunOverlaps(cfg: Config)
    requires HasAllIds(cfg.mapping.tables) && Usable(cfg.catalogue)
    ensures exists s :: Reachable(cfg, s) && !Exclusive(s)
  {
    HeldIsReachable(cfg);
    var s2 := HELD(["hola"]);
    var s3 := s2.(procs := s2.procs["b" := FRESH_FLUSH]);
    OneMore(cfg, s2, Spawn("b", Flush, true, 60.0));
    var s4 := s3.(sh := s3.sh.(now := 61.0));
    OneMore(cfg, s3, Tick(61.0));
    var s5 := System(s4.sh.(lock := Some(Lease("b", 121.0))), s4.procs["b" := Entered(FRESH_FLUSH, 61.0)]);
    OneMore(cfg, s4, TryLock("b", Answered));
    assert Happen(cfg, s4, TryLock("b", Answered)) == s5;
    assert InSection(s5.procs["a"]) && InSection(s5.procs["b"]);
  }

  /** The first flush has drained its batch; a second message has arrived since. */
  function DRAINED(): System {
    var s := HELD(["hola"]);
    System(s.sh.(buffer := ["Japon"], traffic := Traffic(["hola", "Japon"], [["hola"]], [])),
           map["a" := s.procs["a"].(pc := CheckingBlock)])
  }

  lemma DrainedIsReachable(cfg: Config, o: Oracle)
    requires HasAllIds(cfg.mapping.tables) && Usable(cfg.catalogue) && o.fault == Answered
    ensures Reachable(cfg, DRAINED())
  {
    HeldIsReachable(cfg);
    var s := HELD(["hola"]);
    var p := s.procs["a"];
    var m := Drain(s.sh, p, o);
    assert m == Moved(s.sh.(buffer := [], traffic := Traffic(["hola"], [["hola"]], [])), p.(pc := CheckingBlock));
    OneMore(cfg, s, Move("a", o));
    var next := System(m.sh, map["a" := m.p]);
    assert Happen(cfg, s, Move("a", o)) == next;
    OneMore(cfg, next, Receive("Japon"));
    assert Happen(cfg, next, Receive("Japon")) == DRAINED();
  }

  /** The second flush found the key taken. */
  function TURNED_AWAY(pc: Pc): System {
    var s := DRAINED();
    s.(procs := map["a" := s.procs["a"].(pc := pc), "b" := FRESH_FLUSH.(pc := Gone)])
  }

  lemma TurnedAwayIsReachable(cfg: Config, o: Oracle)
    requires HasAllIds(cfg.mapping.tables) && Usable(cfg.catalogue) && o.fault == Answered
    ensures Reachable(cfg, TURNED_AWAY(CheckingBlock))
  {
    DrainedIsReachable(cfg, o);
    var s := DRAINED();
    var spawned := s.(procs := s.procs["b" := FRESH_FLUSH]);
    OneMore(cfg, s, Spawn("b", Flush, true, 60.0));
    assert Happen(cfg, s, Spawn("b", Flush, true, 60.0)) == spawned;
    OneMore(cfg, spawned, TryLock("b", Answered));
    assert Happen(cfg, spawned, TryLock("b", Answered)) == TURNED_AWAY(CheckingBlock);
  }

  lemma BlockedLeaves(sh: Shared, p: Proc, o: Oracle)
    requires p.pc == CheckingBlock && o.blocked
    ensures CheckBlock(sh, p, o) == Moved(sh, p.(pc := Leaving))
  {
  }

  lemma CheckHappens(cfg: Config, s: System, t: Token, o: Oracle)
    requires HasAllIds(cfg.mapping.tables) && t in s.procs && s.procs[t].pc == CheckingBlock
    ensures Possible(cfg, s, Move(t, o))
    ensures Happen(cfg, s, Move(t, o)) == (var m := CheckBlock(s.sh, s.procs[t], o); System(m.sh, s.procs[t := m.p]))
  {
  }

  lemma LeavingIsReachable(cfg: Config, o: Oracle)
    requires HasAllIds(cfg.mapping.tables) && Usable(cfg.catalogue) && o.fault == Answered && o.blocked
    ensures Reachable(cfg, TURNED_AWAY(Leaving))
  {
    TurnedAwayIsReachable(cfg, o);
    var s := TURNED_AWAY(CheckingBlock);
    CheckHappens(cfg, s, "a", o);
    BlockedLeaves(s.sh, s.procs["a"], o);
    OnlyStatusChanges(CheckingBlock, Leaving);
    assert Happen(cfg, s, Move("a", o)) == TURNED_AWAY(Leaving);
    OneMore(cfg, s, Move("a", o));
  }

  function STRANDED(): System {
    var s := TURNED_AWAY(Gone);
    s.(sh := s.sh.(lock := None))
  }

  lemma OnlyStatusChanges(pc: Pc, next: Pc)
    ensures var s := TURNED_AWAY(pc); s.procs["a" := s.procs["a"].(pc := next)] == TURNED_AWAY(next).procs
  {
  }

  /** A process with nothing in its hands leaves only its lock behind, and not for long. */
  lemma LeavesNothing(sh: Shared, p: Proc, t: Token, o: Oracle)
    requires p.pc == Leaving && !p.noted && !p.chatted && o.fault == Answered
    requires sh.lock.Some? && sh.lock.value.owner == t
    ensures Leave(sh, p, t, o) == Moved(sh.(lock := None), p.(pc := Gone))
  {
    assert Settled(sh, p) == sh;
  }

  lemma LastLeaves(o: Oracle)
    requires o.fault == Answered
    ensures var s := TURNED_AWAY(Leaving);
            var m := Leave(s.sh, s.procs["a"], "a", o);
            System(m.sh, s.procs["a" := m.p]) == STRANDED()
  {
    var s := TURNED_AWAY(Leaving);
    LeavesNothing(s.sh, s.procs["a"], "a", o);
    assert s.sh.(lock := None) == STRANDED().sh;
    OnlyStatusChanges(Leaving, Gone);
  }

  lemma LeaveHappens(cfg: Config, s: System, t: Token, o: Oracle)
    requires HasAllIds(cfg.mapping.tables) && t in s.procs && s.procs[t].pc == Leaving
    ensures Possible(cfg, s, Move(t, o))
    ensures Happen(cfg, s, Move(t, o)) == (var m := Leave(s.sh, s.procs[t], t, o); System(m.sh, s.procs[t := m.p]))
  {
  }

  lemma StrandedIsReachable(cfg: Config, o: Oracle)
    requires HasAllIds(cfg.mapping.tables) && Usable(cfg.catalogue) && o.fault == Answered && o.blocked
    ensures Reachable(cfg, STRANDED())
  {
    LeavingIsReachable(cfg, o);
    var s, e := TURNED_AWAY(Leaving), Move("a", o);
    LeaveHappens(cfg, s, "a", o);
    LastLeaves(o);
    assert Happen(cfg, s, e) == STRANDED();
    OneMore(cfg, s, e);
  }

  /** A message can outlive every flush meant for it: it arrived after the first had drained,
      and the second, finding the key taken, neither drained it nor left a timer behind. */
  lemma MessageCanBeStranded(cfg: Config, o: Oracle)
    requires HasAllIds(cfg.mapping.tables) && Usable(cfg.catalogue) && o.fault == Answered && o.blocked
    ensures Reachable(cfg, STRANDED())
    ensures STRANDED().sh.buffer == ["Japon"] && STRANDED().sh.lock == None && STRANDED().sh.traffic.handled == []
    ensures forall t :: t in STRANDED().procs ==> STRANDED().procs[t].pc == Gone
  {
    StrandedIsReachable(cfg, o);
  }
}
