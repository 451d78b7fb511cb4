/** Which reason a handoff carries, in every run with any delays: a flush carries the one its own
    turn decided, a sweep carries no answer, no await changes it on the way, and every stage
    the bot gives a lead is the funnel's stage for it. */
module ProtocolReasons {
  import opened Prelude
  import opened Conversations
  import opened TurnLogic
  import opened LeadPayload
  import opened Crm
  import opened HandoffRuns
  import opened Leases
  import opened ProtocolState
  import opened Protocol

  /** From the decision to hand off until the process leaves. */
  predicate Carries(pc: Pc) {
    HandingOff(pc) || pc == SavingProgress
  }

  /** The reason the turn answered at this await decides to hand off for. */
  function DecidedNow(cfg: Config, p: Proc, o: Oracle): Option<HandoffReason> {
    if p.pc != Thinking || o.fault != Answered then None
    else
      match TakeTurn(cfg.catalogue, p.conv, o.input).decision
      case HandOff(reason) => Some(reason)
      case _ => None
  }

  /** A turn that decides to hand off starts the handoff with its reason; any other leaves the
      reason alone and starts none. */
  lemma ThinkDecides(cfg: Config, sh: Shared, p: Proc, o: Oracle)
    requires p.pc == Thinking
    ensures var q := Think(cfg, sh, p, o).p;
            match DecidedNow(cfg, p, o)
            case Some(reason) => q.pc == SavingProgress && q.reason == reason
            case None => !Carries(q.pc) && q.reason == p.reason
  {
  }

  /** After any await a process carries the reason just decided and otherwise the one it had, but
      that a sweep starts its handoff with no answer. */
  lemma ReasonAfter(cfg: Config, sh: Shared, t: Token, p: Proc, o: Oracle)
    requires InSection(p) && HasAllIds(cfg.mapping.tables)
    ensures var q := Advance(cfg, sh, t, p, o).p;
            match DecidedNow(cfg, p, o)
            case Some(reason) => q.pc == SavingProgress && q.reason == reason
            case None =>
              && (q.reason == p.reason || (p.kind.Sweep? && p.pc == Loading && q.reason == NoResponse))
              && (Carries(q.pc) ==> Carries(p.pc) || (p.kind.Sweep? && p.pc == Loading && q.reason == NoResponse))
  {
    assert Framed(sh, p, Advance(cfg, sh, t, p, o));
    if p.pc == Thinking {
      ThinkDecides(cfg, sh, p, o);
    }
  }

  // ---- Runs ----

  /** Event `j` is the await at which process `t` decides to hand off for `reason`. */
  predicate DecidesAt(cfg: Config, states: seq<System>, events: seq<Event>, t: Token, j: int, reason: HandoffReason)
    requires |states| == |events| + 1 && 0 <= j < |events|
  {
    && events[j].Move? && events[j].token == t && t in states[j].procs
    && DecidedNow(cfg, states[j].procs[t], events[j].oracle) == Some(reason)
  }

  /** From just after event `j` up to state `i` the process carries that reason. */
  predicate CarriedSince(states: seq<System>, t: Token, j: int, i: int, reason: HandoffReason)
    requires -1 <= j && i < |states|
  {
    forall k :: j < k <= i ==> t in states[k].procs && states[k].procs[t].reason == reason && Carries(states[k].procs[t].pc)
  }

  predicate Unentered(pc: Pc) {
    pc == Waiting || pc == Draining || pc == Loading || pc == Gone
  }

  lemma LockingEnters(sh: Shared, t: Token, p: Proc, fault: CallFault)
    requires p.pc == Waiting
    ensures var q := Locking(sh, t, p, fault).p; q.kind == p.kind && Unentered(q.pc) && (q.pc == Draining ==> q.kind.Flush?)
  {
  }

  /** An event that is not an await of the process leaves it as it was, or outside its work. */
  predicate Aside(s: System, t: Token, q: Proc) {
    || (t in s.procs && q == s.procs[t])
    || (Unentered(q.pc) && (q.pc == Draining ==> q.kind.Flush?))
  }

  lemma TryLockLeavesIt(cfg: Config, s: System, e: Event, t: Token)
    requires HasAllIds(cfg.mapping.tables) && Possible(cfg, s, e) && e.TryLock?
    requires t in Happen(cfg, s, e).procs
    ensures Aside(s, t, Happen(cfg, s, e).procs[t])
  {
    LockingEnters(s.sh, e.token, s.procs[e.token], e.fault);
  }

  lemma OthersLeaveIt(cfg: Config, s: System, e: Event, t: Token)
    requires HasAllIds(cfg.mapping.tables) && Possible(cfg, s, e) && !(e.Move? && e.token == t)
    requires t in Happen(cfg, s, e).procs
    ensures Aside(s, t, Happen(cfg, s, e).procs[t])
  {
    if e.TryLock? {
      TryLockLeavesIt(cfg, s, e, t);
    }
  }

  lemma MoveIs(cfg: Config, s: System, t: Token, o: Oracle)
    requires HasAllIds(cfg.mapping.tables) && t in s.procs && InSection(s.procs[t])
    ensures Happen(cfg, s, Move(t, o)).procs == s.procs[t := Advance(cfg, s.sh, t, s.procs[t], o).p]
    ensures Happen(cfg, s, Move(t, o)).sh == Advance(cfg, s.sh, t, s.procs[t], o).sh
  {
  }

  /** A sweep takes no turn. */
  predicate SweepFits(p: Proc) {
    p.kind.Sweep? ==> !TakingTurn(p.pc)
  }

  lemma MoveFits(cfg: Config, s: System, t: Token, o: Oracle)
    requires HasAllIds(cfg.mapping.tables) && t in s.procs && InSection(s.procs[t]) && SweepFits(s.procs[t])
    ensures SweepFits(Advance(cfg, s.sh, t, s.procs[t], o).p)
  {
    assert Framed(s.sh, s.procs[t], Advance(cfg, s.sh, t, s.procs[t], o));
  }

  lemma StepFits(cfg: Config, s: System, e: Event, t: Token)
    requires HasAllIds(cfg.mapping.tables) && Possible(cfg, s, e) && t in Happen(cfg, s, e).procs
    requires t in s.procs ==> SweepFits(s.procs[t])
    ensures SweepFits(Happen(cfg, s, e).procs[t])
  {
    if e.Move? && e.token == t {
      MoveIs(cfg, s, t, e.oracle);
      MoveFits(cfg, s, t, e.oracle);
    } else {
      OthersLeaveIt(cfg, s, e, t);
    }
  }

  lemma {:induction false} SweepsTakeNoTurn(cfg: Config, states: seq<System>, events: seq<Event>, i: nat, t: Token)
    requires IsRun(cfg, states, events) && i < |states| && t in states[i].procs
    ensures SweepFits(states[i].procs[t])
  {
    if i > 0 {
      assert StepAt(cfg, states, events, i - 1);
      if t in states[i - 1].procs {
        SweepsTakeNoTurn(cfg, states, events, i - 1, t);
      }
      StepFits(cfg, states[i - 1], events[i - 1], t);
    }
  }

  /** A process that carries a reason after an event has just decided it, or carried it already,
      or is a sweep that has just started its handoff. */
  predicate Explains(cfg: Config, s: System, e: Event, t: Token, q: Proc) {
    && t in s.procs
    && (|| (e.Move? && e.token == t && DecidedNow(cfg, s.procs[t], e.oracle) == Some(q.reason))
        || (Carries(s.procs[t].pc) && s.procs[t].reason == q.reason)
        || (s.procs[t].kind.Sweep? && q.reason == NoResponse))
    && q.kind == s.procs[t].kind
  }

  lemma MoveExplains(cfg: Config, s: System, t: Token, o: Oracle)
    requires HasAllIds(cfg.mapping.tables) && t in s.procs && InSection(s.procs[t])
    requires Carries(Advance(cfg, s.sh, t, s.procs[t], o).p.pc)
    ensures Explains(cfg, s, Move(t, o), t, Advance(cfg, s.sh, t, s.procs[t], o).p)
  {
    ReasonAfter(cfg, s.sh, t, s.procs[t], o);
    assert Framed(s.sh, s.procs[t], Advance(cfg, s.sh, t, s.procs[t], o));
  }

  lemma AsideExplains(cfg: Config, s: System, e: Event, t: Token, q: Proc)
    requires Aside(s, t, q) && Carries(q.pc)
    ensures Explains(cfg, s, e, t, q)
  {
  }

  lemma StepExplains(cfg: Config, s: System, e: Event, t: Token)
    requires HasAllIds(cfg.mapping.tables) && Possible(cfg, s, e)
    requires t in Happen(cfg, s, e).procs && Carries(Happen(cfg, s, e).procs[t].pc)
    ensures Explains(cfg, s, e, t, Happen(cfg, s, e).procs[t])
  {
    if e.Move? && e.token == t {
      MoveIs(cfg, s, t, e.oracle);
      MoveExplains(cfg, s, t, e.oracle);
    } else {
      OthersLeaveIt(cfg, s, e, t);
      AsideExplains(cfg, s, e, t, Happen(cfg, s, e).procs[t]);
    }
  }

  /** One event later, the same decision still stands behind the reason. */
  lemma StillCarried(states: seq<System>, t: Token, j: int, i: int, reason: HandoffReason)
    requires -1 <= j < i < |states| && CarriedSince(states, t, j, i - 1, reason)
    requires t in states[i].procs && states[i].procs[t].reason == reason && Carries(states[i].procs[t].pc)
    ensures CarriedSince(states, t, j, i, reason)
  {
  }

  ghost predicate DecidedAndCarried(cfg: Config, states: seq<System>, events: seq<Event>, t: Token, i: int, reason: HandoffReason)
    requires |states| == |events| + 1 && i < |states|
  {
    exists j :: 0 <= j < i && DecidesAt(cfg, states, events, t, j, reason) && CarriedSince(states, t, j, i, reason)
  }

  lemma StillDecided(cfg: Config, states: seq<System>, events: seq<Event>, t: Token, i: int, reason: HandoffReason)
    requires |states| == |events| + 1 && 0 < i < |states|
    requires DecidedAndCarried(cfg, states, events, t, i - 1, reason)
    requires t in states[i].procs && states[i].procs[t].reason == reason && Carries(states[i].procs[t].pc)
    ensures DecidedAndCarried(cfg, states, events, t, i, reason)
  {
    var j :| 0 <= j < i - 1 && DecidesAt(cfg, states, events, t, j, reason) && CarriedSince(states, t, j, i - 1, reason);
    StillCarried(states, t, j, i, reason);
  }

  ghost predicate ReasonStands(cfg: Config, states: seq<System>, events: seq<Event>, t: Token, i: int)
    requires |states| == |events| + 1 && 0 <= i < |states| && t in states[i].procs
  {
    var p := states[i].procs[t];
    if p.kind.Flush? then DecidedAndCarried(cfg, states, events, t, i, p.reason) else p.reason == NoResponse
  }

  lemma JustDecided(cfg: Config, states: seq<System>, events: seq<Event>, t: Token, i: int)
    requires |states| == |events| + 1 && 0 < i < |states| && t in states[i].procs && Carries(states[i].procs[t].pc)
    requires DecidesAt(cfg, states, events, t, i - 1, states[i].procs[t].reason)
    ensures DecidedAndCarried(cfg, states, events, t, i, states[i].procs[t].reason)
  {
    assert CarriedSince(states, t, i - 1, i, states[i].procs[t].reason);
  }

  lemma ReasonStillStands(cfg: Config, states: seq<System>, events: seq<Event>, t: Token, i: int)
    requires |states| == |events| + 1 && 0 < i < |states| && t in states[i].procs && Carries(states[i].procs[t].pc)
    requires Explains(cfg, states[i - 1], events[i - 1], t, states[i].procs[t])
    requires SweepFits(states[i - 1].procs[t])
    requires Carries(states[i - 1].procs[t].pc) ==> ReasonStands(cfg, states, events, t, i - 1)
    ensures ReasonStands(cfg, states, events, t, i)
  {
    var before, p := states[i - 1].procs[t], states[i].procs[t];
    if events[i - 1].Move? && events[i - 1].token == t && DecidedNow(cfg, before, events[i - 1].oracle) == Some(p.reason) {
      JustDecided(cfg, states, events, t, i);
    } else if p.kind.Flush? {
      StillDecided(cfg, states, events, t, i, p.reason);
    }
  }

  lemma NextExplains(cfg: Config, states: seq<System>, events: seq<Event>, i: nat, t: Token)
    requires IsRun(cfg, states, events) && i < |events| && t in states[i + 1].procs && Carries(states[i + 1].procs[t].pc)
    ensures Explains(cfg, states[i], events[i], t, states[i + 1].procs[t])
    ensures SweepFits(states[i].procs[t])
  {
    assert StepAt(cfg, states, events, i);
    StepExplains(cfg, states[i], events[i], t);
    SweepsTakeNoTurn(cfg, states, events, i, t);
  }

  /** In every run: a flush anywhere in a handoff carries the reason its own turn decided, and has
      carried it unchanged since; a sweep carries no answer. */
  lemma {:induction false} HandoffCarriesItsReason(cfg: Config, states: seq<System>, events: seq<Event>, i: nat, t: Token)
    requires IsRun(cfg, states, events) && i < |states| && t in states[i].procs && Carries(states[i].procs[t].pc)
    ensures ReasonStands(cfg, states, events, t, i)
  {
    if i > 0 {
      NextExplains(cfg, states, events, i - 1, t);
      if Carries(states[i - 1].procs[t].pc) {
        HandoffCarriesItsReason(cfg, states, events, i - 1, t);
      }
      ReasonStillStands(cfg, states, events, t, i);
    }
  }

  // ---- The stage ----

  /** The PATCH of a process sets the stage of its reason, or none on a reused lead. */
  predicate StageFits(mapping: Mapping, p: Proc) {
    p.pc == Patching ==> p.stage == Some(mapping.StageFor(p.reason)) || (p.stage.None? && !p.target.isNew)
  }

  lemma NoteFits(cfg: Config, sh: Shared, p: Proc, o: Oracle)
    requires p.pc == Noting
    ensures StageFits(cfg.mapping, PostNote(cfg, sh, p, o).p)
  {
  }

  lemma ReadFits(cfg: Config, sh: Shared, p: Proc, o: Oracle)
    requires p.pc == ReadingStage
    ensures StageFits(cfg.mapping, ReadStage(cfg, sh, p, o).p)
  {
  }

  lemma AdvanceFitsStage(cfg: Config, sh: Shared, t: Token, p: Proc, o: Oracle)
    requires InSection(p) && HasAllIds(cfg.mapping.tables)
    ensures StageFits(cfg.mapping, Advance(cfg, sh, t, p, o).p)
  {
    assert Framed(sh, p, Advance(cfg, sh, t, p, o));
    if p.pc == Noting {
      NoteFits(cfg, sh, p, o);
    } else if p.pc == ReadingStage {
      ReadFits(cfg, sh, p, o);
    }
  }

  lemma StepFitsStage(cfg: Config, s: System, e: Event, t: Token)
    requires HasAllIds(cfg.mapping.tables) && Possible(cfg, s, e) && t in Happen(cfg, s, e).procs
    requires t in s.procs ==> StageFits(cfg.mapping, s.procs[t])
    ensures StageFits(cfg.mapping, Happen(cfg, s, e).procs[t])
  {
    if e.Move? && e.token == t {
      MoveIs(cfg, s, t, e.oracle);
      AdvanceFitsStage(cfg, s.sh, t, s.procs[t], e.oracle);
    } else {
      OthersLeaveIt(cfg, s, e, t);
    }
  }

  lemma {:induction false} StagesFit(cfg: Config, states: seq<System>, events: seq<Event>, i: nat, t: Token)
    requires IsRun(cfg, states, events) && i < |states| && t in states[i].procs
    ensures StageFits(cfg.mapping, states[i].procs[t])
  {
    if i > 0 {
      assert StepAt(cfg, states, events, i - 1);
      if t in states[i - 1].procs {
        StagesFit(cfg, states, events, i - 1, t);
      }
      StepFitsStage(cfg, states[i - 1], events[i - 1], t);
    }
  }

  /** The event is a process's PATCH of lead `l`, and it reaches the CRM. */
  predicate Patches(s: System, e: Event, l: int) {
    && e.Move? && e.token in s.procs && s.procs[e.token].pc == Patching && s.procs[e.token].target.lead == l
    && e.oracle.fault != Dropped && l in s.sh.crm.leads
  }

  /** What a PATCH leaves of its lead: the process's stage if it has one, and every field of the
      process's slots written over. */
  predicate WrittenBy(cfg: Config, p: Proc, before: Lead, after: Lead)
    requires HasAllIds(cfg.mapping.tables)
  {
    && after.contact == before.contact
    && after.status == (if p.stage.Some? then p.stage else before.status)
    && after.fields == before.fields + AsMap(CustomFields(cfg.mapping.tables, p.conv.slots))
  }

  predicate LeadKept(sh: Shared, after: Shared, l: int)
    requires l in sh.crm.leads
  {
    l in after.crm.leads && after.crm.leads[l] == sh.crm.leads[l]
  }

  predicate LeadWritten(cfg: Config, sh: Shared, p: Proc, after: Shared, l: int)
    requires l in sh.crm.leads && HasAllIds(cfg.mapping.tables)
  {
    l in after.crm.leads && WrittenBy(cfg, p, sh.crm.leads[l], after.crm.leads[l])
  }

  lemma AppliedWrites(cfg: Config, sh: Shared, p: Proc, l: int)
    requires HasAllIds(cfg.mapping.tables) && l in sh.crm.leads && p.target.lead in sh.crm.leads
    ensures var after := PatchApplied(cfg, sh, p);
            if p.target.lead == l then LeadWritten(cfg, sh, p, after, l) else LeadKept(sh, after, l)
  {
  }

  lemma PatchWrites(cfg: Config, sh: Shared, p: Proc, o: Oracle, l: int)
    requires HasAllIds(cfg.mapping.tables) && p.pc == Patching && l in sh.crm.leads
    ensures var after := Patch(cfg, sh, p, o).sh;
            if p.target.lead == l && o.fault != Dropped then LeadWritten(cfg, sh, p, after, l) else LeadKept(sh, after, l)
  {
    if o.fault != Dropped && p.target.lead in sh.crm.leads {
      AppliedWrites(cfg, sh, p, l);
      assert Patch(cfg, sh, p, o).sh.crm == PatchApplied(cfg, sh, p).crm;
    }
  }

  /** Creating numbers its records upwards. */
  lemma CreateKeepsLead(cfg: Config, sh: Shared, p: Proc, o: Oracle, l: int)
    requires p.pc == Creating && l in sh.crm.leads && l < sh.crm.nextId
    ensures LeadKept(sh, Create(cfg, sh, p, o).sh, l)
  {
  }

  lemma OthersKeepLead(cfg: Config, sh: Shared, t: Token, p: Proc, o: Oracle, l: int)
    requires HasAllIds(cfg.mapping.tables) && InSection(p) && l in sh.crm.leads && l < sh.crm.nextId
    requires p.pc != Patching
    ensures LeadKept(sh, Advance(cfg, sh, t, p, o).sh, l)
  {
    assert Framed(sh, p, Advance(cfg, sh, t, p, o));
    if p.pc == Creating {
      CreateKeepsLead(cfg, sh, p, o, l);
    }
  }

  lemma AdvanceWrites(cfg: Config, sh: Shared, t: Token, p: Proc, o: Oracle, l: int)
    requires HasAllIds(cfg.mapping.tables) && InSection(p) && l in sh.crm.leads && l < sh.crm.nextId
    ensures var after := Advance(cfg, sh, t, p, o).sh;
            if p.pc == Patching && p.target.lead == l && o.fault != Dropped then LeadWritten(cfg, sh, p, after, l) else LeadKept(sh, after, l)
  {
    if p.pc == Patching {
      PatchWrites(cfg, sh, p, o, l);
    } else {
      OthersKeepLead(cfg, sh, t, p, o, l);
    }
  }

  /** An existing lead is written by its PATCHes, and otherwise only by others. */
  lemma StepWrites(cfg: Config, s: System, e: Event, l: int)
    requires HasAllIds(cfg.mapping.tables) && Possible(cfg, s, e) && !e.Outside?
    requires l in s.sh.crm.leads && l < s.sh.crm.nextId
    ensures var after := Happen(cfg, s, e).sh;
            if Patches(s, e, l) then LeadWritten(cfg, s.sh, s.procs[e.token], after, l) else LeadKept(s.sh, after, l)
  {
    if e.Move? {
      MoveIs(cfg, s, e.token, e.oracle);
      AdvanceWrites(cfg, s.sh, e.token, s.procs[e.token], e.oracle, l);
    }
  }

  /** In every run, whoever else works in the CRM: an existing lead is written by nobody's await but
      a PATCH of it. That sets the stage of the reason its process carries, which its turn
      decided or which is a sweep's no answer; only a reused lead may keep its stage. */
  lemma StageIsTheReasons(cfg: Config, states: seq<System>, events: seq<Event>, i: nat, l: int)
    requires IsRun(cfg, states, events) && i < |events| && !events[i].Outside?
    requires l in states[i].sh.crm.leads && l < states[i].sh.crm.nextId
    ensures l in states[i + 1].sh.crm.leads
    ensures !Patches(states[i], events[i], l) ==> states[i + 1].sh.crm.leads[l] == states[i].sh.crm.leads[l]
    ensures Patches(states[i], events[i], l) ==>
              var t, before, after := events[i].token, states[i].sh.crm.leads[l], states[i + 1].sh.crm.leads[l];
              var p := states[i].procs[t];
              && ReasonStands(cfg, states, events, t, i)
              && WrittenBy(cfg, p, before, after)
              && (after.status == Some(cfg.mapping.StageFor(p.reason)) || (after.status == before.status && !p.target.isNew))
  {
    assert StepAt(cfg, states, events, i);
    StepWrites(cfg, states[i], events[i], l);
    if Patches(states[i], events[i], l) {
      StagesFit(cfg, states, events, i, events[i].token);
      HandoffCarriesItsReason(cfg, states, events, i, events[i].token);
    }
  }
}
