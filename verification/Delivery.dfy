/** From the webhook to the turn: one sender's messages, the in-memory timers that start its
    flushes, and the protocol its flushes run, as one machine. It says exactly when a buffered
    message is abandoned: no flush for it is on its way, and no timer will start one. */
module Delivery {
  import Debounce
  import opened LeadPayload
  import opened Leases
  import opened ProtocolState
  import opened Protocol
  import opened ProtocolStranded

  datatype Setting = Setting(cfg: Config, timers: Debounce.Config, sender: string)

  /** The arrivals, timers and restarts so far, and where the protocol stands. */
  datatype Joint = Joint(trace: seq<Debounce.Event>, sys: System)

  datatype Happening =
    | Armed(text: string, id: string)
    | Unarmed(text: string)
    | Fired(timer: Debounce.TimerId, token: Token, connector: bool, ttl: real)
    | Restarted
    | Elsewhere(other: Debounce.Event)
    | Inside(event: Event)

  function Timers(setting: Setting, j: Joint): Debounce.State {
    Debounce.Replay(setting.timers, j.trace)
  }

  predicate Timed(setting: Setting, j: Joint) {
    Debounce.HasTimer(Timers(setting, j), setting.sender)
  }

  /** Buffered messages arm the sender's timer, except one that overflows the buffer or whose
      webhook dies before arming it; flushes are started by timers only; the flushes a restart
      kills crash one by one. */
  ghost predicate Allowed(setting: Setting, j: Joint, h: Happening) {
    match h
    case Armed(_, _) => true
    case Unarmed(_) => true
    case Fired(timer, t, connector, ttl) =>
      && Debounce.Enabled(Timers(setting, j), Debounce.Fire(setting.sender, timer, j.sys.sh.now))
      && Possible(setting.cfg, j.sys, Spawn(t, Flush, connector, ttl))
    case Restarted => true
    case Elsewhere(e) =>
      !e.Restart? && e.sender != setting.sender && e.at == j.sys.sh.now && Debounce.Enabled(Timers(setting, j), e)
    case Inside(e) => !e.Receive? && !SpawnsFlush(e) && Possible(setting.cfg, j.sys, e)
  }

  function Next(setting: Setting, j: Joint, h: Happening): Joint
    requires HasAllIds(setting.cfg.mapping.tables)
  {
    match h
    case Armed(text, id) =>
      Joint(j.trace + [Debounce.Arrive(setting.sender, id, j.sys.sh.now)], Happen(setting.cfg, j.sys, Receive(text)))
    case Unarmed(text) => j.(sys := Happen(setting.cfg, j.sys, Receive(text)))
    case Fired(timer, t, connector, ttl) =>
      Joint(j.trace + [Debounce.Fire(setting.sender, timer, j.sys.sh.now)], Happen(setting.cfg, j.sys, Spawn(t, Flush, connector, ttl)))
    case Restarted => j.(trace := j.trace + [Debounce.Restart(j.sys.sh.now)])
    case Elsewhere(e) => j.(trace := j.trace + [e])
    case Inside(e) => j.(sys := Happen(setting.cfg, j.sys, e))
  }

  // ---- What every step keeps ----

  ghost predicate Coherent(setting: Setting, j: Joint) {
    && Debounce.IsTrace(setting.timers, j.trace)
    && (j.trace != [] ==> j.trace[|j.trace| - 1].at <= j.sys.sh.now)
    && DrainersFlush(j.sys)
  }

  lemma TraceGoesOn(setting: Setting, j: Joint, e: Debounce.Event)
    requires Coherent(setting, j) && e.at == j.sys.sh.now && Debounce.Enabled(Timers(setting, j), e)
    ensures Debounce.IsTrace(setting.timers, j.trace + [e])
    ensures Debounce.Burst(j.trace + [e], setting.sender) ==
            match e
            case Arrive(from, token, at) =>
              if from == setting.sender then Debounce.Burst(j.trace, setting.sender) + [Debounce.Message(token, at)]
              else Debounce.Burst(j.trace, setting.sender)
            case Fire(of, _, _) => if of == setting.sender then [] else Debounce.Burst(j.trace, setting.sender)
            case Restart(_) => []
  {
    var more := j.trace + [e];
    assert more[..|more| - 1] == j.trace;
  }

  lemma ClockGoesOn(cfg: Config, s: System, e: Event)
    requires HasAllIds(cfg.mapping.tables) && Possible(cfg, s, e)
    ensures s.sh.now <= Happen(cfg, s, e).sh.now
  {
    if e.Move? {
      assert Framed(s.sh, s.procs[e.token], Advance(cfg, s.sh, e.token, s.procs[e.token], e.oracle));
    }
  }

  /** The protocol's part of a step. */
  function Within(setting: Setting, h: Happening): Event {
    match h
    case Armed(text, _) => Receive(text)
    case Unarmed(text) => Receive(text)
    case Fired(_, t, connector, ttl) => Spawn(t, Flush, connector, ttl)
    case Inside(e) => e
    case _ => Tick(0.0)
  }

  predicate Moves(h: Happening) {
    h.Armed? || h.Unarmed? || h.Fired? || h.Inside?
  }

  /** The timers' part. */
  function Beside(setting: Setting, h: Happening, now: real): Debounce.Event {
    match h
    case Armed(_, id) => Debounce.Arrive(setting.sender, id, now)
    case Fired(timer, _, _, _) => Debounce.Fire(setting.sender, timer, now)
    case Elsewhere(e) => e
    case _ => Debounce.Restart(now)
  }

  predicate Ticks(h: Happening) {
    h.Armed? || h.Fired? || h.Restarted? || h.Elsewhere?
  }

  lemma StepParts(setting: Setting, j: Joint, h: Happening)
    requires HasAllIds(setting.cfg.mapping.tables) && Allowed(setting, j, h)
    ensures Next(setting, j, h).trace == if Ticks(h) then j.trace + [Beside(setting, h, j.sys.sh.now)] else j.trace
    ensures Ticks(h) ==> Beside(setting, h, j.sys.sh.now).at == j.sys.sh.now
    ensures Ticks(h) ==> Debounce.Enabled(Timers(setting, j), Beside(setting, h, j.sys.sh.now))
    ensures Next(setting, j, h).sys == if Moves(h) then Happen(setting.cfg, j.sys, Within(setting, h)) else j.sys
    ensures Moves(h) ==> Possible(setting.cfg, j.sys, Within(setting, h))
  {
  }

  lemma SystemKeepsCoherent(setting: Setting, j: Joint, h: Happening)
    requires HasAllIds(setting.cfg.mapping.tables) && DrainersFlush(j.sys) && Allowed(setting, j, h)
    ensures DrainersFlush(Next(setting, j, h).sys) && j.sys.sh.now <= Next(setting, j, h).sys.sh.now
  {
    StepParts(setting, j, h);
    if Moves(h) {
      ClockGoesOn(setting.cfg, j.sys, Within(setting, h));
      StepKeepsDrainers(setting.cfg, j.sys, Within(setting, h));
    }
  }

  lemma StepKeepsCoherent(setting: Setting, j: Joint, h: Happening)
    requires HasAllIds(setting.cfg.mapping.tables) && Coherent(setting, j) && Allowed(setting, j, h)
    ensures Coherent(setting, Next(setting, j, h))
  {
    StepParts(setting, j, h);
    SystemKeepsCoherent(setting, j, h);
    if Ticks(h) {
      TraceGoesOn(setting, j, Beside(setting, h, j.sys.sh.now));
    }
  }

  // ---- Abandoned messages ----

  /** A message is in the buffer, no flush will drain it, and no timer will start one. */
  predicate Abandoned(setting: Setting, j: Joint) {
    Stranded(j.sys) && !Timed(setting, j)
  }

  /** The event abandons a message: with no flush to come, the program restarts or a message arms
      no timer; or, with no timer, the last flush is turned away. */
  predicate Abandons(setting: Setting, j: Joint, h: Happening) {
    match h
    case Unarmed(_) => !Awaited(j.sys) && !Timed(setting, j)
    case Restarted => Stranded(j.sys)
    case Inside(e) => Strands(j.sys, e) && !Timed(setting, j)
    case _ => false
  }

  lemma TimedByBurst(setting: Setting, j: Joint)
    requires Coherent(setting, j)
    ensures Timed(setting, j) <==> Debounce.Burst(j.trace, setting.sender) != []
  {
    Debounce.TimedExactly(setting.timers, j.trace, setting.sender);
  }

  /** What a step does to the timer. */
  lemma StepTimes(setting: Setting, j: Joint, h: Happening)
    requires HasAllIds(setting.cfg.mapping.tables) && Coherent(setting, j) && Allowed(setting, j, h)
    ensures Timed(setting, Next(setting, j, h)) <==>
              match h
              case Armed(_, _) => true
              case Fired(_, _, _, _) => false
              case Restarted => false
              case _ => Timed(setting, j)
    ensures h.Fired? ==> Timed(setting, j)
  {
    StepParts(setting, j, h);
    StepKeepsCoherent(setting, j, h);
    TimedByBurst(setting, j);
    TimedByBurst(setting, Next(setting, j, h));
    if Ticks(h) {
      TraceGoesOn(setting, j, Beside(setting, h, j.sys.sh.now));
    }
  }

  /** What it does to the messages for which no flush is on its way. */
  lemma StepStrands(setting: Setting, j: Joint, h: Happening)
    requires HasAllIds(setting.cfg.mapping.tables) && Coherent(setting, j) && Allowed(setting, j, h)
    ensures Stranded(Next(setting, j, h).sys) <==>
              if Moves(h) then (Stranded(j.sys) && !h.Fired?) || Strands(j.sys, Within(setting, h)) else Stranded(j.sys)
  {
    StepParts(setting, j, h);
    if Moves(h) {
      StepStrandsExactly(setting.cfg, j.sys, Within(setting, h));
    }
  }

  /** Exactly what each step does: an abandoned message stays so until the sender's next message
      arms a timer. */
  lemma StepAbandonsExactly(setting: Setting, j: Joint, h: Happening)
    requires HasAllIds(setting.cfg.mapping.tables) && Coherent(setting, j) && Allowed(setting, j, h)
    ensures Abandoned(setting, Next(setting, j, h)) <==> (Abandoned(setting, j) && !h.Armed?) || Abandons(setting, j, h)
  {
    StepTimes(setting, j, h);
    StepStrands(setting, j, h);
  }

  // ---- Runs ----

  ghost predicate JointAt(setting: Setting, joints: seq<Joint>, events: seq<Happening>, i: int)
    requires HasAllIds(setting.cfg.mapping.tables) && |joints| == |events| + 1 && 0 <= i < |events|
  {
    Allowed(setting, joints[i], events[i]) && joints[i + 1] == Next(setting, joints[i], events[i])
  }

  ghost predicate IsJointRun(setting: Setting, joints: seq<Joint>, events: seq<Happening>) {
    && HasAllIds(setting.cfg.mapping.tables) && |joints| == |events| + 1
    && joints[0].trace == [] && Initial(joints[0].sys)
    && forall i :: 0 <= i < |events| ==> JointAt(setting, joints, events, i)
  }

  lemma {:induction false} RunIsCoherent(setting: Setting, joints: seq<Joint>, events: seq<Happening>, i: nat)
    requires IsJointRun(setting, joints, events) && i < |joints|
    ensures Coherent(setting, joints[i])
  {
    if i > 0 {
      RunIsCoherent(setting, joints, events, i - 1);
      assert JointAt(setting, joints, events, i - 1);
      StepKeepsCoherent(setting, joints[i - 1], events[i - 1]);
    }
  }

  /** Event `j` abandoned a message, and none that armed a timer has come before state `i`. */
  predicate AbandonedSince(setting: Setting, joints: seq<Joint>, events: seq<Happening>, j: int, i: int)
    requires |joints| == |events| + 1 && 0 <= j < i < |joints|
  {
    Abandons(setting, joints[j], events[j]) && forall k :: j < k < i ==> !events[k].Armed?
  }

  lemma StateAbandonsExactly(setting: Setting, joints: seq<Joint>, events: seq<Happening>, i: nat)
    requires IsJointRun(setting, joints, events) && i < |events|
    ensures Abandoned(setting, joints[i + 1]) <==> (Abandoned(setting, joints[i]) && !events[i].Armed?) || Abandons(setting, joints[i], events[i])
  {
    RunIsCoherent(setting, joints, events, i);
    assert JointAt(setting, joints, events, i);
    StepAbandonsExactly(setting, joints[i], events[i]);
  }

  /** In every run, with any delays and restarts: a buffered message is abandoned if and only if
      some event abandoned one and the sender has sent none since that armed a timer. */
  lemma {:induction false} AbandonedExactly(setting: Setting, joints: seq<Joint>, events: seq<Happening>, i: nat)
    requires IsJointRun(setting, joints, events) && i < |joints|
    ensures Abandoned(setting, joints[i]) <==> exists j :: 0 <= j < i && AbandonedSince(setting, joints, events, j, i)
  {
    if i > 0 {
      var n := i - 1;
      AbandonedExactly(setting, joints, events, n);
      StateAbandonsExactly(setting, joints, events, n);
      forall j | 0 <= j < n
        ensures AbandonedSince(setting, joints, events, j, i) <==> AbandonedSince(setting, joints, events, j, n) && !events[n].Armed?
      {
      }
      assert AbandonedSince(setting, joints, events, n, i) <==> Abandons(setting, joints[n], events[n]);
    }
  }
}
