/** The per-sender debounce: one pending timer per sender, re-armed by every message and capped
    by the time of the burst's first message. The module-level dictionaries of the program are
    the fields of a class; what it does to them is specified over whole traces of arrivals,
    timer expiries and restarts of the program, which keeps its timers in memory only. */
module Debounce {
  import opened Prelude

  type TimerId = nat

  datatype Config = Config(window: real, cap: real)

  datatype Status = Sleeping | Cancelled | Committed

  /** A background task: it sleeps until `due`, then flushes with `token`. */
  datatype Timer = Timer(sender: string, token: string, due: real, status: Status)

  datatype State = State(anchors: map<string, real>, pending: map<string, TimerId>, timers: seq<Timer>)

  function Max(a: real, b: real): real {
    if a >= b then a else b
  }

  function Delay(cfg: Config, anchor: real, now: real): real {
    Max(0.0, Min(cfg.window, anchor + cfg.cap - now))
  }

  function WithStatus(timers: seq<Timer>, id: TimerId, status: Status): seq<Timer>
    requires id < |timers|
  {
    timers[id := timers[id].(status := status)]
  }

  /** Every pending entry is a known task. */
  predicate Indexed(s: State) {
    forall sender :: sender in s.pending ==> s.pending[sender] < |s.timers|
  }

  function Scheduled(cfg: Config, s: State, sender: string, token: string, now: real): (t: State)
    requires Indexed(s)
    ensures Indexed(t) && |t.timers| == |s.timers| + 1
  {
    var anchor := if sender in s.anchors then s.anchors[sender] else now;
    var timers := if sender in s.pending then WithStatus(s.timers, s.pending[sender], Cancelled) else s.timers;
    State(s.anchors[sender := anchor], s.pending[sender := |timers|],
          timers + [Timer(sender, token, now + Delay(cfg, anchor, now), Sleeping)])
  }

  function Resumed(s: State, id: TimerId): (t: State)
    requires Indexed(s) && id < |s.timers|
    ensures Indexed(t) && |t.timers| == |s.timers|
  {
    var sender := s.timers[id].sender;
    State(s.anchors - {sender},
          if sender in s.pending && s.pending[sender] == id then s.pending - {sender} else s.pending,
          WithStatus(s.timers, id, Committed))
  }

  /** A restarted program knows no anchors and no timers; tasks that slept never wake. */
  function Restarted(s: State): (t: State)
    ensures Indexed(t) && |t.timers| == |s.timers|
  {
    State(map[], map[], seq(|s.timers|, i requires 0 <= i < |s.timers| =>
      if s.timers[i].status == Sleeping then s.timers[i].(status := Cancelled) else s.timers[i]))
  }

  class Debouncer {
    const cfg: Config
    var anchors: map<string, real>
    var pending: map<string, TimerId>
    var timers: seq<Timer>

    function Now(): State
      reads this
    {
      State(anchors, pending, timers)
    }

    constructor (cfg: Config)
      ensures this.cfg == cfg && Now() == State(map[], map[], [])
    {
      this.cfg := cfg;
      anchors, pending, timers := map[], map[], [];
    }

    /** (Re)arms the sender's timer. */
    method ScheduleFlush(sender: string, token: string, now: real)
      requires Indexed(Now())
      modifies this
      ensures Now() == Scheduled(cfg, old(Now()), sender, token, now)
    {
      if sender !in anchors {
        anchors := anchors[sender := now];
      }
      var anchor := anchors[sender];
      var capRemaining := anchor + cfg.cap - now;
      var delay := Max(0.0, Min(cfg.window, capRemaining));
      if sender in pending {
        timers := WithStatus(timers, pending[sender], Cancelled);
      }
      pending := pending[sender := |timers|];
      timers := timers + [Timer(sender, token, now + delay, Sleeping)];
      assert old(anchors)[sender := anchor] == anchors;
    }

    /** A task that woke from its sleep commits to flushing before anything else can run. */
    method Resume(id: TimerId) returns (token: string)
      requires Indexed(Now()) && id < |timers|
      modifies this
      ensures Now() == Resumed(old(Now()), id) && token == old(timers[id].token)
    {
      var sender := timers[id].sender;
      token := timers[id].token;
      timers := WithStatus(timers, id, Committed);
      anchors := anchors - {sender};
      if sender in pending && pending[sender] == id {
        pending := pending - {sender};
      }
    }
  }

  // ---- Traces ----

  datatype Event =
    | Arrive(sender: string, token: string, at: real)
    | Fire(sender: string, id: TimerId, at: real)
    | Restart(at: real)

  datatype Message = Message(token: string, at: real)

  /** The messages of a sender that no flush has been started for. */
  function Waiting(trace: seq<Event>, sender: string): seq<Message> {
    if trace == [] then []
    else
      var before := Waiting(trace[..|trace| - 1], sender);
      match trace[|trace| - 1]
      case Arrive(from, token, at) => if from == sender then before + [Message(token, at)] else before
      case Fire(of, _, _) => if of == sender then [] else before
      case Restart(_) => before
  }

  /** Those of them that the running program knows of: they came since it started. */
  function Burst(trace: seq<Event>, sender: string): seq<Message> {
    if trace == [] then []
    else
      var before := Burst(trace[..|trace| - 1], sender);
      match trace[|trace| - 1]
      case Arrive(from, token, at) => if from == sender then before + [Message(token, at)] else before
      case Fire(of, _, _) => if of == sender then [] else before
      case Restart(_) => []
  }

  function Step(cfg: Config, s: State, e: Event): (t: State)
    requires Indexed(s)
    ensures Indexed(t)
  {
    match e
    case Arrive(sender, token, at) => Scheduled(cfg, s, sender, token, at)
    case Fire(_, id, _) => if id < |s.timers| then Resumed(s, id) else s
    case Restart(_) => Restarted(s)
  }

  function Replay(cfg: Config, trace: seq<Event>): (s: State)
    ensures Indexed(s)
  {
    if trace == [] then State(map[], map[], [])
    else Step(cfg, Replay(cfg, trace[..|trace| - 1]), trace[|trace| - 1])
  }

  /** A timer fires only if it sleeps, and not before it is due. */
  predicate Enabled(s: State, e: Event) {
    e.Fire? ==> e.id < |s.timers| && s.timers[e.id].sender == e.sender && s.timers[e.id].status == Sleeping && s.timers[e.id].due <= e.at
  }

  /** Possibly late timers, on a clock that never goes back. */
  predicate IsTrace(cfg: Config, trace: seq<Event>) {
    trace == []
    || (var before, e := trace[..|trace| - 1], trace[|trace| - 1];
        IsTrace(cfg, before) && Enabled(Replay(cfg, before), e) && (before != [] ==> before[|before| - 1].at <= e.at))
  }

  /** Nothing sleeps past its due time. */
  predicate Punctual(s: State, now: real) {
    forall id :: 0 <= id < |s.timers| && s.timers[id].status == Sleeping ==> now <= s.timers[id].due
  }

  /** Ideal timers: nothing happens after a due time before the timer itself has fired. */
  predicate IsIdeal(cfg: Config, trace: seq<Event>) {
    trace == []
    || (var before, e := trace[..|trace| - 1], trace[|trace| - 1];
        IsIdeal(cfg, before) && Punctual(Replay(cfg, before), e.at))
  }

  /** When a burst's timer is due. */
  function Due(cfg: Config, burst: seq<Message>): real
    requires burst != []
  {
    var last := burst[|burst| - 1].at;
    last + Delay(cfg, burst[0].at, last)
  }

  // ---- What every trace keeps ----

  /** The dictionaries hold exactly the sender's open burst. */
  predicate Agrees(cfg: Config, s: State, sender: string, burst: seq<Message>) {
    && (sender in s.anchors <==> burst != [])
    && (sender in s.pending <==> burst != [])
    && (burst != [] ==>
          && s.anchors[sender] == burst[0].at
          && s.pending[sender] < |s.timers|
          && s.timers[s.pending[sender]] == Timer(sender, burst[|burst| - 1].token, Due(cfg, burst), Sleeping))
    && (forall id :: 0 <= id < |s.timers| && s.timers[id].sender == sender && s.timers[id].status == Sleeping ==>
          sender in s.pending && s.pending[sender] == id)
  }

  lemma ArriveAgrees(cfg: Config, s: State, sender: string, burst: seq<Message>, from: string, token: string, at: real)
    requires Indexed(s) && Agrees(cfg, s, sender, burst)
    requires from != sender && from in s.pending ==> s.timers[s.pending[from]].sender == from
    ensures Agrees(cfg, Scheduled(cfg, s, from, token, at), sender, if from == sender then burst + [Message(token, at)] else burst)
  {
  }

  lemma FireAgrees(cfg: Config, s: State, sender: string, burst: seq<Message>, of: string, id: TimerId)
    requires Indexed(s) && Agrees(cfg, s, sender, burst)
    requires id < |s.timers| && s.timers[id].sender == of && s.timers[id].status == Sleeping
    ensures Agrees(cfg, Resumed(s, id), sender, if of == sender then [] else burst)
  {
  }

  lemma RestartAgrees(cfg: Config, s: State, sender: string)
    ensures Agrees(cfg, Restarted(s), sender, [])
  {
  }

  /** Over every interleaving of arrivals, possibly late timers and restarts, for every sender: the
      anchor and the pending timer exist exactly while a burst is open, the anchor is the time of
      its first message, and the one live timer is due at the capped debounce of its last one. */
  lemma {:induction false} DictionariesAgree(cfg: Config, trace: seq<Event>, sender: string)
    requires IsTrace(cfg, trace)
    ensures Agrees(cfg, Replay(cfg, trace), sender, Burst(trace, sender))
  {
    if trace != [] {
      var before, e := trace[..|trace| - 1], trace[|trace| - 1];
      var s := Replay(cfg, before);
      DictionariesAgree(cfg, before, sender);
      match e
      case Arrive(from, token, at) =>
        DictionariesAgree(cfg, before, from);
        ArriveAgrees(cfg, s, sender, Burst(before, sender), from, token, at);
      case Fire(of, id, _) =>
        FireAgrees(cfg, s, sender, Burst(before, sender), of, id);
      case Restart(_) => RestartAgrees(cfg, s, sender);
    }
  }

  lemma AnchorsArePending(cfg: Config, trace: seq<Event>)
    requires IsTrace(cfg, trace)
    ensures Replay(cfg, trace).anchors.Keys == Replay(cfg, trace).pending.Keys
  {
    forall sender ensures sender in Replay(cfg, trace).anchors <==> sender in Replay(cfg, trace).pending {
      DictionariesAgree(cfg, trace, sender);
    }
  }

  /** At most one timer of a sender is live and uncommitted. */
  lemma OneLiveTimer(cfg: Config, trace: seq<Event>, i: TimerId, j: TimerId)
    requires IsTrace(cfg, trace)
    requires var timers := Replay(cfg, trace).timers;
             && i < |timers| && j < |timers| && timers[i].sender == timers[j].sender
             && timers[i].status == Sleeping && timers[j].status == Sleeping
    ensures i == j
  {
    DictionariesAgree(cfg, trace, Replay(cfg, trace).timers[i].sender);
  }

  /** A task that has committed to flushing is never cancelled, and a cancelled one never
      flushes. */
  lemma {:induction false} StatusIsFinal(cfg: Config, trace: seq<Event>, n: nat, id: TimerId)
    requires IsTrace(cfg, trace) && n <= |trace|
    requires id < |Replay(cfg, trace[..n]).timers|
    ensures id < |Replay(cfg, trace).timers|
    ensures var was, is_ := Replay(cfg, trace[..n]).timers[id].status, Replay(cfg, trace).timers[id].status;
            was != Sleeping ==> is_ == was
  {
    if n < |trace| {
      var before, e := trace[..|trace| - 1], trace[|trace| - 1];
      assert before[..n] == trace[..n];
      StatusIsFinal(cfg, before, n, id);
      if e.Arrive? {
        DictionariesAgree(cfg, before, e.sender);
      }
    } else {
      assert trace[..n] == trace;
    }
  }

  // ---- When bursts are flushed ----

  /** With ideal timers a message never comes after its burst's cap. */
  lemma {:induction false} WithinCap(cfg: Config, trace: seq<Event>, sender: string)
    requires IsTrace(cfg, trace) && IsIdeal(cfg, trace) && cfg.window >= 0.0 && cfg.cap >= 0.0
    ensures var burst := Burst(trace, sender);
            burst != [] ==>
              burst[0].at <= burst[|burst| - 1].at <= burst[0].at + cfg.cap && burst[|burst| - 1].at <= trace[|trace| - 1].at
  {
    if trace != [] {
      var before := trace[..|trace| - 1];
      WithinCap(cfg, before, sender);
      DictionariesAgree(cfg, before, sender);
    }
  }

  /** With ideal timers every burst is flushed at exactly the earlier of its last message plus
      the window and its first message plus the cap, with the last message's token. */
  lemma FiresExactly(cfg: Config, trace: seq<Event>, sender: string, id: TimerId, at: real)
    requires cfg.window >= 0.0 && cfg.cap >= 0.0
    requires IsTrace(cfg, trace + [Fire(sender, id, at)]) && IsIdeal(cfg, trace + [Fire(sender, id, at)])
    ensures var burst := Burst(trace, sender);
            && burst != []
            && at == Min(burst[|burst| - 1].at + cfg.window, burst[0].at + cfg.cap)
            && Replay(cfg, trace).timers[id].token == burst[|burst| - 1].token
  {
    var full := trace + [Fire(sender, id, at)];
    assert full[..|full| - 1] == trace;
    DictionariesAgree(cfg, trace, sender);
    WithinCap(cfg, trace, sender);
  }

  /** The messages handed to each flush of the sender, in order. */
  function Flushed(trace: seq<Event>, sender: string): seq<seq<Message>> {
    if trace == [] then []
    else
      var before, e := trace[..|trace| - 1], trace[|trace| - 1];
      if e.Fire? && e.sender == sender then Flushed(before, sender) + [Waiting(before, sender)] else Flushed(before, sender)
  }

  function Arrivals(trace: seq<Event>, sender: string): seq<Message> {
    if trace == [] then []
    else
      var before, e := trace[..|trace| - 1], trace[|trace| - 1];
      if e.Arrive? && e.sender == sender then Arrivals(before, sender) + [Message(e.token, e.at)] else Arrivals(before, sender)
  }

  /** A burst is the end of what waits. */
  lemma {:induction false} BurstWaits(trace: seq<Event>, sender: string)
    ensures var waiting, burst := Waiting(trace, sender), Burst(trace, sender);
            |burst| <= |waiting| && burst == waiting[|waiting| - |burst|..]
  {
    if trace != [] {
      BurstWaits(trace[..|trace| - 1], sender);
    }
  }

  /** Every message is handed to exactly one flush: what the flushes took, then what waits, are
      the sender's messages in order of arrival, and no flush is for nothing. */
  lemma {:induction false} BurstsPartition(cfg: Config, trace: seq<Event>, sender: string)
    requires IsTrace(cfg, trace)
    ensures Arrivals(trace, sender) == Flatten(Flushed(trace, sender)) + Waiting(trace, sender)
    ensures forall i :: 0 <= i < |Flushed(trace, sender)| ==> Flushed(trace, sender)[i] != []
  {
    if trace != [] {
      var before, e := trace[..|trace| - 1], trace[|trace| - 1];
      BurstsPartition(cfg, before, sender);
      if e.Fire? && e.sender == sender {
        DictionariesAgree(cfg, before, sender);
        BurstWaits(before, sender);
        var flushed := Flushed(trace, sender);
        assert flushed[..|flushed| - 1] == Flushed(before, sender);
      }
    }
  }

  // ---- Messages without a timer ----

  /** Some task will hand the sender's messages to a flush. */
  predicate HasTimer(s: State, sender: string) {
    exists id :: 0 <= id < |s.timers| && s.timers[id].sender == sender && s.timers[id].status == Sleeping
  }

  /** A burst that the program knows of has its timer, and nothing else has. */
  lemma TimedExactly(cfg: Config, trace: seq<Event>, sender: string)
    requires IsTrace(cfg, trace)
    ensures HasTimer(Replay(cfg, trace), sender) <==> Burst(trace, sender) != []
  {
    DictionariesAgree(cfg, trace, sender);
    var s := Replay(cfg, trace);
    if Burst(trace, sender) != [] {
      assert s.timers[s.pending[sender]].status == Sleeping;
    }
  }

  predicate ArrivalOf(e: Event, sender: string) {
    e.Arrive? && e.sender == sender
  }

  /** Event `r` restarted the program while messages were waiting, and none has come since. */
  predicate OrphanedSince(trace: seq<Event>, sender: string, r: nat)
    requires r < |trace|
  {
    && trace[r].Restart? && Waiting(trace[..r], sender) != []
    && forall k :: r < k < |trace| ==> !ArrivalOf(trace[k], sender)
  }

  predicate Untimed(trace: seq<Event>, sender: string) {
    Waiting(trace, sender) != [] && Burst(trace, sender) == []
  }

  /** A restart leaves what waits without a timer, until the sender's next message: there is
      nothing to fire before. */
  lemma StepUntimes(cfg: Config, trace: seq<Event>, sender: string)
    requires trace != [] && IsTrace(cfg, trace)
    ensures var before, e := trace[..|trace| - 1], trace[|trace| - 1];
            Untimed(trace, sender) <==>
              (Untimed(before, sender) && !ArrivalOf(e, sender)) || (e.Restart? && Waiting(before, sender) != [])
  {
    var before, e := trace[..|trace| - 1], trace[|trace| - 1];
    if e.Fire? && e.sender == sender {
      TimedExactly(cfg, before, sender);
      assert HasTimer(Replay(cfg, before), sender);
    }
  }

  lemma OneMoreSince(trace: seq<Event>, sender: string, r: nat)
    requires r < |trace|
    ensures var n := |trace| - 1;
            OrphanedSince(trace, sender, r) <==>
              if r < n then OrphanedSince(trace[..n], sender, r) && !ArrivalOf(trace[n], sender)
              else trace[n].Restart? && Waiting(trace[..n], sender) != []
  {
    var n := |trace| - 1;
    assert r < n ==> trace[..n][..r] == trace[..r];
  }

  lemma {:induction false} UntimedExactly(cfg: Config, trace: seq<Event>, sender: string)
    requires IsTrace(cfg, trace)
    ensures Untimed(trace, sender) <==> exists r: nat :: r < |trace| && OrphanedSince(trace, sender, r)
  {
    if trace != [] {
      var n := |trace| - 1;
      UntimedExactly(cfg, trace[..n], sender);
      StepUntimes(cfg, trace, sender);
      OneMoreSince(trace, sender, n);
      if r: nat :| r < n && OrphanedSince(trace[..n], sender, r) {
        OneMoreSince(trace, sender, r);
      }
      if r: nat :| r < |trace| && OrphanedSince(trace, sender, r) {
        OneMoreSince(trace, sender, r);
      }
    }
  }

  /** Messages wait without a timer if and only if the program was restarted while messages
      waited and the sender has not written since: the next message's timer takes them along. */
  lemma TimerlessExactly(cfg: Config, trace: seq<Event>, sender: string)
    requires IsTrace(cfg, trace)
    ensures Waiting(trace, sender) != [] && !HasTimer(Replay(cfg, trace), sender)
            <==> exists r: nat :: r < |trace| && OrphanedSince(trace, sender, r)
  {
    TimedExactly(cfg, trace, sender);
    UntimedExactly(cfg, trace, sender);
  }

  /** No message is forgotten by the debounce: it was handed to a flush, or the sender's one live
      timer will hand it to the next, unless a restart has lost that timer. */
  lemma EveryMessageHasItsFlush(cfg: Config, trace: seq<Event>, sender: string) returns (id: TimerId)
    requires IsTrace(cfg, trace)
    ensures Arrivals(trace, sender) == Flatten(Flushed(trace, sender)) + Waiting(trace, sender)
    ensures var s, burst := Replay(cfg, trace), Burst(trace, sender);
            burst != [] ==>
              id < |s.timers| && s.timers[id] == Timer(sender, burst[|burst| - 1].token, Due(cfg, burst), Sleeping)
    ensures Waiting(trace, sender) == [] || Burst(trace, sender) != []
            <==> !exists r: nat :: r < |trace| && OrphanedSince(trace, sender, r)
  {
    BurstsPartition(cfg, trace, sender);
    DictionariesAgree(cfg, trace, sender);
    TimerlessExactly(cfg, trace, sender);
    TimedExactly(cfg, trace, sender);
    id := if sender in Replay(cfg, trace).pending then Replay(cfg, trace).pending[sender] else 0;
  }

  /** Late timers are only ever late. */
  lemma NeverEarly(cfg: Config, trace: seq<Event>, sender: string, id: TimerId, at: real)
    requires IsTrace(cfg, trace + [Fire(sender, id, at)])
    ensures var burst := Burst(trace, sender);
            && burst != []
            && at >= Min(burst[|burst| - 1].at + cfg.window, burst[0].at + cfg.cap)
  {
    var full := trace + [Fire(sender, id, at)];
    assert full[..|full| - 1] == trace;
    DictionariesAgree(cfg, trace, sender);
  }
}
