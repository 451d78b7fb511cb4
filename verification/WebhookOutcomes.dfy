/** Exactly which message meets which fate at the webhook, each condition read off the traffic
    that came before it: blocks, handoffs, the hits of a window and the messages waiting. */
module WebhookOutcomes {
  import opened Prelude
  import opened RateWindows
  import opened Webhook

  // ---- Prefixes ----

  /** The keys before event `n`. */
  function KeysBefore(cfg: Config, trace: seq<Timed>, n: nat): Keys
    requires n <= |trace|
  {
    Replay(cfg, trace[..n])
  }

  lemma NextKeys(cfg: Config, trace: seq<Timed>, n: nat)
    requires n < |trace|
    ensures KeysBefore(cfg, trace, n + 1) == Step(cfg, KeysBefore(cfg, trace, n), trace[n])
  {
    assert trace[..n + 1][..n] == trace[..n];
  }

  /** Message `i` is the sender's, and met one of these fates. */
  predicate Met(cfg: Config, trace: seq<Timed>, i: nat, sender: string, fates: set<Outcome>)
    requires i < |trace|
  {
    trace[i].event.Arrive? && trace[i].event.message.sender == sender && OutcomeAt(cfg, trace, i) in fates
  }

  // ---- Blocks ----

  /** Message `i` got its sender blocked. */
  predicate Blocks(cfg: Config, trace: seq<Timed>, i: nat, sender: string)
    requires i < |trace|
  {
    Met(cfg, trace, i, sender, {Flooded, Overflowed})
  }

  lemma StepBlocks(cfg: Config, k: Keys, e: Timed, sender: string)
    ensures var after := Step(cfg, k, e).blocked;
            if e.event.Arrive? && e.event.message.sender == sender && Admit(cfg, k, e.event.message, e.at).outcome in {Flooded, Overflowed}
            then sender in after && after[sender] == e.at + cfg.blockCooldown
            else (sender in after <==> sender in k.blocked) && (sender in after ==> after[sender] == k.blocked[sender])
  {
  }

  /** What one event does to the sender's block. */
  lemma NextBlocks(cfg: Config, trace: seq<Timed>, n: nat, sender: string)
    requires n < |trace|
    ensures var before, after := KeysBefore(cfg, trace, n).blocked, KeysBefore(cfg, trace, n + 1).blocked;
            if Blocks(cfg, trace, n, sender) then sender in after && after[sender] == trace[n].at + cfg.blockCooldown
            else (sender in after <==> sender in before) && (sender in after ==> after[sender] == before[sender])
  {
    NextKeys(cfg, trace, n);
    StepBlocks(cfg, KeysBefore(cfg, trace, n), trace[n], sender);
  }

  /** A sender's block was left by the last message that got it blocked. */
  predicate LastBlock(cfg: Config, trace: seq<Timed>, n: nat, i: nat, sender: string)
    requires n <= |trace|
  {
    i < n && Blocks(cfg, trace, i, sender) && forall k: nat :: i < k < n ==> !Blocks(cfg, trace, k, sender)
  }

  lemma StillLast(cfg: Config, trace: seq<Timed>, n: nat, i: nat, sender: string)
    requires n < |trace| && LastBlock(cfg, trace, n, i, sender) && !Blocks(cfg, trace, n, sender)
    ensures LastBlock(cfg, trace, n + 1, i, sender)
  {
  }

  lemma {:induction false} BlockHasSource(cfg: Config, trace: seq<Timed>, n: nat, sender: string) returns (i: nat)
    requires n <= |trace| && sender in KeysBefore(cfg, trace, n).blocked
    ensures LastBlock(cfg, trace, n, i, sender)
    ensures KeysBefore(cfg, trace, n).blocked[sender] == trace[i].at + cfg.blockCooldown
  {
    NextBlocks(cfg, trace, n - 1, sender);
    if Blocks(cfg, trace, n - 1, sender) {
      i := n - 1;
    } else {
      i := BlockHasSource(cfg, trace, n - 1, sender);
      StillLast(cfg, trace, n - 1, i, sender);
    }
  }

  lemma {:induction false} BlockStays(cfg: Config, trace: seq<Timed>, n: nat, i: nat, sender: string)
    requires i < n <= |trace| && Blocks(cfg, trace, i, sender)
    ensures sender in KeysBefore(cfg, trace, n).blocked
  {
    NextBlocks(cfg, trace, n - 1, sender);
    if i < n - 1 {
      BlockStays(cfg, trace, n - 1, i, sender);
    }
  }

  lemma FirstCheck(cfg: Config, k: Keys, m: Incoming, at: real)
    ensures Admit(cfg, k, m, at).outcome == Discarded <==> Alive(k.blocked, m.sender, at)
  {
  }

  /** A message is discarded if and only if one of its sender's flooded the limiter or overflowed
      the buffer less than the cooldown ago. */
  lemma DiscardedExactly(cfg: Config, trace: seq<Timed>, j: nat)
    requires Ordered(trace) && j < |trace| && trace[j].event.Arrive?
    ensures OutcomeAt(cfg, trace, j) == Discarded
            <==> exists i: nat :: i < j && Blocks(cfg, trace, i, trace[j].event.message.sender) && trace[j].at < trace[i].at + cfg.blockCooldown
  {
    var sender := trace[j].event.message.sender;
    FirstCheck(cfg, KeysBefore(cfg, trace, j), trace[j].event.message, trace[j].at);
    if sender in KeysBefore(cfg, trace, j).blocked {
      var last := BlockHasSource(cfg, trace, j, sender);
      if i: nat :| i < j && Blocks(cfg, trace, i, sender) && trace[j].at < trace[i].at + cfg.blockCooldown {
        InOrder(trace, i, last);
      }
    } else if i: nat :| i < j && Blocks(cfg, trace, i, sender) {
      BlockStays(cfg, trace, j, i, sender);
    }
  }

  // ---- Handoffs ----

  lemma {:induction false} FlagsAreHandoffs(cfg: Config, trace: seq<Timed>, n: nat, sender: string)
    requires n <= |trace|
    ensures sender in KeysBefore(cfg, trace, n).handedOff <==> exists i: nat :: i < n && trace[i].event == HandOff(sender)
  {
    if n > 0 {
      NextKeys(cfg, trace, n - 1);
      StepFlags(cfg, KeysBefore(cfg, trace, n - 1), trace[n - 1], sender);
      FlagsAreHandoffs(cfg, trace, n - 1, sender);
    }
  }

  lemma StepFlags(cfg: Config, k: Keys, e: Timed, sender: string)
    ensures sender in Step(cfg, k, e).handedOff <==> sender in k.handedOff || e.event == HandOff(sender)
  {
  }

  lemma ThirdCheck(cfg: Config, k: Keys, m: Incoming, at: real)
    ensures Admit(cfg, k, m, at).outcome == Mirrored
            <==> Admit(cfg, k, m, at).outcome !in {Discarded, Duplicate} && m.sender in k.handedOff
  {
  }

  /** A message is mirrored if and only if it is neither discarded nor a duplicate and its sender
      was handed off before. */
  lemma MirroredExactly(cfg: Config, trace: seq<Timed>, j: nat)
    requires j < |trace| && trace[j].event.Arrive?
    ensures OutcomeAt(cfg, trace, j) == Mirrored
            <==> && OutcomeAt(cfg, trace, j) !in {Discarded, Duplicate}
                 && exists i: nat :: i < j && trace[i].event == HandOff(trace[j].event.message.sender)
  {
    ThirdCheck(cfg, KeysBefore(cfg, trace, j), trace[j].event.message, trace[j].at);
    FlagsAreHandoffs(cfg, trace, j, trace[j].event.message.sender);
  }

  // ---- The limiter ----

  /** Message `i` of the sender reached the limiter. */
  predicate Hits(cfg: Config, trace: seq<Timed>, i: nat, sender: string)
    requires i < |trace|
  {
    Met(cfg, trace, i, sender, {Flooded, Overflowed, Buffered})
  }

  /** When the sender's latest window before event `n` began: with the first hit, and then with
      each that came when the last one was over. */
  function WindowStart(cfg: Config, trace: seq<Timed>, n: nat, sender: string): Option<real>
    requires n <= |trace|
  {
    if n == 0 then None
    else
      var earlier := WindowStart(cfg, trace, n - 1, sender);
      var at := trace[n - 1].at;
      if Hits(cfg, trace, n - 1, sender) && (earlier.None? || earlier.value + cfg.rateWindow <= at) then Some(at) else earlier
  }

  /** How many of the sender's messages before event `n` hit the limiter at or after a time. */
  function HitsSince(cfg: Config, trace: seq<Timed>, n: nat, sender: string, from: real): nat
    requires n <= |trace|
  {
    if n == 0 then 0
    else HitsSince(cfg, trace, n - 1, sender, from) + if Hits(cfg, trace, n - 1, sender) && from <= trace[n - 1].at then 1 else 0
  }

  /** The hits before event `n` all came before a time. */
  predicate HitsBefore(cfg: Config, trace: seq<Timed>, n: nat, sender: string, to: real)
    requires n <= |trace|
  {
    forall i: nat :: i < n && Hits(cfg, trace, i, sender) ==> trace[i].at < to
  }

  lemma {:induction false} NoneSince(cfg: Config, trace: seq<Timed>, n: nat, sender: string, from: real)
    requires n <= |trace| && HitsBefore(cfg, trace, n, sender, from)
    ensures HitsSince(cfg, trace, n, sender, from) == 0
  {
    if n > 0 {
      NoneSince(cfg, trace, n - 1, sender, from);
    }
  }

  /** The limiter's key: the hits of the latest window, and when it ends. */
  ghost predicate CounterFits(cfg: Config, trace: seq<Timed>, n: nat, sender: string)
    requires n <= |trace|
  {
    var c, start := CounterOf(KeysBefore(cfg, trace, n).rate, sender), WindowStart(cfg, trace, n, sender);
    && (c.Some? <==> start.Some?)
    && (start.None? ==> forall i: nat :: i < n ==> !Hits(cfg, trace, i, sender))
    && (start.Some? ==>
          && c.value.expires == start.value + cfg.rateWindow
          && c.value.count == HitsSince(cfg, trace, n, sender, start.value)
          && n > 0 && start.value <= trace[n - 1].at
          && HitsBefore(cfg, trace, n, sender, start.value + cfg.rateWindow))
  }

  lemma StepCounts(cfg: Config, k: Keys, e: Timed, sender: string)
    ensures var before, after := CounterOf(k.rate, sender), CounterOf(Step(cfg, k, e).rate, sender);
            if e.event.Arrive? && e.event.message.sender == sender && Admit(cfg, k, e.event.message, e.at).outcome in {Flooded, Overflowed, Buffered}
            then after == Some(Hit(cfg.rateWindow, before, e.at))
            else after == before
  {
    if e.event.Arrive? {
      LimiterDecides(cfg, k, e.event.message, e.at);
    }
  }

  lemma NextCounts(cfg: Config, trace: seq<Timed>, n: nat, sender: string)
    requires n < |trace|
    ensures var before, after := CounterOf(KeysBefore(cfg, trace, n).rate, sender), CounterOf(KeysBefore(cfg, trace, n + 1).rate, sender);
            after == if Hits(cfg, trace, n, sender) then Some(Hit(cfg.rateWindow, before, trace[n].at)) else before
  {
    NextKeys(cfg, trace, n);
    StepCounts(cfg, KeysBefore(cfg, trace, n), trace[n], sender);
  }

  lemma AllBefore(cfg: Config, trace: seq<Timed>, n: nat, sender: string, at: real)
    requires n <= |trace| && CounterFits(cfg, trace, n, sender)
    requires var start := WindowStart(cfg, trace, n, sender); start.Some? ==> start.value + cfg.rateWindow <= at
    ensures HitsBefore(cfg, trace, n, sender, at)
  {
  }

  lemma OneMoreBefore(cfg: Config, trace: seq<Timed>, n: nat, sender: string, to: real)
    requires n < |trace| && trace[n].at < to && HitsBefore(cfg, trace, n, sender, to)
    ensures HitsBefore(cfg, trace, n + 1, sender, to)
  {
  }

  /** A hit while the window is open is counted in it. */
  lemma HitContinues(cfg: Config, trace: seq<Timed>, n: nat, sender: string)
    requires Ordered(trace) && n < |trace| && Hits(cfg, trace, n, sender) && CounterFits(cfg, trace, n, sender)
    requires var start := WindowStart(cfg, trace, n, sender); start.Some? && trace[n].at < start.value + cfg.rateWindow
    ensures CounterFits(cfg, trace, n + 1, sender)
  {
    NextCounts(cfg, trace, n, sender);
    InOrder(trace, n - 1, n);
    OneMoreBefore(cfg, trace, n, sender, WindowStart(cfg, trace, n, sender).value + cfg.rateWindow);
  }

  /** Any other opens the next window. */
  lemma HitOpens(cfg: Config, trace: seq<Timed>, n: nat, sender: string)
    requires cfg.rateWindow > 0.0 && n < |trace| && Hits(cfg, trace, n, sender) && CounterFits(cfg, trace, n, sender)
    requires var start := WindowStart(cfg, trace, n, sender); start.Some? ==> start.value + cfg.rateWindow <= trace[n].at
    ensures CounterFits(cfg, trace, n + 1, sender)
  {
    NextCounts(cfg, trace, n, sender);
    AllBefore(cfg, trace, n, sender, trace[n].at);
    NoneSince(cfg, trace, n, sender, trace[n].at);
    AllBefore(cfg, trace, n, sender, trace[n].at + cfg.rateWindow);
    OneMoreBefore(cfg, trace, n, sender, trace[n].at + cfg.rateWindow);
  }

  lemma HitFits(cfg: Config, trace: seq<Timed>, n: nat, sender: string)
    requires Ordered(trace) && cfg.rateWindow > 0.0 && n < |trace| && Hits(cfg, trace, n, sender)
    requires CounterFits(cfg, trace, n, sender)
    ensures CounterFits(cfg, trace, n + 1, sender)
  {
    var start := WindowStart(cfg, trace, n, sender);
    if start.Some? && trace[n].at < start.value + cfg.rateWindow {
      HitContinues(cfg, trace, n, sender);
    } else {
      HitOpens(cfg, trace, n, sender);
    }
  }

  lemma MissFits(cfg: Config, trace: seq<Timed>, n: nat, sender: string)
    requires Ordered(trace) && n < |trace| && !Hits(cfg, trace, n, sender) && CounterFits(cfg, trace, n, sender)
    ensures CounterFits(cfg, trace, n + 1, sender)
  {
    NextCounts(cfg, trace, n, sender);
    if n > 0 {
      InOrder(trace, n - 1, n);
    }
  }

  /** Over any traffic, the limiter's key counts the hits of the latest window. */
  lemma {:induction false} CounterCountsHits(cfg: Config, trace: seq<Timed>, n: nat, sender: string)
    requires Ordered(trace) && cfg.rateWindow > 0.0 && n <= |trace|
    ensures CounterFits(cfg, trace, n, sender)
  {
    if n > 0 {
      CounterCountsHits(cfg, trace, n - 1, sender);
      if Hits(cfg, trace, n - 1, sender) {
        HitFits(cfg, trace, n - 1, sender);
      } else {
        MissFits(cfg, trace, n - 1, sender);
      }
    }
  }

  /** How many of the sender's messages hit the limiter in the window message `j` hits it in, up to
      and with that message. */
  function HitsInWindow(cfg: Config, trace: seq<Timed>, j: nat, sender: string): nat
    requires j < |trace|
  {
    match WindowStart(cfg, trace, j + 1, sender)
    case None => 0
    case Some(start) => HitsSince(cfg, trace, j + 1, sender, start)
  }

  lemma FourthCheck(cfg: Config, k: Keys, m: Incoming, at: real)
    ensures var outcome := Admit(cfg, k, m, at).outcome;
            outcome == Flooded
            <==> outcome in {Flooded, Overflowed, Buffered} && Hit(cfg.rateWindow, CounterOf(k.rate, m.sender), at).count > cfg.rateThreshold
  {
    LimiterDecides(cfg, k, m, at);
  }

  /** A message floods if and only if it reaches the limiter and its sender's hits in the current
      window, this one included, exceed the threshold. */
  lemma FloodedExactly(cfg: Config, trace: seq<Timed>, j: nat)
    requires Ordered(trace) && cfg.rateWindow > 0.0 && j < |trace| && trace[j].event.Arrive?
    ensures OutcomeAt(cfg, trace, j) == Flooded
            <==> && OutcomeAt(cfg, trace, j) !in {Discarded, Duplicate, Mirrored}
                 && HitsInWindow(cfg, trace, j, trace[j].event.message.sender) > cfg.rateThreshold
  {
    var sender := trace[j].event.message.sender;
    FourthCheck(cfg, KeysBefore(cfg, trace, j), trace[j].event.message, trace[j].at);
    if Hits(cfg, trace, j, sender) {
      CounterCountsHits(cfg, trace, j, sender);
      HitFits(cfg, trace, j, sender);
      NextCounts(cfg, trace, j, sender);
    }
  }

  // ---- The buffer ----

  lemma LastCheck(cfg: Config, k: Keys, m: Incoming, at: real)
    ensures var outcome := Admit(cfg, k, m, at).outcome;
            && (outcome == Overflowed <==> outcome in {Overflowed, Buffered} && |BufferOf(k, m.sender)| + 1 > cfg.bufferMax)
            && (outcome == Buffered <==> outcome in {Overflowed, Buffered} && |BufferOf(k, m.sender)| + 1 <= cfg.bufferMax)
  {
  }

  /** A message overflows if and only if it passes the limiter and more than the maximum would then
      be waiting, and is buffered, and its timer armed, if and only if it passes and fits. */
  lemma BufferedExactly(cfg: Config, trace: seq<Timed>, j: nat)
    requires j < |trace| && trace[j].event.Arrive?
    ensures var outcome, waiting := OutcomeAt(cfg, trace, j), |Waiting(cfg, trace[..j], trace[j].event.message.sender)|;
            && (outcome == Overflowed <==> outcome !in {Discarded, Duplicate, Mirrored, Flooded} && waiting + 1 > cfg.bufferMax)
            && (outcome == Buffered <==> outcome !in {Discarded, Duplicate, Mirrored, Flooded} && waiting + 1 <= cfg.bufferMax)
  {
    LastCheck(cfg, KeysBefore(cfg, trace, j), trace[j].event.message, trace[j].at);
    BufferHoldsWaiting(cfg, trace[..j], trace[j].event.message.sender);
  }
}
