/** The per-sender lock: one key set with NX and a TTL, and released by an optimistic
    WATCH / GET / MULTI-DELETE-EXEC loop. Clients interleave at every await. */
module LockKey {
  import opened Prelude
  import opened Leases

  /** Where a client stands: it holds (or believes it holds) the lock, it is between WATCH and
      GET, it has read its own token and is about to EXEC, or it is done. */
  datatype Client = Holding | Watched(seen: nat) | Deciding(seen: nat) | Finished

  /** The server's clock, the key and a counter of its modifications, which is what WATCH
      observes; the clients, and the lease each one was granted and has not deleted. */
  datatype LockState = LockState(
    now: real,
    key: Option<Lease>,
    version: nat,
    clients: map<Token, Client>,
    leases: map<Token, real>)

  const NO_LOCK := LockState(0.0, None, 0, map[], map[])

  /** One atomic server-side effect. Tokens are fresh: a token that was used acquires
      nothing. Redis may or may not count an eviction as a modification. */
  datatype Event =
    | Tick(elapsed: real)
    | Evict(noticed: bool)
    | Acquire(token: Token, ttl: real)
    | Watch(token: Token)
    | Read(token: Token)
    | Exec(token: Token)

  function Apply(s: LockState, e: Event): LockState {
    match e
    case Tick(elapsed) =>
      if elapsed >= 0.0 then s.(now := s.now + elapsed) else s
    case Evict(noticed) =>
      if s.key.Some? && s.now >= s.key.value.expires
      then s.(key := None, version := if noticed then s.version + 1 else s.version) else s
    case Acquire(t, ttl) =>
      if t in s.clients || ttl <= 0.0 then s
      else if InForce(s.key, s.now).Some? then s.(clients := s.clients[t := Finished])
      else s.(key := Some(Lease(t, s.now + ttl)), version := s.version + 1,
              clients := s.clients[t := Holding], leases := s.leases[t := s.now + ttl])
    case Watch(t) =>
      if t in s.clients && s.clients[t] == Holding then s.(clients := s.clients[t := Watched(s.version)]) else s
    case Read(t) =>
      if t in s.clients && s.clients[t].Watched? then
        var lease := InForce(s.key, s.now);
        s.(clients := s.clients[t := if lease.Some? && lease.value.owner == t then Deciding(s.clients[t].seen) else Finished])
      else s
    case Exec(t) =>
      if t in s.clients && s.clients[t].Deciding? then
        if s.clients[t].seen == s.version
        then s.(key := None, version := s.version + 1, clients := s.clients[t := Finished], leases := s.leases - {t})
        else s.(clients := s.clients[t := Holding])
      else s
  }

  function ApplyAll(s: LockState, trace: seq<Event>): LockState {
    if trace == [] then s else Apply(ApplyAll(s, trace[..|trace| - 1]), trace[|trace| - 1])
  }

  // ---- Safety over every interleaving ----

  ghost predicate Sane(s: LockState) {
    && (forall t :: t in s.leases ==> t in s.clients)
    && (forall t :: t in s.leases && s.now < s.leases[t] ==> s.key == Some(Lease(t, s.leases[t])))
    && (s.key.Some? ==> s.key.value.owner in s.leases && s.leases[s.key.value.owner] == s.key.value.expires)
    && (forall t :: t in s.clients && (s.clients[t].Watched? || s.clients[t].Deciding?) ==> s.clients[t].seen <= s.version)
    && (forall t :: t in s.clients && s.clients[t].Deciding? && s.clients[t].seen == s.version && s.key.Some? ==> s.key.value.owner == t)
  }

  lemma StepKeepsSane(s: LockState, e: Event)
    requires Sane(s)
    ensures Sane(Apply(s, e))
  {
    match e
    case Read(t) => ReadKeepsSane(s, t);
    case Exec(t) => ExecKeepsSane(s, t);
    case Acquire(t, ttl) => AcquireKeepsSane(s, t, ttl);
    case _ =>
  }

  lemma AcquireKeepsSane(s: LockState, t: Token, ttl: real)
    requires Sane(s)
    ensures Sane(Apply(s, Acquire(t, ttl)))
  {
  }

  lemma ReadKeepsSane(s: LockState, t: Token)
    requires Sane(s)
    ensures Sane(Apply(s, Read(t)))
  {
  }

  lemma ExecKeepsSane(s: LockState, t: Token)
    requires Sane(s)
    ensures Sane(Apply(s, Exec(t)))
  {
  }

  lemma {:induction false} TraceKeepsSane(s: LockState, trace: seq<Event>)
    requires Sane(s)
    ensures Sane(ApplyAll(s, trace))
  {
    if trace != [] {
      TraceKeepsSane(s, trace[..|trace| - 1]);
      StepKeepsSane(ApplyAll(s, trace[..|trace| - 1]), trace[|trace| - 1]);
    }
  }

  /** In every reachable state at most one client holds a lease that has not expired, and
      nobody else's acquisition can succeed while it does. */
  lemma AtMostOneUnexpiredOwner(trace: seq<Event>, t: Token, u: Token, v: Token, ttl: real)
    requires var s := ApplyAll(NO_LOCK, trace);
             && t in s.leases && s.now < s.leases[t]
             && u in s.leases && s.now < s.leases[u]
             && v !in s.clients
    ensures t == u
    ensures var s := ApplyAll(NO_LOCK, trace);
            && s.key == Some(Lease(t, s.leases[t]))
            && v !in Apply(s, Acquire(v, ttl)).leases && Apply(s, Acquire(v, ttl)).key == s.key
  {
    TraceKeepsSane(NO_LOCK, trace);
  }

  /** A lease is only ever taken away by its own client: until its TTL runs out no step of
      anyone else, releases included, removes it. */
  lemma OthersCannotRelease(trace: seq<Event>, e: Event, t: Token)
    requires var s := ApplyAll(NO_LOCK, trace); t in s.leases && s.now < s.leases[t]
    requires e != Exec(t)
    ensures var s, after := ApplyAll(NO_LOCK, trace), Apply(ApplyAll(NO_LOCK, trace), e);
            && t in after.leases && after.leases[t] == s.leases[t]
            && (after.now < after.leases[t] ==> after.key == s.key == Some(Lease(t, s.leases[t])))
  {
    TraceKeepsSane(NO_LOCK, trace);
    StepKeepsSane(ApplyAll(NO_LOCK, trace), e);
  }

  /** However its three commands interleave with others, a release takes effect as one atomic
      compare-and-delete: at its EXEC when that commits, else at the GET that read another
      owner. Before that it changes nothing, and it never deletes another owner's lock. */
  lemma ReleaseIsCompareAndDelete(trace: seq<Event>, t: Token, e: Event)
    requires e in {Watch(t), Read(t), Exec(t)}
    ensures var s, after := ApplyAll(NO_LOCK, trace), Apply(ApplyAll(NO_LOCK, trace), e);
            && (after.key != s.key ==> s.key.Some? && s.key.value.owner == t && after.key.None?)
            && (t in s.clients && s.clients[t] != Finished && after.clients[t] == Finished ==>
                  InForce(after.key, after.now) == CompareAndDelete(s.key, s.now, t))
  {
    TraceKeepsSane(NO_LOCK, trace);
  }

  // ---- The release loop ----

  predicate Foreign(e: Event, t: Token) {
    e !in {Watch(t), Read(t), Exec(t)} && !(e.Acquire? && e.token == t)
  }

  lemma {:induction false} ForeignKeepsClient(s: LockState, trace: seq<Event>, t: Token)
    requires t in s.clients && forall i :: 0 <= i < |trace| ==> Foreign(trace[i], t)
    ensures t in ApplyAll(s, trace).clients && ApplyAll(s, trace).clients[t] == s.clients[t]
  {
    if trace != [] {
      ForeignKeepsClient(s, trace[..|trace| - 1], t);
    }
  }

  lemma {:induction false} ApplyAllJoin(s: LockState, a: seq<Event>, b: seq<Event>)
    ensures ApplyAll(ApplyAll(s, a), b) == ApplyAll(s, a + b)
  {
    if b == [] {
      assert a + b == a;
    } else {
      ApplyAllJoin(s, a, b[..|b| - 1]);
      assert (a + b)[..|a + b| - 1] == a + b[..|b| - 1];
    }
  }

  /** The server, and what other clients will do to it in the gaps between our awaits. */
  class LockServer {
    var state: LockState
    var gaps: seq<seq<Event>>

    ghost predicate OthersOnly(t: Token)
      reads this
    {
      forall i, j :: 0 <= i < |gaps| && 0 <= j < |gaps[i]| ==> Foreign(gaps[i][j], t)
    }

    /** One awaited command, followed by whatever others do before we run again. */
    method Await(e: Event) returns (ghost trace: seq<Event>)
      modifies this
      ensures state == ApplyAll(old(state), trace) && trace != [] && trace[0] == e
      ensures old(gaps) == [] ==> gaps == [] && trace == [e]
      ensures old(gaps) != [] ==> gaps == old(gaps)[1..] && trace == [e] + old(gaps)[0]
    {
      assert ApplyAll(state, [e]) == Apply(state, e) by {
        assert [e][..0] == [];
      }
      state := Apply(state, e);
      trace := [e];
      if gaps != [] {
        ApplyAllJoin(old(state), [e], gaps[0]);
        trace := [e] + gaps[0];
        state := ApplyAll(state, gaps[0]);
        gaps := gaps[1..];
      }
    }

    /** One of our own commands: whatever others do after it, our client stands where it was put. */
    method Own(e: Event, t: Token) returns (ghost trace: seq<Event>)
      requires t in state.clients && !e.Acquire? && OthersOnly(t)
      modifies this
      ensures state == ApplyAll(old(state), trace)
      ensures t in state.clients && state.clients[t] == Apply(old(state), e).clients[t]
      ensures OthersOnly(t) && |gaps| == if |old(gaps)| == 0 then 0 else |old(gaps)| - 1
      ensures old(gaps) == [] ==> state == Apply(old(state), e)
    {
      trace := Await(e);
      AfterOwn(old(state), trace, t);
      assert old(gaps) == [] ==> trace[..0] == [] && ApplyAll(old(state), trace) == Apply(old(state), e);
    }

    /** WATCH, then GET: whose lease the key holds, to our knowledge. */
    method Look(t: Token) returns (lease: Option<Lease>, ghost trace: seq<Event>)
      requires t in state.clients && state.clients[t] == Holding && OthersOnly(t)
      modifies this
      ensures state == ApplyAll(old(state), trace)
      ensures OthersOnly(t) && |gaps| <= |old(gaps)| && t in state.clients
      ensures if lease.None? || lease.value.owner != t then state.clients[t] == Finished else state.clients[t].Deciding?
      ensures old(gaps) == [] && state.clients[t].Deciding? ==> state.clients[t].seen == state.version
    {
      trace := Own(Watch(t), t);
      lease := InForce(state.key, state.now);
      ghost var reading := Own(Read(t), t);
      ApplyAllJoin(old(state), trace, reading);
      trace := trace + reading;
    }

    /** Release: retry while EXEC reports that the key changed. It ends with our client finished,
        after at most one round more than there were gaps in which others acted. */
    method Release(t: Token) returns (ghost trace: seq<Event>, ghost rounds: nat)
      requires t in state.clients && state.clients[t] == Holding && OthersOnly(t)
      modifies this
      ensures state == ApplyAll(old(state), trace)
      ensures t in state.clients && state.clients[t] == Finished
      ensures rounds <= |old(gaps)| + 1
    {
      trace, rounds := [], 0;
      while true
        invariant state == ApplyAll(old(state), trace)
        invariant t in state.clients && state.clients[t] == Holding && OthersOnly(t)
        invariant rounds + |gaps| <= |old(gaps)|
        decreases |gaps|
      {
        rounds := rounds + 1;
        ghost var looking;
        var lease: Option<Lease>;
        lease, looking := Look(t);
        ApplyAllJoin(old(state), trace, looking);
        trace := trace + looking;
        if lease.None? || lease.value.owner != t {
          return;
        }
        var committed := state.clients[t].seen == state.version;
        ghost var executing := Own(Exec(t), t);
        ApplyAllJoin(old(state), trace, executing);
        trace := trace + executing;
        if committed {
          return;
        }
      }
    }
  }

  /** After our own command others may act, but our client stands where the command put it. */
  lemma AfterOwn(s: LockState, trace: seq<Event>, t: Token)
    requires trace != [] && t in s.clients && !trace[0].Acquire?
    requires forall i :: 1 <= i < |trace| ==> Foreign(trace[i], t)
    ensures t in ApplyAll(s, trace).clients
    ensures ApplyAll(s, trace).clients[t] == Apply(s, trace[0]).clients[t]
  {
    assert trace == [trace[0]] + trace[1..];
    ApplyAllJoin(s, [trace[0]], trace[1..]);
    assert [trace[0]][..0] == [];
    assert ApplyAll(s, [trace[0]]) == Apply(s, trace[0]);
    ForeignKeepsClient(Apply(s, trace[0]), trace[1..], t);
  }
}
