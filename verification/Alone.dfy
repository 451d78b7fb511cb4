/** One process of the protocol left alone: its awaits, one after the other. */
module Alone {
  import opened LeadPayload
  import opened Leases
  import opened ProtocolState
  import opened Protocol

  /** Await `i` of the trace is a step of the machine, answered by `answers[i]`. */
  ghost predicate StepsAt(cfg: Config, t: Token, answers: seq<Oracle>, trace: seq<Moved>, i: int)
    requires HasAllIds(cfg.mapping.tables) && |trace| == |answers| + 1 && 0 <= i < |answers|
  {
    InSection(trace[i].p) && trace[i + 1] == Advance(cfg, trace[i].sh, t, trace[i].p, answers[i])
  }

  /** A run of the machine in which only this process moves. */
  ghost predicate RunsAlone(cfg: Config, t: Token, answers: seq<Oracle>, trace: seq<Moved>) {
    && HasAllIds(cfg.mapping.tables)
    && |trace| == |answers| + 1
    && forall i :: 0 <= i < |answers| ==> StepsAt(cfg, t, answers, trace, i)
  }

  lemma OneMoreAwait(cfg: Config, t: Token, answers: seq<Oracle>, trace: seq<Moved>, o: Oracle, m: Moved)
    requires RunsAlone(cfg, t, answers, trace)
    requires InSection(trace[|trace| - 1].p) && m == Advance(cfg, trace[|trace| - 1].sh, t, trace[|trace| - 1].p, o)
    ensures RunsAlone(cfg, t, answers + [o], trace + [m])
  {
    forall i | 0 <= i < |answers| + 1 ensures StepsAt(cfg, t, answers + [o], trace + [m], i) {
      if i < |answers| {
        assert StepsAt(cfg, t, answers, trace, i);
      }
    }
  }

  ghost predicate RunsFrom(cfg: Config, t: Token, m: Moved, answers: seq<Oracle>, trace: seq<Moved>, n: Moved) {
    RunsAlone(cfg, t, answers, trace) && trace[0] == m && trace[|trace| - 1] == n
  }

  /** Some awaits of this process alone lead from one state to the other. */
  ghost predicate Reaches(cfg: Config, t: Token, m: Moved, n: Moved) {
    exists answers, trace :: RunsFrom(cfg, t, m, answers, trace, n)
  }

  lemma ReachesItself(cfg: Config, t: Token, m: Moved)
    requires HasAllIds(cfg.mapping.tables)
    ensures Reaches(cfg, t, m, m)
  {
    assert RunsFrom(cfg, t, m, [], [m], m);
  }

  lemma ReachesNext(cfg: Config, t: Token, k: Moved, m: Moved, o: Oracle, n: Moved)
    requires HasAllIds(cfg.mapping.tables) && Reaches(cfg, t, k, m)
    requires InSection(m.p) && n == Advance(cfg, m.sh, t, m.p, o)
    ensures Reaches(cfg, t, k, n)
  {
    var answers, trace :| RunsFrom(cfg, t, k, answers, trace, m);
    OneMoreAwait(cfg, t, answers, trace, o, n);
    assert RunsFrom(cfg, t, k, answers + [o], trace + [n], n);
  }
}
