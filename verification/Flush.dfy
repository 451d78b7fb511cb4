/** One debounced flush: the winner of the sender's lock drains the buffer, runs one turn on
    the joined text, and sends at most one reply. */
module Flush {
  import opened Prelude
  import opened Leases

  /** How the turn ends: a reply, silence after a handoff, the model down, or any other error. */
  datatype TurnEnd = Replied(text: string) | Silent | ModelDown | Crashed

  /** How the Redis calls around the turn are answered; an error there is not caught. */
  datatype Weather = Weather(drainRaises: bool, blocked: bool, blockCheckRaises: bool, releaseRaises: bool)

  datatype Flushed = LockBusy | Raised | NothingToDo | Blocked | Handled(reply: Option<string>)

  const LLM_FALLBACK :=
    "Estoy teniendo un problema momentáneo para procesar tu mensaje. ¿Me lo reenvías en un momento, por favor? 🙏"
  const GENERIC_APOLOGY :=
    "Disculpa, tuve un inconveniente para responderte. ¿Me reenvías tu último mensaje, por favor?"

  /** What the customer is sent for a turn: always something, unless an advisor has taken over. */
  function ReplyTo(end: TurnEnd): (r: Option<string>)
    ensures r == None <==> end == Silent
  {
    match end
    case Replied(text) => Some(text)
    case Silent => None
    case ModelDown => Some(LLM_FALLBACK)
    case Crashed => Some(GENERIC_APOLOGY)
  }

  class Flusher {
    var lock: Option<Lease>
    var buffer: seq<string>
    var turns: seq<string>
    var sent: seq<string>

    constructor (lock: Option<Lease>, buffer: seq<string>)
      ensures this.lock == lock && this.buffer == buffer && turns == [] && sent == []
    {
      this.lock, this.buffer, this.turns, this.sent := lock, buffer, [], [];
    }

    method Acquire(now: real, token: Token, ttl: real) returns (ok: bool)
      modifies this`lock
      ensures ok <==> InForce(old(lock), now).None?
      ensures lock == if ok then Some(Lease(token, now + ttl)) else old(lock)
    {
      ok := InForce(lock, now).None?;
      if ok {
        lock := Some(Lease(token, now + ttl));
      }
    }

    /** What runs under the lock. */
    method Process(turn: string -> TurnEnd, w: Weather) returns (r: Flushed)
      modifies this`buffer, this`turns, this`sent
      ensures r != LockBusy
      ensures w.drainRaises ==> r == Raised && buffer == old(buffer)
      ensures !w.drainRaises ==> buffer == []
      ensures r.Handled? <==> !w.drainRaises && old(buffer) != [] && !w.blocked && !w.blockCheckRaises
      ensures if r.Handled? then
                var text := Join(old(buffer), "\n");
                && r.reply == ReplyTo(turn(text))
                && turns == old(turns) + [text]
                && sent == if r.reply.Some? then old(sent) + [r.reply.value] else old(sent)
              else turns == old(turns) && sent == old(sent)
    {
      if w.drainRaises {
        return Raised;
      }
      var parts := buffer;
      buffer := [];
      if parts == [] {
        return NothingToDo;
      }
      if w.blockCheckRaises {
        return Raised;
      }
      if w.blocked {
        return Blocked;
      }
      var combined := Join(parts, "\n");
      turns := turns + [combined];
      var reply := ReplyTo(turn(combined));
      if reply.Some? {
        sent := sent + [reply.value];
      }
      r := Handled(reply);
    }

    /** A flush that finds the lock taken touches nothing. One that gets it drains the whole
        buffer into at most one turn, answers it unless an advisor has taken over, and, however
        it ends, tries to give the lock back at time `until`. If that is after its lease ran
        out, the key holds whatever `others` have put there by then, and is left to them. */
    method Run(now: real, token: Token, ttl: real, until: real, others: Option<Lease>, turn: string -> TurnEnd, w: Weather)
      returns (r: Flushed)
      requires others.Some? ==> others.value.owner != token
      modifies this
      ensures r == LockBusy <==> InForce(old(lock), now).Some?
      ensures r == LockBusy ==> lock == old(lock) && buffer == old(buffer) && turns == old(turns) && sent == old(sent)
      ensures r != LockBusy && until < now + ttl ==> lock == if w.releaseRaises then Some(Lease(token, now + ttl)) else None
      ensures r != LockBusy && until >= now + ttl ==> InForce(lock, until) == InForce(others, until)
      ensures |turns| <= |old(turns)| + 1 && |sent| <= |old(sent)| + 1
      ensures r != LockBusy ==> buffer == if w.drainRaises then old(buffer) else []
      ensures var text := Join(old(buffer), "\n");
              if r != LockBusy && !w.drainRaises && old(buffer) != [] && !w.blocked && !w.blockCheckRaises then
                && turns == old(turns) + [text]
                && sent == old(sent) + (match turn(text)
                                        case Replied(reply) => [reply]
                                        case Silent => []
                                        case ModelDown => [LLM_FALLBACK]
                                        case Crashed => [GENERIC_APOLOGY])
              else turns == old(turns) && sent == old(sent)
    {
      var acquired := Acquire(now, token, ttl);
      if !acquired {
        return LockBusy;
      }
      r := Process(turn, w);
      if until >= now + ttl {
        lock := others;
      }
      if w.releaseRaises {
        return Raised;
      }
      lock := CompareAndDelete(lock, until, token);
    }
  }

  /** The turn sees every drained message, whole and in order. */
  lemma {:induction false} JoinHolds(parts: seq<string>, separator: string, i: nat)
    requires i < |parts|
    ensures exists before, after :: Join(parts, separator) == before + parts[i] + after
  {
    var n := |parts| - 1;
    if n == 0 {
      assert Join(parts, separator) == "" + parts[0] + "";
    } else if i == n {
      var before := Join(parts[..n], separator) + separator;
      assert Join(parts, separator) == before + parts[n] + "";
    } else {
      JoinHolds(parts[..n], separator, i);
      var before, after :| Join(parts[..n], separator) == before + parts[..n][i] + after;
      assert Join(parts, separator) == before + parts[i] + (after + separator + parts[n]);
    }
  }

  /** And they stay in order: cut anywhere, the text is the first messages, the separator, and the
      rest. */
  lemma {:induction false} JoinSplits(parts: seq<string>, separator: string, i: nat)
    requires 0 < i < |parts|
    ensures Join(parts, separator) == Join(parts[..i], separator) + separator + Join(parts[i..], separator)
  {
    var n := |parts| - 1;
    if i < n {
      JoinSplits(parts[..n], separator, i);
      assert parts[..n][..i] == parts[..i] && parts[..n][i..] == parts[i..][..n - i];
      var first, middle, last := Join(parts[..i], separator), Join(parts[i..n], separator), parts[n];
      assert parts[i..n] == parts[i..][..n - i];
      assert (first + separator + middle) + separator + last == first + separator + (middle + separator + last);
    } else {
      assert parts[i..] == [parts[n]];
    }
  }
}
