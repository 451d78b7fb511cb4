/** Calls to the language model: a re-roll when the answer does not fit the schema, inside a
    bounded retry with capped exponential backoff. */
module Retry {
  import opened Prelude

  /** One answer of the model: it fits the schema, it does not, or the call fails. */
  datatype Reply<T> = Parsed(value: T) | Unparsed | Busy | Rejected

  datatype Failure = Transient | Permanent | NotParsed

  datatype Attempt<T> = Success(value: T) | Failed(failure: Failure)

  /** The result of a completion: an answer, the error that stopped it, or "unavailable". */
  datatype Completion<T> = Answer(value: T) | Raised(failure: Failure) | Unavailable

  // ---- What an attempt is ----

  const PARSE_ATTEMPTS := 2

  function Tried<T>(r: Reply<T>): Attempt<T> {
    match r
    case Parsed(v) => Success(v)
    case Unparsed => Failed(NotParsed)
    case Busy => Failed(Transient)
    case Rejected => Failed(Permanent)
  }

  /** An attempt that starts with the model's `i`-th answer: only an unparsed answer is asked
      for again, once. */
  function AttemptAt<T>(model: nat -> Reply<T>, i: nat): Attempt<T> {
    if model(i).Unparsed? then Tried(model(i + 1)) else Tried(model(i))
  }

  function CallsAt<T>(model: nat -> Reply<T>, i: nat): nat {
    if model(i).Unparsed? then 2 else 1
  }

  /** Where the attempt after `k` attempts starts. */
  function StartOf<T>(model: nat -> Reply<T>, i: nat, k: nat): (j: nat)
    ensures i + k <= j <= i + 2 * k
  {
    if k == 0 then i
    else
      var before := StartOf(model, i, k - 1);
      before + CallsAt(model, before)
  }

  /** The first `k` attempts all fail in a way worth retrying. */
  predicate AllTransient<T>(model: nat -> Reply<T>, i: nat, k: nat) {
    k == 0 || (AllTransient(model, i, k - 1) && AttemptAt(model, StartOf(model, i, k - 1)) == Failed(Transient))
  }

  /** An attempt gives the first answer that fits, asking again only for one that does not fit: it
      never repeats a call that failed, and gives up after two that do not fit. */
  lemma AttemptExactly<T>(model: nat -> Reply<T>, i: nat, v: T)
    ensures var again := model(i) == Unparsed;
            && (AttemptAt(model, i) == Success(v) <==> model(i) == Parsed(v) || (again && model(i + 1) == Parsed(v)))
            && (AttemptAt(model, i) == Failed(Transient) <==> model(i) == Busy || (again && model(i + 1) == Busy))
            && (AttemptAt(model, i) == Failed(Permanent) <==> model(i) == Rejected || (again && model(i + 1) == Rejected))
            && (AttemptAt(model, i) == Failed(NotParsed) <==> again && model(i + 1) == Unparsed)
            && StartOf(model, i, 1) == i + (if again then 2 else 1)
  {
    assert StartOf(model, i, 0) == i;
  }

  /** The attempt after `n` attempts fails in a way worth retrying. */
  predicate TransientAt<T>(model: nat -> Reply<T>, i: nat, n: nat) {
    AttemptAt(model, StartOf(model, i, n)) == Failed(Transient)
  }

  /** The attempts are all transient if and only if each of them is. */
  lemma {:induction false} AllTransientExactly<T>(model: nat -> Reply<T>, i: nat, k: nat)
    ensures AllTransient(model, i, k) <==> forall n: nat :: n < k ==> TransientAt(model, i, n)
  {
    if k > 0 {
      AllTransientExactly(model, i, k - 1);
      assert TransientAt(model, i, k - 1) <==> AttemptAt(model, StartOf(model, i, k - 1)) == Failed(Transient);
    }
  }

  // ---- Backoff ----

  /** `base * 2 ** k`. */
  function Doubled(base: real, k: nat): real {
    if k == 0 then base else 2.0 * Doubled(base, k - 1)
  }

  /** `k * x`. */
  function Times(k: nat, x: real): real {
    if k == 0 then 0.0 else Times(k - 1, x) + x
  }

  /** The jitter the random source gives for each sleep. */
  ghost predicate JitterOk(jitter: nat -> real, base: real) {
    forall k :: 0.0 <= jitter(k) <= base
  }

  /** The pause before the jitter is added. */
  function Pause(base: real, cap: real, attempt: nat): real
    requires attempt >= 1
  {
    Min(cap, Doubled(base, attempt - 1))
  }

  /** The first pause is the base, each next one twice the last, and none is over the cap. */
  lemma PausesDouble(base: real, cap: real, attempt: nat)
    requires attempt >= 1 && base >= 0.0 && cap >= 0.0
    ensures Pause(base, cap, 1) == Min(cap, base)
    ensures Pause(base, cap, attempt + 1) == Min(cap, 2.0 * Pause(base, cap, attempt))
  {
    DoubledIsPositive(base, attempt - 1);
    assert Doubled(base, 0) == base;
  }

  /** Seconds slept after the first `k` failed attempts. */
  function Slept(base: real, cap: real, jitter: nat -> real, k: nat): real {
    if k == 0 then 0.0 else Slept(base, cap, jitter, k - 1) + Pause(base, cap, k) + jitter(k)
  }

  /** `min(k * cap, base * (2 ** k - 1)) + k * base`. */
  function SleepBound(base: real, cap: real, k: nat): real {
    Min(Times(k, cap), Doubled(base, k) - base) + Times(k, base)
  }

  lemma {:induction false} CappedSleep(base: real, cap: real, jitter: nat -> real, k: nat)
    requires JitterOk(jitter, base)
    ensures Slept(base, cap, jitter, k) <= Times(k, cap) + Times(k, base)
  {
    if k > 0 {
      CappedSleep(base, cap, jitter, k - 1);
    }
  }

  lemma {:induction false} DoublingSleep(base: real, cap: real, jitter: nat -> real, k: nat)
    requires JitterOk(jitter, base)
    ensures Slept(base, cap, jitter, k) <= Doubled(base, k) - base + Times(k, base)
  {
    if k > 0 {
      DoublingSleep(base, cap, jitter, k - 1);
    }
  }

  lemma {:induction false} DoubledIsPositive(base: real, k: nat)
    requires base >= 0.0
    ensures Doubled(base, k) >= 0.0
  {
    if k > 0 {
      DoubledIsPositive(base, k - 1);
    }
  }

  lemma {:induction false} SleepOnlyGrows(base: real, cap: real, jitter: nat -> real, j: nat, k: nat)
    requires JitterOk(jitter, base) && base >= 0.0 && cap >= 0.0 && j <= k
    ensures Slept(base, cap, jitter, j) <= Slept(base, cap, jitter, k)
  {
    if j < k {
      SleepOnlyGrows(base, cap, jitter, j, k - 1);
      DoubledIsPositive(base, k - 1);
    }
  }

  lemma Distribute(a: real, x: real)
    ensures (a + 1.0) * x == a * x + x
  {
  }

  lemma {:induction false} TimesIsProduct(k: nat, x: real)
    ensures Times(k, x) == k as real * x
  {
    if k > 0 {
      TimesIsProduct(k - 1, x);
      var a := (k - 1) as real;
      Distribute(a, x);
      assert k as real == a + 1.0;
    }
  }

  /** However many of `n` sleeps are taken, they stay within the bound for all of them. */
  lemma SleepIsBounded(base: real, cap: real, jitter: nat -> real, k: nat, n: nat)
    requires JitterOk(jitter, base) && base >= 0.0 && cap >= 0.0 && k <= n
    ensures Slept(base, cap, jitter, k) <= SleepBound(base, cap, n)
    ensures SleepBound(base, cap, n) == Min(n as real * cap, Doubled(base, n) - base) + n as real * base
  {
    TimesIsProduct(n, cap);
    TimesIsProduct(n, base);
    SleepOnlyGrows(base, cap, jitter, k, n);
    CappedSleep(base, cap, jitter, n);
    DoublingSleep(base, cap, jitter, n);
  }

  /** With the shipped settings (four attempts, half a second, at most eight) no call sleeps
      longer than five seconds. */
  lemma ShippedSleep(jitter: nat -> real, k: nat)
    requires JitterOk(jitter, 0.5) && k <= 3
    ensures Slept(0.5, 8.0, jitter, k) <= 5.0
  {
    SleepIsBounded(0.5, 8.0, jitter, k, 3);
    assert Doubled(0.5, 3) == 2.0 * Doubled(0.5, 2) == 4.0 * Doubled(0.5, 1) == 8.0 * Doubled(0.5, 0);
    assert Times(3, 0.5) == Times(2, 0.5) + 0.5 == Times(1, 0.5) + 1.0 == Times(0, 0.5) + 1.5;
  }

  // ---- The two layers ----

  class Gemini<T(0)> {
    const model: nat -> Reply<T>
    var calls: nat

    constructor (model: nat -> Reply<T>)
      ensures this.model == model && calls == 0
    {
      this.model := model;
      calls := 0;
    }

    method GenerateContent() returns (r: Reply<T>)
      modifies this
      ensures r == model(old(calls)) && calls == old(calls) + 1
    {
      r := model(calls);
      calls := calls + 1;
    }

    /** Re-rolls once, without a pause, an answer that does not fit the schema. */
    method CompleteStructured() returns (a: Attempt<T>)
      modifies this
      ensures a == AttemptAt(model, old(calls)) && calls == old(calls) + CallsAt(model, old(calls))
    {
      for n := 0 to PARSE_ATTEMPTS
        invariant calls == old(calls) + n
        invariant n > 0 ==> model(old(calls)).Unparsed?
        invariant n > 1 ==> model(old(calls) + 1).Unparsed?
      {
        var response := GenerateContent();
        match response
        case Parsed(v) => return Success(v);
        case Busy => return Failed(Transient);
        case Rejected => return Failed(Permanent);
        case Unparsed =>
      }
      return Failed(NotParsed);
    }
  }

  class RetryingLlm<T(0)> {
    const inner: Gemini<T>
    const maxAttempts: nat
    const baseDelay: real
    const maxDelay: real
    var slept: real

    constructor (inner: Gemini<T>, maxAttempts: nat, baseDelay: real, maxDelay: real)
      ensures this.inner == inner && this.maxAttempts == maxAttempts
      ensures this.baseDelay == baseDelay && this.maxDelay == maxDelay && slept == 0.0
    {
      this.inner, this.maxAttempts, this.baseDelay, this.maxDelay := inner, maxAttempts, baseDelay, maxDelay;
      slept := 0.0;
    }

    function Backoff(attempt: nat, jitter: real): real
      requires attempt >= 1
    {
      Pause(baseDelay, maxDelay, attempt) + jitter
    }

    /** "Unavailable" is reported if and only if every one of the `maxAttempts` attempts failed
        in a way worth retrying; otherwise the first attempt that did not decides. It never
        makes more than twice that many model calls, nor sleeps longer than the bound. */
    method CompleteStructured(jitter: nat -> real) returns (c: Completion<T>, attempts: nat)
      requires maxAttempts >= 1 && JitterOk(jitter, baseDelay) && baseDelay >= 0.0 && maxDelay >= 0.0
      modifies this, inner
      ensures 1 <= attempts <= maxAttempts
      ensures c == Unavailable <==> AllTransient(inner.model, old(inner.calls), maxAttempts)
      ensures AllTransient(inner.model, old(inner.calls), attempts - 1)
      ensures c != Unavailable ==>
                c == (match AttemptAt(inner.model, StartOf(inner.model, old(inner.calls), attempts - 1))
                      case Success(v) => Answer(v)
                      case Failed(f) => Raised(f))
                && c != Raised(Transient)
      ensures inner.calls == StartOf(inner.model, old(inner.calls), attempts) <= old(inner.calls) + 2 * maxAttempts
      ensures slept == old(slept) + Slept(baseDelay, maxDelay, jitter, attempts - 1)
      ensures slept <= old(slept) + SleepBound(baseDelay, maxDelay, maxAttempts - 1)
    {
      ghost var start := inner.calls;
      attempts := 0;
      while attempts < maxAttempts
        invariant attempts < maxAttempts
        invariant AllTransient(inner.model, start, attempts)
        invariant inner.calls == StartOf(inner.model, start, attempts)
        invariant slept == old(slept) + Slept(baseDelay, maxDelay, jitter, attempts)
      {
        SleepIsBounded(baseDelay, maxDelay, jitter, attempts, maxAttempts - 1);
        ghost var tried := attempts;
        attempts := attempts + 1;
        var a := inner.CompleteStructured();
        assert a == AttemptAt(inner.model, StartOf(inner.model, start, tried)) && inner.calls == StartOf(inner.model, start, attempts);
        if a.Success? || a.failure != Transient {
          NotAllTransient(inner.model, start, attempts, maxAttempts);
          return if a.Success? then Answer(a.value) else Raised(a.failure), attempts;
        }
        if attempts >= maxAttempts {
          return Unavailable, attempts;
        }
        slept := slept + Backoff(attempts, jitter(attempts));
      }
    }
  }

  lemma {:induction false} NotAllTransient<T>(model: nat -> Reply<T>, i: nat, k: nat, n: nat)
    requires 1 <= k <= n && AttemptAt(model, StartOf(model, i, k - 1)) != Failed(Transient)
    ensures !AllTransient(model, i, n)
  {
    if k < n {
      NotAllTransient(model, i, k, n - 1);
    }
  }
}
