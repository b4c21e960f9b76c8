/** retry.go: the capped exponential backoff loop, with Go's 64-bit durations. */
module Retry {

  datatype Config = Config(maxAttempts: int, baseDelay: int, maxDelay: int)

  datatype Attempt<T, E> = Ok(value: T) | Err(error: E)

  /** What Do returns: a value with a nil error, an error, or the zero value with a nil error. */
  datatype Reply<T, E> = Value(value: T) | Failed(error: E) | Cancelled | ZeroValue

  const MAX_INT64: int := 0x7fff_ffff_ffff_ffff
  const TWO_TO_64: int := 0x1_0000_0000_0000_0000

  predicate Int64(x: int) { -MAX_INT64 - 1 <= x <= MAX_INT64 }

  /** Multiplication by two on a 64-bit signed integer. */
  function Doubled(x: int): int
    requires Int64(x)
  {
    var y := 2 * x;
    if y > MAX_INT64 then y - TWO_TO_64 else if y < -MAX_INT64 - 1 then y + TWO_TO_64 else y
  }

  function Min(a: int, b: int): int { if a <= b then a else b }

  predicate Sane(cfg: Config) {
    Int64(cfg.baseDelay) && Int64(cfg.maxDelay)
  }

  /** The delay before the attempt number i + 2, as the loop variable has it. */
  function Delay(cfg: Config, i: nat): (d: int)
    requires Sane(cfg)
    ensures Int64(d)
  {
    if i == 0 then cfg.baseDelay else Min(Doubled(Delay(cfg, i - 1)), cfg.maxDelay)
  }

  lemma Delays(cfg: Config, i: nat)
    requires Sane(cfg)
    ensures Delay(cfg, 0) == cfg.baseDelay
    ensures Delay(cfg, i + 1) == Min(Doubled(Delay(cfg, i)), cfg.maxDelay)
  {
  }

  function Pow2(i: nat): nat {
    if i == 0 then 1 else 2 * Pow2(i - 1)
  }

  /** The backoff that is meant. */
  function Backoff(cfg: Config, i: nat): int {
    Min(cfg.baseDelay * Pow2(i), cfg.maxDelay)
  }

  function Sum(s: seq<int>): int {
    if s == [] then 0 else Sum(s[..|s| - 1]) + s[|s| - 1]
  }

  /** Do.  fn answers the attempts 1, 2, ...; cancelled says whether the context ends during the wait
      after an attempt. */
  method Do<T, E>(cfg: Config, fn: nat -> Attempt<T, E>, retryable: E -> bool, cancelled: nat -> bool)
    returns (r: Reply<T, E>, calls: nat, waits: seq<int>)
    requires Sane(cfg)
    ensures calls <= if cfg.maxAttempts > 0 then cfg.maxAttempts else 0
    ensures forall k | 1 <= k < calls :: fn(k).Err? && retryable(fn(k).error) && !cancelled(k)
    ensures |waits| == if calls > 0 then calls - 1 else 0
    ensures forall i | 0 <= i < |waits| :: waits[i] == Delay(cfg, i)
    ensures r.ZeroValue? <==> cfg.maxAttempts <= 0
    ensures r.Value? ==> calls >= 1 && fn(calls) == Ok(r.value)
    ensures r.Failed? ==> calls >= 1 && fn(calls) == Err(r.error) && (!retryable(r.error) || calls == cfg.maxAttempts)
    ensures r.Cancelled? ==>
      1 <= calls < cfg.maxAttempts && fn(calls).Err? && retryable(fn(calls).error) && cancelled(calls)
  {
    hide Delay, Doubled;
    var delay := cfg.baseDelay;
    Delays(cfg, 0);
    calls, waits := 0, [];
    var attempt := 1;
    while attempt <= cfg.maxAttempts
      invariant 1 <= attempt && calls == attempt - 1 && |waits| == attempt - 1
      invariant if cfg.maxAttempts > 0 then attempt <= cfg.maxAttempts else attempt == 1
      invariant delay == Delay(cfg, attempt - 1)
      invariant forall k | 1 <= k < attempt :: fn(k).Err? && retryable(fn(k).error) && !cancelled(k)
      invariant forall i | 0 <= i < |waits| :: waits[i] == Delay(cfg, i)
      decreases cfg.maxAttempts - attempt
    {
      calls := calls + 1;
      var res := fn(attempt);
      if res.Ok? { return Value(res.value), calls, waits; }
      if !retryable(res.error) { return Failed(res.error), calls, waits; }
      if attempt == cfg.maxAttempts { return Failed(res.error), calls, waits; }
      if cancelled(attempt) { return Cancelled, calls, waits; }
      waits := waits + [delay];
      Delays(cfg, attempt - 1);
      delay := Doubled(delay);
      if delay > cfg.maxDelay { delay := cfg.maxDelay; }
      attempt := attempt + 1;
    }
    r := ZeroValue;
  }

  lemma Twice(base: int, p: int)
    ensures base * (2 * p) == 2 * (base * p)
  {
  }

  lemma {:induction false} DelayIsBackoff(cfg: Config, i: nat)
    requires Sane(cfg) && 0 < cfg.baseDelay <= cfg.maxDelay && 2 * cfg.maxDelay <= MAX_INT64
    ensures Delay(cfg, i) == Backoff(cfg, i) && 0 < Delay(cfg, i) <= cfg.maxDelay
  {
    if i == 0 {
      assert cfg.baseDelay * Pow2(0) == cfg.baseDelay;
    } else {
      DelayIsBackoff(cfg, i - 1);
      Twice(cfg.baseDelay, Pow2(i - 1));
    }
  }

  lemma {:induction false} PowPositive(i: nat)
    ensures Pow2(i) > i
  {
    if i > 0 { PowPositive(i - 1); }
  }

  /** The loop waits min(baseDelay * 2^i, maxDelay) after every attempt, for any number of attempts,
      exactly if twice the cap still fits into 64 bits. */
  lemma BackoffIffNoOverflow(cfg: Config)
    requires Sane(cfg) && 0 < cfg.baseDelay <= cfg.maxDelay
    ensures (forall i: nat :: Delay(cfg, i) == Backoff(cfg, i)) <==> 2 * cfg.maxDelay <= MAX_INT64
  {
    if 2 * cfg.maxDelay <= MAX_INT64 {
      forall i: nat
        ensures Delay(cfg, i) == Backoff(cfg, i)
      {
        DelayIsBackoff(cfg, i);
      }
    } else {
      var i: nat := cfg.maxDelay;
      PowPositive(i);
      PowPositive(i + 1);
      CapReached(cfg.baseDelay, Pow2(i), cfg.maxDelay);
      CapReached(cfg.baseDelay, Pow2(i + 1), cfg.maxDelay);
      if Delay(cfg, i) == Backoff(cfg, i) {
        assert Delay(cfg, i + 1) == Doubled(cfg.maxDelay) < 0;
        assert Delay(cfg, i + 1) != Backoff(cfg, i + 1);
      }
    }
  }

  lemma CapReached(base: int, p: int, cap: int)
    requires 0 < base && 0 < cap <= p
    ensures Min(base * p, cap) == cap
  {
    assert base * p >= p by { assert (base - 1) * p >= 0; }
  }

  lemma MulSucc(n: nat, m: int)
    ensures (n + 1) * m == n * m + m
  {
  }

  /** All waits together are at most (attempts - 1) times the cap. */
  lemma {:induction false} TotalWaitBounded(cfg: Config, waits: seq<int>)
    requires Sane(cfg) && 0 < cfg.baseDelay <= cfg.maxDelay && 2 * cfg.maxDelay <= MAX_INT64
    requires forall i | 0 <= i < |waits| :: waits[i] == Delay(cfg, i)
    ensures 0 <= Sum(waits) <= |waits| * cfg.maxDelay
    decreases |waits|
  {
    if waits != [] {
      var n := |waits| - 1;
      TotalWaitBounded(cfg, waits[..n]);
      DelayIsBackoff(cfg, n);
      MulSucc(n, cfg.maxDelay);
    }
  }
}
