/** One notification target: bounded retries with capped exponential backoff on 64-bit durations. */
module Retry {

  const MIN64 := -0x8000_0000_0000_0000
  const MAX64 := 0x7fff_ffff_ffff_ffff
  const TWO62 := 0x4000_0000_0000_0000

  predicate Int64(x: int) { MIN64 <= x <= MAX64 }

  /** Two's-complement wrap-around of a 64-bit integer. */
  function Wrap64(x: int): (r: int)
    ensures Int64(r) && (Int64(x) ==> r == x)
  {
    (x - MIN64) % 0x1_0000_0000_0000_0000 + MIN64
  }

  function Pow2(k: nat): (r: nat)
    ensures r >= 1
  {
    if k == 0 then 1 else 2 * Pow2(k - 1)
  }

  function Min(a: int, b: int): int { if a <= b then a else b }

  /** The delay `d` after `k` more rounds of the doubling loop. */
  function Doubled(d: int, k: nat, maxDelay: int): int
    decreases k
  {
    if k == 0 then (if maxDelay > 0 && d > maxDelay then maxDelay else d)
    else if maxDelay > 0 && d >= maxDelay then maxDelay
    else Doubled(Wrap64(2 * d), k - 1, maxDelay)
  }

  function DelayOf(attempt: int, initial: int, maxDelay: int): int {
    if initial <= 0 then 0 else Doubled(initial, if attempt < 1 then 0 else attempt - 1, maxDelay)
  }

  method BackoffDelay(attempt: int, initial: int, maxDelay: int) returns (delay: int)
    requires Int64(initial) && Int64(maxDelay)
    ensures delay == DelayOf(attempt, initial, maxDelay)
  {
    var n := attempt;
    if n < 1 { n := 1; }
    if initial <= 0 { return 0; }
    var d := initial;
    var i := 1;
    while i < n
      invariant 1 <= i <= n
      invariant Doubled(d, n - i, maxDelay) == Doubled(initial, n - 1, maxDelay)
    {
      if maxDelay > 0 && d >= maxDelay { return maxDelay; }
      d := Wrap64(d * 2);
      i := i + 1;
    }
    if maxDelay > 0 && d > maxDelay { return maxDelay; }
    return d;
  }

  // ---- what the delays are ----

  lemma {:induction false} DoubledCaps(d: int, k: nat, maxDelay: int)
    requires 0 < d <= MAX64 && 0 < maxDelay <= TWO62
    ensures Doubled(d, k, maxDelay) == Min(d * Pow2(k), maxDelay)
    decreases k
  {
    if k == 0 {
    } else if d >= maxDelay {
      Grows(d, Pow2(k));
    } else {
      DoubledCaps(2 * d, k - 1, maxDelay);
      Regroup(d, Pow2(k - 1));
    }
  }

  lemma Regroup(d: int, p: nat)
    ensures d * (2 * p) == (2 * d) * p
  {}

  lemma Grows(d: int, p: nat)
    requires d > 0 && p >= 1
    ensures d * p >= d
  {}

  /** The loop computes min(initial * 2^(attempt-1), maxDelay) for every attempt and every positive initial
      delay exactly when the cap is at most 2^62; above that some doubling overflows. */
  lemma BackoffExactly(maxDelay: int)
    requires 0 < maxDelay <= MAX64
    ensures (forall attempt: int, initial: int | attempt >= 1 && 0 < initial <= MAX64 ::
               DelayOf(attempt, initial, maxDelay) == Min(initial * Pow2(attempt - 1), maxDelay))
       <==> maxDelay <= TWO62
  {
    if maxDelay <= TWO62 {
      forall attempt: int, initial: int | attempt >= 1 && 0 < initial <= MAX64
        ensures DelayOf(attempt, initial, maxDelay) == Min(initial * Pow2(attempt - 1), maxDelay) {
        DoubledCaps(initial, attempt - 1, maxDelay);
      }
    } else {
      assert Pow2(1) == 2;
      assert DelayOf(2, TWO62, maxDelay) == Doubled(MIN64, 0, maxDelay) == MIN64;
      assert Min(TWO62 * Pow2(2 - 1), maxDelay) == maxDelay;
    }
  }

  lemma WrapTwice(x: int)
    ensures Wrap64(2 * Wrap64(x)) == Wrap64(2 * x)
  {
    var q := (x - MIN64) / 0x1_0000_0000_0000_0000;
    assert Wrap64(x) == x - q * 0x1_0000_0000_0000_0000;
    ModShift(2 * x - MIN64, -2 * q);
  }

  lemma ModShift(a: int, q: int)
    ensures (a + q * 0x1_0000_0000_0000_0000) % 0x1_0000_0000_0000_0000 == a % 0x1_0000_0000_0000_0000
  {}

  lemma {:induction false} DoubledUncapped(x: int, k: nat, maxDelay: int)
    requires maxDelay <= 0
    ensures Doubled(Wrap64(x), k, maxDelay) == Wrap64(x * Pow2(k))
    decreases k
  {
    if k == 0 {
    } else {
      WrapTwice(x);
      DoubledUncapped(2 * x, k - 1, maxDelay);
      Regroup(x, Pow2(k - 1));
    }
  }

  /** Without a cap the delay is the true product exactly while that fits 64 bits. */
  lemma UncappedExactly(attempt: int, initial: int, maxDelay: int)
    requires attempt >= 1 && 0 < initial <= MAX64 && maxDelay <= 0
    ensures DelayOf(attempt, initial, maxDelay) == initial * Pow2(attempt - 1)
       <==> initial * Pow2(attempt - 1) <= MAX64
  {
    DoubledUncapped(initial, attempt - 1, maxDelay);
    assert initial * Pow2(attempt - 1) >= initial by { Grows(initial, Pow2(attempt - 1)); }
  }

  // ---- the retry loop ----

  datatype Config = Config(maxAttempts: int, initialDelay: int, maxDelay: int)

  datatype Attempt = Attempt(number: nat, success: bool)

  /** `LastError` is the error of the last send, `Interrupted` that of a wait cut short by shutdown. */
  datatype Outcome = Sent | LastError | Interrupted

  function Limit(cfg: Config, manual: bool): (n: nat)
    ensures n >= 1 && (manual ==> n == 1) && (!manual && cfg.maxAttempts >= 1 ==> n == cfg.maxAttempts)
  {
    if manual || cfg.maxAttempts < 1 then 1 else cfg.maxAttempts
  }

  /** `sends[i]` says whether attempt `i + 1` would succeed, `waits[i]` whether the wait after it would run to
      its end rather than be cut short. */
  method SendWithRetry(cfg: Config, manual: bool, sends: seq<bool>, waits: seq<bool>)
    returns (outcome: Outcome, attempts: seq<Attempt>, delays: seq<int>)
    requires Int64(cfg.initialDelay) && Int64(cfg.maxDelay)
    requires |sends| == |waits| == Limit(cfg, manual)
    ensures 1 <= |attempts| <= Limit(cfg, manual)
    ensures forall i | 0 <= i < |attempts| :: attempts[i] == Attempt(i + 1, sends[i])
    ensures forall i | 0 <= i < |attempts| - 1 :: !attempts[i].success && waits[i]
    ensures outcome == Sent <==> attempts[|attempts| - 1].success
    ensures outcome == LastError ==> |attempts| == Limit(cfg, manual)
    ensures outcome == Interrupted ==> |attempts| < Limit(cfg, manual) && !waits[|attempts| - 1]
    ensures |delays| == if outcome == Interrupted then |attempts| else |attempts| - 1
    ensures forall i | 0 <= i < |delays| :: delays[i] == DelayOf(i + 1, cfg.initialDelay, cfg.maxDelay)
  {
    var maxAttempts := cfg.maxAttempts;
    if maxAttempts < 1 { maxAttempts := 1; }
    if manual { maxAttempts := 1; }
    attempts, delays := [], [];
    var attempt := 1;
    while true
      invariant 1 <= attempt <= maxAttempts && |attempts| == |delays| == attempt - 1
      invariant forall i | 0 <= i < |attempts| :: attempts[i] == Attempt(i + 1, sends[i]) && !sends[i] && waits[i]
      invariant forall i | 0 <= i < |delays| :: delays[i] == DelayOf(i + 1, cfg.initialDelay, cfg.maxDelay)
      decreases maxAttempts - attempt
    {
      var ok := sends[attempt - 1];
      attempts := attempts + [Attempt(attempt, ok)];
      if ok { return Sent, attempts, delays; }
      if attempt == maxAttempts { return LastError, attempts, delays; }
      var delay := BackoffDelay(attempt, cfg.initialDelay, cfg.maxDelay);
      delays := delays + [delay];
      if !waits[attempt - 1] { return Interrupted, attempts, delays; }
      attempt := attempt + 1;
    }
  }

  /** An initial delay that is not positive means no delay, and attempts below the first count as the first. */
  lemma BackoffEdges(attempt: int, initial: int, maxDelay: int)
    requires Int64(initial) && Int64(maxDelay)
    ensures initial <= 0 ==> DelayOf(attempt, initial, maxDelay) == 0
    ensures attempt <= 1 && initial > 0 ==>
      DelayOf(attempt, initial, maxDelay) == if 0 < maxDelay < initial then maxDelay else initial
  {}
}
