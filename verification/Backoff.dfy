/** The table of retry delays and the level clamp of the broker. */
module Backoff {
  import opened Prelude

  function Pow2(n: nat): (p: nat)
    ensures p >= 1
  {
    if n == 0 then 1 else 2 * Pow2(n - 1)
  }

  /** One delay queue per retry, and at least one for busy conversations. */
  function Levels(maxAttempts: int): (n: nat)
    ensures n >= 1
  {
    Max(maxAttempts - 1, 1)
  }

  /** Shifting left by `level` is multiplying by two, `level` times. */
  function ShiftLeft(x: nat, level: nat): nat
    decreases level
  {
    if level == 0 then x else ShiftLeft(2 * x, level - 1)
  }

  /** The delays of the declared retry queues, first level first. */
  function RetryDelays(maxAttempts: int, base: nat): seq<nat> {
    seq(Levels(maxAttempts), (level: nat) => ShiftLeft(base, level))
  }

  /** The queue a retry really goes to when `level` is asked for. */
  function Clamp(maxAttempts: int, level: int): (l: int)
    ensures 1 <= l <= Levels(maxAttempts)
    ensures 1 <= level <= Levels(maxAttempts) ==> l == level
    ensures level < 1 ==> l == 1
    ensures level > Levels(maxAttempts) ==> l == Levels(maxAttempts)
  {
    var low := Max(level, 1);
    if low < Levels(maxAttempts) then low else Levels(maxAttempts)
  }

  /** One queue per retry: a delay for each of the attempts after the first, and one at least. */
  lemma DelaysPerRetry(maxAttempts: int, base: nat)
    ensures maxAttempts >= 2 ==> |RetryDelays(maxAttempts, base)| == maxAttempts - 1
    ensures maxAttempts < 2 ==> |RetryDelays(maxAttempts, base)| == 1
    ensures forall i | 0 <= i < |RetryDelays(maxAttempts, base)| ::
              RetryDelays(maxAttempts, base)[i] == base * Pow2(i)
  {
    forall i: nat | i < |RetryDelays(maxAttempts, base)|
      ensures RetryDelays(maxAttempts, base)[i] == base * Pow2(i)
    {
      ShiftIsPower(base, i);
    }
  }

  lemma {:induction false} ShiftIsPower(x: nat, level: nat)
    ensures ShiftLeft(x, level) == x * Pow2(level)
    decreases level
  {
    if level > 0 {
      ShiftIsPower(2 * x, level - 1);
      assert 2 * x * Pow2(level - 1) == x * (2 * Pow2(level - 1));
    }
  }

  /** The wait of the n-th retry of a job: the delay of the queue that the clamp chooses for level n. */
  function Wait(maxAttempts: int, base: nat, n: nat): nat {
    RetryDelays(maxAttempts, base)[Clamp(maxAttempts, n) - 1]
  }

  /** The waits of retries 1 to n, added up. */
  function TotalWait(maxAttempts: int, base: nat, n: nat): nat {
    if n == 0 then 0 else TotalWait(maxAttempts, base, n - 1) + Wait(maxAttempts, base, n)
  }

  /** The n-th retry waits base * 2^(n-1). */
  lemma WaitDoubles(maxAttempts: int, base: nat, n: nat)
    requires 1 <= n < maxAttempts
    ensures Wait(maxAttempts, base, n) == base * Pow2(n - 1)
  {
    ShiftIsPower(base, n - 1);
  }

  /** A job that uses its first n retries waits base * (2^n - 1) in total. */
  lemma {:induction false} TotalWaitIsGeometric(maxAttempts: int, base: nat, n: nat)
    requires n < maxAttempts || n == 0
    ensures TotalWait(maxAttempts, base, n) == base * (Pow2(n) - 1)
  {
    if n > 0 {
      TotalWaitIsGeometric(maxAttempts, base, n - 1);
      WaitDoubles(maxAttempts, base, n);
      assert base * (Pow2(n - 1) - 1) + base * Pow2(n - 1) == base * (2 * Pow2(n - 1) - 1);
    }
  }
}
