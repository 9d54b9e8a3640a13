/** The delays between reconnect attempts. */
module Backoff {
  const INITIAL_DELAY := 1.0
  const MAX_DELAY := 5.0

  /** A sleep asked for at time `at`. */
  datatype Sleep = Sleep(at: real, pause: real)

  function Min(a: real, b: real): real {
    if a <= b then a else b
  }

  function PowerOfTwo(k: nat): real {
    if k == 0 then 1.0 else 2.0 * PowerOfTwo(k - 1)
  }

  /** The delay before the attempt after the k-th failed one. */
  function Delay(k: nat): (delay: real)
    ensures 1.0 <= delay <= 5.0
  {
    if k == 0 then INITIAL_DELAY else Min(2.0 * Delay(k - 1), MAX_DELAY)
  }

  /** The k-th delay is min(2^k, 5). */
  lemma {:induction false} DelayIsCappedPower(k: nat)
    ensures Delay(k) == Min(PowerOfTwo(k), 5.0)
  {
    if k > 0 { DelayIsCappedPower(k - 1); }
  }

  /** The time the first `n` full sleeps take at least. */
  function DelaySum(n: nat): real {
    if n == 0 then 0.0 else DelaySum(n - 1) + Delay(n - 1)
  }

  lemma SumStep(n: nat)
    ensures Delay(0) == INITIAL_DELAY && DelaySum(0) == 0.0
    ensures DelaySum(n + 1) == DelaySum(n) + Delay(n)
    ensures Delay(n + 1) == Min(2.0 * Delay(n), MAX_DELAY)
  {
  }

  lemma {:induction false} DelayIsMaximal(k: nat)
    requires k >= 3
    ensures Delay(k) == MAX_DELAY
  {
    if k > 3 {
      DelayIsMaximal(k - 1);
    } else {
      assert Delay(1) == 2.0 && Delay(2) == 4.0;
    }
  }

  lemma {:induction false} DelaySumGrows(n: nat)
    ensures DelaySum(n) >= 5.0 * (n as real) - 8.0
  {
    if n == 0 {
    } else if n <= 3 {
      assert DelaySum(1) == 1.0 && Delay(1) == 2.0 && Delay(2) == 4.0;
      assert DelaySum(2) == 3.0 && DelaySum(3) == 7.0;
    } else {
      DelaySumGrows(n - 1);
      DelayIsMaximal(n - 1);
    }
  }

  /** A sleep is positive, never asks for more than the delay or past the deadline, and asks for the
      whole delay unless less than that is left. */
  predicate SleepOk(s: Sleep, k: nat, deadline: real) {
    s.pause > 0.0 && s.at + s.pause <= deadline && s.pause == Min(Delay(k), deadline - s.at)
  }

  lemma SleepIsOk(at: real, pause: real, k: nat, deadline: real)
    requires at < deadline && pause == Min(Delay(k), deadline - at)
    ensures SleepOk(Sleep(at, pause), k, deadline) && pause > 0.0
    ensures at + pause >= deadline || pause == Delay(k) >= INITIAL_DELAY
  {
  }

  /** The first attempts - 2 sleeps are full and fit into the timeout. */
  lemma AttemptsBound(attempts: nat, timeout: real)
    requires timeout >= 5.0 && (attempts >= 2 ==> DelaySum(attempts - 2) < timeout)
    ensures 5.0 * (attempts as real) < timeout + 18.0
  {
    if attempts >= 2 { DelaySumGrows(attempts - 2); }
  }
}
