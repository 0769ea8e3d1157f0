/** The redelivery horizon, the inbox retention that must clear it, and the retry ladder. */
module QueueOptions {

  const REMOVE_ON_FAIL_AGE_SEC: int := 604_800
  const SEC_PER_DAY: int := 86_400
  const DAY_MS: int := 86_400_000
  const MIN_INBOX_RETENTION_DAYS: int := 7

  function HorizonMs(): int {
    REMOVE_ON_FAIL_AGE_SEC * 1000
  }

  // The check a service makes at boot on its retention.
  predicate ClearsRedeliveryHorizon(days: int) {
    days * SEC_PER_DAY >= REMOVE_ON_FAIL_AGE_SEC
  }

  // It passes exactly from the derived minimum on, and then the retention covers the horizon.
  lemma BootCheck(days: int)
    ensures ClearsRedeliveryHorizon(days) <==> MIN_INBOX_RETENTION_DAYS <= days
    ensures ClearsRedeliveryHorizon(days) <==> HorizonMs() <= days * DAY_MS
  {
  }

  function Pow2(n: nat): (r: nat)
    ensures r >= 1
  {
    if n == 0 then 1 else 2 * Pow2(n - 1)
  }

  // The wait after the given number of attempts: exponential, with a ceiling.
  function CappedBackoffMs(attemptsMade: nat, baseMs: nat, capMs: nat): nat
    requires attemptsMade >= 1
  {
    var wait := baseMs * Pow2(attemptsMade - 1);
    if capMs < wait then capMs else wait
  }

  ghost function WaitsBefore(attempts: nat, baseMs: nat, capMs: nat): nat {
    if attempts <= 1 then 0 else WaitsBefore(attempts - 1, baseMs, capMs) + CappedBackoffMs(attempts - 1, baseMs, capMs)
  }

  // How long the retries take in all: the waits after the first attempt, after the second, and so on.
  method RetryHorizonMs(attempts: nat, baseMs: nat, capMs: nat) returns (total: nat)
    ensures total == WaitsBefore(attempts, baseMs, capMs)
  {
    total := 0;
    var attemptsMade := 1;
    while attemptsMade < attempts
      invariant attemptsMade == 1 || attemptsMade <= attempts
      invariant total == WaitsBefore(attemptsMade, baseMs, capMs)
    {
      total := total + CappedBackoffMs(attemptsMade, baseMs, capMs);
      attemptsMade := attemptsMade + 1;
    }
  }

  // Below the ceiling the ladder doubles, so it rides out base * (2^(attempts-1) - 1).
  lemma {:induction false} UncappedHorizon(attempts: nat, baseMs: nat, capMs: nat)
    requires attempts >= 1 && (attempts >= 2 ==> baseMs * Pow2(attempts - 2) <= capMs)
    ensures WaitsBefore(attempts, baseMs, capMs) == baseMs * Pow2(attempts - 1) - baseMs
  {
    if attempts >= 2 {
      var half := Pow2(attempts - 2);
      if attempts >= 3 {
        assert baseMs * half == 2 * (baseMs * Pow2(attempts - 3));
      }
      UncappedHorizon(attempts - 1, baseMs, capMs);
      assert baseMs * Pow2(attempts - 1) == 2 * (baseMs * half);
    }
  }

  // No ladder rides out more than the ceiling for each of its waits; and from the one that would pass the
  // ceiling on, each is the ceiling.
  lemma {:induction false} HorizonWithinCeiling(attempts: nat, baseMs: nat, capMs: nat)
    requires attempts >= 1
    ensures WaitsBefore(attempts, baseMs, capMs) <= capMs * (attempts - 1)
    ensures capMs <= baseMs * Pow2(attempts - 1) ==>
              WaitsBefore(attempts + 1, baseMs, capMs) == WaitsBefore(attempts, baseMs, capMs) + capMs
  {
    if attempts >= 2 {
      HorizonWithinCeiling(attempts - 1, baseMs, capMs);
      assert capMs * (attempts - 1) == capMs * (attempts - 2) + capMs;
    }
  }
}
