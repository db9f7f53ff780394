// backend/internal/webhook/sender.go: the arithmetic of the retry window.
// Durations are milliseconds.
module RetryWindow {

  const BASE := 10_000
  const CAP := 3_600_000
  // The loop over attempts gives up counting here.
  const MOST: nat := 1000

  function Pow2(k: nat): nat { if k == 0 then 1 else 2 * Pow2(k - 1) }

  function Backoff(attempt: int): (d: int)
    ensures 0 < d <= CAP
  {
    var d := BASE * Pow2(if attempt < 1 then 0 else attempt - 1);
    if d > CAP || d <= 0 then CAP else d
  }

  lemma {:induction false} Pow2Grows(j: nat, k: nat)
    requires j <= k
    ensures 1 <= Pow2(j) <= Pow2(k)
    decreases k
  {
    if j < k { Pow2Grows(j, k - 1); } else if 0 < k { Pow2Grows(k - 1, k - 1); }
  }

  // Ten seconds at first, doubled each time, and an hour from the tenth on.
  lemma BackoffDoubles(a: int)
    ensures a <= 1 ==> Backoff(a) == 10_000
    ensures 1 <= a <= 8 ==> Backoff(a + 1) == 2 * Backoff(a)
    ensures a >= 10 ==> Backoff(a) == 3_600_000
  {
    assert Pow2(8) == 256 && Pow2(9) == 512;
    if a <= 8 { Pow2Grows(if a < 1 then 0 else a - 1, 7); } else { Pow2Grows(8, a - 1); }
    if a >= 10 { Pow2Grows(9, a - 1); }
  }

  lemma BackoffGrows(a: int, b: int)
    requires a <= b
    ensures Backoff(a) <= Backoff(b)
  {
    Pow2Grows(if a < 1 then 0 else a - 1, if b < 1 then 0 else b - 1);
  }

  // The waiting scheduled by the first n attempts.
  function Scheduled(n: nat): int { if n == 0 then 0 else Scheduled(n - 1) + Backoff(n) }

  lemma {:induction false} ScheduledGrows(j: nat, k: nat)
    requires j < k
    ensures Scheduled(j) < Scheduled(k)
  {
    if j < k - 1 { ScheduledGrows(j, k - 1); }
  }

  // In closed form: up to the ninth attempt ten seconds less than the next
  // power, and then an hour each.
  lemma {:induction false} ScheduledAdds(n: nat)
    ensures n <= 9 ==> Scheduled(n) == 10_000 * (Pow2(n) - 1)
    ensures n >= 9 ==> Scheduled(n) == 5_110_000 + 3_600_000 * (n - 9)
  {
    if n > 0 {
      ScheduledAdds(n - 1);
      BackoffDoubles(n);
      if n <= 9 { Pow2Grows(n - 1, 8); assert Pow2(8) == 256; }
    }
    assert Pow2(9) == 512;
  }

  // A row with this many attempts behind it has used up its window.
  predicate Exhausted(window: int, attempts: nat)
  {
    attempts >= 1 && (attempts >= MOST || Scheduled(attempts) >= window)
  }

  // The least number of attempts that exhausts the window.
  predicate IsLimit(window: int, n: nat)
  {
    Exhausted(window, n) && !Exhausted(window, n - 1)
  }

  lemma LimitDecides(window: int, n: nat, attempts: nat)
    requires IsLimit(window, n)
    ensures attempts >= n <==> Exhausted(window, attempts)
  {
    if n < attempts < MOST { ScheduledGrows(n, attempts); }
    if 1 <= attempts < n - 1 { ScheduledGrows(attempts, n - 1); }
  }

  // A row that always fails waits less than the window, all told, exactly when
  // the window is positive (as the configuration requires).
  lemma WaitingFitsTheWindow(window: int, n: nat)
    requires IsLimit(window, n)
    ensures Scheduled(n - 1) < window <==> window > 0
  {
    if n >= 2 { ScheduledGrows(0, n - 1); }
  }

  // maxAttempts counts up while the running total stays inside the window.
  method MaxAttempts(window: int) returns (n: nat)
    ensures IsLimit(window, n)
    ensures 1 <= n <= 1000 && (n < 1000 ==> Scheduled(n) >= window)
    ensures forall k | 1 <= k < n :: Scheduled(k) < window
  {
    var total := 0;
    n := 1;
    while n < MOST
      invariant 1 <= n <= MOST
      invariant total == Scheduled(n - 1)
      invariant !Exhausted(window, n - 1)
      invariant forall k | 1 <= k < n :: Scheduled(k) < window
    {
      total := total + Backoff(n);
      if total >= window {
        return n;
      }
      n := n + 1;
    }
  }
}
