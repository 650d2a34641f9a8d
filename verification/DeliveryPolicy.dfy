/** How the outcome of one post becomes a delivery result, and how long a retry waits. */
module DeliveryPolicy {
  import opened Wrappers
  import opened Outbox

  const MAX_ATTEMPTS := 20

  datatype Failure =
    | InvalidUrl | BadSecret | BadPayload | TooLarge | TransportFailed | ReceiverRejected

  function Clamp(x: int, low: int, high: int): int
    requires low <= high
  {
    if x < low then low else if x > high then high else x
  }

  function RetryDelay(attempts: int): int { Min(Pow2(Clamp(attempts + 1, 1, 8)), 300) }

  function CategoryOf(failure: Failure): ErrorCategory
  {
    match failure
    case InvalidUrl => UnsafeDestination
    case BadSecret => InvalidSecret
    case BadPayload => InvalidPayload
    case TooLarge => RequestTooLarge
    case TransportFailed => Transport
    case ReceiverRejected => HttpRetryable
  }

  function Classify(outcome: Result<nat, Failure>, attempts: int, at: int): DeliveryResult
  {
    match outcome
    case Ok(status) =>
      if 200 <= status < 300 then WasDelivered(status, at)
      else if status == 410 || status == 413 then WantsDeadLetter(Some(status), HttpPermanent, at)
      else WantsRetry(Some(status), HttpRetryable, at + RetryDelay(attempts), at)
    case Err(failure) =>
      if failure.TransportFailed? || failure.ReceiverRejected? then
        WantsRetry(None, CategoryOf(failure), at + RetryDelay(attempts), at)
      else WantsDeadLetter(None, CategoryOf(failure), at)
  }

  /** The waits after attempts 1 to n, added up. */
  function TotalDelay(n: nat): int { if n == 0 then 0 else TotalDelay(n - 1) + RetryDelay(n) }

  lemma DelayFromSeventhAttempt(attempts: int)
    requires attempts >= 7
    ensures RetryDelay(attempts) == 256
  {
    assert Pow2(4) == 16;
    assert Pow2(8) == 16 * Pow2(4);
  }

  lemma {:induction false} DelayTail(n: nat)
    requires n >= 6
    ensures TotalDelay(n) == 252 + 256 * (n - 6)
  {
    if n == 6 {
      assert Pow2(4) == 16;
      assert Pow2(7) == 8 * Pow2(4);
      assert TotalDelay(3) == 28;
    } else {
      DelayTail(n - 1);
      DelayFromSeventhAttempt(n);
    }
  }

  /** Nineteen waits are scheduled before the twentieth attempt gives up. */
  lemma FullBackoff()
    ensures TotalDelay(MAX_ATTEMPTS - 1) == 3580
  {
    DelayTail(MAX_ATTEMPTS - 1);
  }

  /** Outcomes that trying again cannot change. */
  predicate Permanent(outcome: Result<nat, Failure>)
  {
    match outcome
    case Ok(status) => status == 410 || status == 413
    case Err(failure) => failure in {InvalidUrl, BadSecret, BadPayload, TooLarge}
  }

  predicate Accepted(outcome: Result<nat, Failure>) { outcome.Ok? && 200 <= outcome.value < 300 }

  /** What a post does to the row it was made for: delivered exactly on a 2xx answer, dead-lettered
      exactly on a permanent outcome or an unsuccessful one at the maximum, and otherwise put back
      with a wait of 4 to 256 seconds from the moment the post ended. */
  lemma PostDecidesRow(outcome: Result<nat, Failure>, row: Row, at: int)
    requires row.attempts >= 1
    ensures var after := CompletedRow(row, Classify(outcome, row.attempts, at), MAX_ATTEMPTS);
      && (after.status == Delivered <==> Accepted(outcome))
      && (after.status == DeadLetter <==> !Accepted(outcome) && (Permanent(outcome) || row.attempts >= MAX_ATTEMPTS))
      && (after.status == Retry ==> at + 4 <= after.availableAt <= at + 256)
      && (after.lastHttpStatus.Some? <==> outcome.Ok?) && (after.lastError.None? <==> Accepted(outcome))
      && after.lastAttemptAt == Some(at) && after.leaseToken == None && after.attempts == row.attempts
  {
    DelayBounds(row.attempts);
  }

  /** Waits double from 4 seconds and settle at 256. */
  lemma DelayBounds(attempts: int)
    requires attempts >= 1
    ensures 4 <= RetryDelay(attempts) <= 256
    ensures RetryDelay(attempts + 1) == if attempts < 7 then 2 * RetryDelay(attempts) else RetryDelay(attempts)
  {
    assert Pow2(2) == 4;
    assert Pow2(5) == 32;
    assert Pow2(8) == 8 * Pow2(5);
    if attempts < 7 {
      PowBounds(attempts + 1);
      PowBounds(attempts + 2);
    }
  }

  lemma {:induction false} PowBounds(n: nat)
    requires 2 <= n <= 8
    ensures 4 <= Pow2(n) && Pow2(n) * Pow2(8 - n) == 256 && Pow2(n) <= 256
  {
    if n == 2 {
      assert Pow2(3) == 8;
      assert Pow2(6) == 8 * Pow2(3);
    } else {
      PowBounds(n - 1);
      assert Pow2(8 - (n - 1)) == 2 * Pow2(8 - n);
      assert Pow2(n) * Pow2(8 - n) == Pow2(n - 1) * (2 * Pow2(8 - n));
    }
  }
}
