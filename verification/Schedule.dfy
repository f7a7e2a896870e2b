/** When a row may be claimed again: the delay after a recorded failure, the delay after a sweep, and how
    the two compare. */
module Schedule {
  import opened Base
  import opened Metadata

  const BACKOFF := 30 * SECOND
  const BACKOFF_CAP := 120 * SECOND

  /** The delay `write_failure` adds to the transaction's instant. */
  function FailureDelay(kind: Kind, attempts: int): Time {
    var delay := Max(attempts, 1) * BACKOFF;
    if kind.Inbox? then delay else Min(delay, BACKOFF_CAP)
  }

  /** The delay the timeout policy adds to the sweep's instant. */
  function SweepDelay(kind: Kind, attempts: int): Time {
    if kind.Outbox? then Min(Max(attempts, 1) * BACKOFF, BACKOFF_CAP) else attempts * BACKOFF
  }

  /** Only the outbox keeps the old schedule of a row that has used up its attempts. */
  predicate KeepsSchedule(kind: Kind, attempts: int, max: int) {
    kind.Outbox? && attempts >= max
  }

  function FailureSchedule(kind: Kind, attempts: int, max: int, now: Time, previous: Time): Time {
    if KeepsSchedule(kind, attempts, max) then previous else now + FailureDelay(kind, attempts)
  }

  function SweepSchedule(kind: Kind, attempts: int, max: int, now: Time, previous: Time): Time {
    if KeepsSchedule(kind, attempts, max) then previous else now + SweepDelay(kind, attempts)
  }

  /** The exact instants, in microseconds: after a failure 30 seconds an attempt with a floor of one attempt and,
      but for the inbox, a cap of two minutes; after a sweep 30 seconds an attempt, with floor and cap only on
      the outbox; and on the outbox no change once the attempts are used up. */
  lemma ExactInstants(kind: Kind, attempts: int, max: int, now: Time, previous: Time)
    ensures kind.Outbox? && attempts >= max ==>
              FailureSchedule(kind, attempts, max, now, previous) == previous && SweepSchedule(kind, attempts, max, now, previous) == previous
    ensures !(kind.Outbox? && attempts >= max) ==>
              FailureSchedule(kind, attempts, max, now, previous)
              == if attempts <= 1 then now + 30_000_000
                 else if kind.Inbox? || attempts <= 4 then now + 30_000_000 * attempts
                 else now + 120_000_000
    ensures !kind.Outbox? ==> SweepSchedule(kind, attempts, max, now, previous) == now + 30_000_000 * attempts
    ensures kind.Outbox? && attempts < max ==>
              SweepSchedule(kind, attempts, max, now, previous)
              == if attempts <= 1 then now + 30_000_000
                 else if attempts <= 4 then now + 30_000_000 * attempts
                 else now + 120_000_000
  {
  }

  /** The two schedules agree exactly on the outbox, on an inbox row claimed at least once (the inbox sweep
      has no floor), and on a command or event claimed one to four times (their sweep has neither floor
      nor cap). */
  lemma SchedulesAgreeIff(kind: Kind, attempts: int, max: int, now: Time, previous: Time)
    ensures FailureSchedule(kind, attempts, max, now, previous) == SweepSchedule(kind, attempts, max, now, previous)
       <==> kind.Outbox? || (attempts >= 1 && (kind.Inbox? || attempts <= 4))
  {
  }

  /** On a claimed row a sweep never retries earlier than a recorded failure at the same instant. */
  lemma SweepIsNotEarlier(kind: Kind, attempts: int, max: int, now: Time, previous: Time)
    requires attempts >= 1
    ensures FailureSchedule(kind, attempts, max, now, previous) <= SweepSchedule(kind, attempts, max, now, previous)
  {
  }

  /** The least time between two claims of a row, summed over its first `claims` claims. */
  function TotalDelay(kind: Kind, claims: nat): Time {
    if claims == 0 then 0 else TotalDelay(kind, claims - 1) + FailureDelay(kind, claims)
  }

  /** Before the n-th claim the delays sum to 15 n (n - 1) seconds: always for the uncapped inbox, and up to the
      fifth claim for the others, whose sum then grows by two minutes a claim. */
  lemma {:induction false} TotalDelayClosedForm(kind: Kind, n: nat)
    requires n >= 1
    ensures TotalDelay(kind, n - 1) == if kind.Inbox? || n <= 5 then 15 * n * (n - 1) * SECOND else 300 * SECOND + (n - 5) * BACKOFF_CAP
  {
    if n > 1 {
      TotalDelayClosedForm(kind, n - 1);
      assert TotalDelay(kind, n - 1) == TotalDelay(kind, n - 2) + FailureDelay(kind, n - 1);
      assert FailureDelay(kind, n - 1) == if kind.Inbox? || n <= 5 then (n - 1) * BACKOFF else BACKOFF_CAP;
      hide TotalDelay, FailureDelay;
      NextSum(n);
    }
  }

  lemma NextSum(n: int)
    ensures 15 * n * (n - 1) * SECOND == 15 * (n - 1) * (n - 2) * SECOND + (n - 1) * BACKOFF
  {
    assert n * (n - 1) == (n - 1) * (n - 2) + 2 * (n - 1);
  }
}
