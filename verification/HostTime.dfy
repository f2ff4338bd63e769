/** Times of the host simulator: deadlines, ages in milliseconds and the verdict
    of the heartbeat watchdog. */
module HostTime {
  import opened CTypes

  const NS_PER_MS := 1_000_000
  const NS_PER_SEC := 1_000_000_000

  datatype Timespec = Timespec(sec: int, nsec: int)

  predicate Normalised(t: Timespec) {
    0 <= t.nsec < NS_PER_SEC
  }

  /** The exact time, in nanoseconds. */
  function Nanos(t: Timespec): int {
    t.sec * NS_PER_SEC + t.nsec
  }

  /** `deadline_from_now_ms`, with the clock reading as a parameter. */
  function DeadlineFrom(now: Timespec, timeoutMs: int): Timespec {
    var sec := now.sec + Quot(timeoutMs, 1000);
    var nsec := now.nsec + Rem(timeoutMs, 1000) * NS_PER_MS;
    if nsec >= NS_PER_SEC then Timespec(sec + 1, nsec - NS_PER_SEC) else Timespec(sec, nsec)
  }

  /** `prvDiffMs`: the nanosecond parts are subtracted first and the difference
      is then truncated toward zero. */
  function DiffMs(a: Timespec, b: Timespec): int {
    (a.sec - b.sec) * 1000 + Quot(a.nsec - b.nsec, NS_PER_MS)
  }

  /** The deadline is exactly the timeout away, whatever the sign of the timeout. */
  lemma DeadlineIsExact(now: Timespec, timeoutMs: int)
    ensures Nanos(DeadlineFrom(now, timeoutMs)) == Nanos(now) + timeoutMs * NS_PER_MS
  {
    QuotRem(timeoutMs, 1000);
  }

  /** From a normalised time the deadline is normalised again exactly when the
      part of a second subtracted by a negative timeout can be paid from the
      nanoseconds; a non-negative timeout always qualifies. */
  lemma DeadlineNormalisedIff(now: Timespec, timeoutMs: int)
    requires Normalised(now)
    ensures Normalised(DeadlineFrom(now, timeoutMs))
      <==> timeoutMs >= 0 || (-timeoutMs) % 1000 * NS_PER_MS <= now.nsec
  {
    QuotRem(timeoutMs, 1000);
  }

  /** Measured back with `prvDiffMs`, a deadline is its timeout away. */
  lemma DiffOfDeadline(now: Timespec, timeoutMs: int)
    requires Normalised(now) && timeoutMs >= 0
    ensures DiffMs(DeadlineFrom(now, timeoutMs), now) == timeoutMs
  {
    QuotRem(timeoutMs, 1000);
    var part := Rem(timeoutMs, 1000);
    WholeMs(part);
    WholeMs(1000 - part);
  }

  lemma WholeMs(ms: int)
    ensures Quot(ms * NS_PER_MS, NS_PER_MS) == ms
    ensures Quot(-ms * NS_PER_MS, NS_PER_MS) == -ms
  {
  }

  /** The measured age is the true age rounded down when the clock's nanoseconds
      have advanced past those of the heartbeat, and rounded up otherwise. */
  lemma DiffRounds(now: Timespec, last: Timespec)
    ensures now.nsec >= last.nsec ==>
      DiffMs(now, last) * NS_PER_MS <= Nanos(now) - Nanos(last) < (DiffMs(now, last) + 1) * NS_PER_MS
    ensures now.nsec < last.nsec ==>
      (DiffMs(now, last) - 1) * NS_PER_MS < Nanos(now) - Nanos(last) <= DiffMs(now, last) * NS_PER_MS
  {
    QuotRem(now.nsec - last.nsec, NS_PER_MS);
  }

  /** The test of `prvWarnIfOverdue` for a task that has reported in. */
  predicate Overdue(now: Timespec, last: Timespec, deadlineMs: int) {
    DiffMs(now, last) > deadlineMs
  }

  /** The watchdog warns exactly when the true age exceeds the deadline, by at
      least a whole millisecond if the nanoseconds have advanced. So it never
      warns early, and it always warns one millisecond late. */
  lemma OverdueIff(now: Timespec, last: Timespec, deadlineMs: int)
    ensures var age := Nanos(now) - Nanos(last);
      && (Overdue(now, last, deadlineMs) <==>
          if now.nsec >= last.nsec then age >= (deadlineMs + 1) * NS_PER_MS
          else age > deadlineMs * NS_PER_MS)
      && (Overdue(now, last, deadlineMs) ==> age > deadlineMs * NS_PER_MS)
      && (age >= (deadlineMs + 1) * NS_PER_MS ==> Overdue(now, last, deadlineMs))
  {
    DiffRounds(now, last);
  }
}
