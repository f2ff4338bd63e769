/** What the watchdog of the host simulator counts: in every run, one warning for
    every overdue heartbeat it finds, judged by a time the task recorded. */
module HostWatchdog {
  import opened CTypes
  import opened HostTime
  import opened HostModel
  import opened HostFrames

  // ---------------------------------------------------------------- the laws

  /** The time a task recorded last. */
  function Latest(beaten: seq<Beat>, t: Watched): seq<Timespec> {
    if beaten == [] then []
    else if beaten[|beaten| - 1].task == t then [beaten[|beaten| - 1].at]
    else Latest(beaten[..|beaten| - 1], t)
  }

  /** What the watchdog reads is what the task recorded last. */
  ghost predicate BeatsLaw(s: State) {
    forall t: Watched :: t in s.beats ==> Latest(s.watch.beaten, t) == [s.beats[t]]
  }

  /** Every check was of a time its task recorded; so is the one under way. */
  ghost predicate ChecksLaw(s: State) {
    && (forall c :: c in s.watch.checks ==> Beat(c.task, c.last) in s.watch.beaten)
    && (s.watchdog.WCompare? ==> Beat(s.watchdog.t, s.watchdog.last) in s.watch.beaten)
  }

  /** The warnings counted since the counters were zeroed, and the one under way,
      are the checks that found a heartbeat overdue. */
  ghost predicate WarningsLaw(s: State) {
    s.stats.warnings + One(WarningInFlight(s.watchdog)) == CountOf(s.watch.checks, FoundOverdue) - s.past.zeroVerdicts
  }

  /** From the count to the log, a warning is about the last check made, which
      found its heartbeat overdue. */
  ghost predicate LogLaw(s: State) {
    (s.watchdog.WWarnWait? || s.watchdog.WWarnHeld? || s.watchdog.WLogWait? || s.watchdog.WLogHeld?) ==>
      && var c := Check(s.watchdog.t, s.watchdog.last, s.watchdog.seen);
      FoundOverdue(c) && s.watch.checks != [] && s.watch.checks[|s.watch.checks| - 1] == c
  }

  ghost predicate ZeroLaw(s: State) {
    s.past.resets == 0 ==> s.past.zeroVerdicts == 0
  }

  ghost predicate WatchLaws(s: State) {
    BeatsLaw(s) && ChecksLaw(s) && WarningsLaw(s) && LogLaw(s) && ZeroLaw(s)
  }

  // ---------------------------------------------------------------- the laws are kept

  lemma LatestRecorded(beaten: seq<Beat>, t: Watched, now: Timespec)
    ensures Latest(beaten + [Beat(t, now)], t) == [now]
    ensures forall u :: u != t ==> Latest(beaten + [Beat(t, now)], u) == Latest(beaten, u)
  {
    assert (beaten + [Beat(t, now)])[..|beaten|] == beaten;
  }

  lemma {:induction false} LatestIsRecorded(beaten: seq<Beat>, t: Watched, at: Timespec)
    requires Latest(beaten, t) == [at]
    ensures Beat(t, at) in beaten
    decreases |beaten|
  {
    var n := |beaten| - 1;
    if beaten[n].task != t {
      LatestIsRecorded(beaten[..n], t, at);
    } else {
      assert beaten[n] == Beat(t, at);
    }
  }

  /** A step of another thread records at most one beat. */
  lemma OthersKeepLaws(s: State, n: State)
    requires WatchLaws(s)
    requires WatchStays(s, n) && n.watchdog == s.watchdog && n.past == s.past
    ensures WatchLaws(n)
  {
    if n.watch != s.watch || n.beats != s.beats {
      var t, now :| n.beats == s.beats[t := now] && n.watch.beaten == s.watch.beaten + [Beat(t, now)];
      LatestRecorded(s.watch.beaten, t, now);
    }
  }

  lemma CountOneMore(checks: seq<Check>, c: Check, kind: Check -> bool)
    ensures CountOf(checks + [c], kind) == CountOf(checks, kind) + One(kind(c))
  {
    assert (checks + [c])[..|checks|] == checks;
  }

  lemma WatchdogKeepsLaws(s: State, now: Timespec)
    requires WatchLaws(s) && WatchdogWants(s.watchdog) == Nothing
    ensures WatchLaws(WatchdogWork(s, now))
  {
    WatchdogFrame(s, now);
    match s.watchdog
    case WCheckHeld(t) =>
      if t in s.beats {
        LatestIsRecorded(s.watch.beaten, t, s.beats[t]);
      }
    case WCompare(t, last) =>
      CompareKeepsLaws(s, now);
    case _ =>
      WatchdogCounts(s, now);
  }

  /** The check is noted, and a warning is under way exactly when it found the
      heartbeat overdue. */
  ghost predicate Compared(s: State, n: State, c: Check) {
    && n.watch == s.watch.(checks := s.watch.checks + [c])
    && n.beats == s.beats && n.stats == s.stats && n.past == s.past
    && (if FoundOverdue(c) then n.watchdog == WWarnWait(c.task, c.last, c.seen)
        else n.watchdog.WCheckWait? || n.watchdog.WBeatWait?)
  }

  lemma CompareKeepsLaws(s: State, now: Timespec)
    requires WatchLaws(s) && s.watchdog.WCompare?
    ensures WatchLaws(WatchdogWork(s, now))
  {
    var c := Check(s.watchdog.t, s.watchdog.last, now);
    assert Compared(s, WatchdogWork(s, now), c);
    ComparedKeepsLaws(s, WatchdogWork(s, now), c);
  }

  lemma ComparedKeepsLaws(s: State, n: State, c: Check)
    requires WatchLaws(s) && s.watchdog == WCompare(c.task, c.last) && Compared(s, n, c)
    ensures WatchLaws(n)
  {
    CountOneMore(s.watch.checks, c, FoundOverdue);
    forall d | d in n.watch.checks
      ensures Beat(d.task, d.last) in n.watch.beaten
    {
      assert d in s.watch.checks || d == c;
    }
  }

  lemma WatchdogCounts(s: State, now: Timespec)
    requires WatchLaws(s) && WatchdogWants(s.watchdog) == Nothing
    requires !s.watchdog.WCheckHeld? && !s.watchdog.WCompare?
    ensures WatchLaws(WatchdogWork(s, now))
  {
    WatchdogChecksNothing(s, now);
  }

  lemma WatchdogChecksNothing(s: State, now: Timespec)
    requires !s.watchdog.WCheckHeld? && !s.watchdog.WCompare?
    ensures WatchdogWork(s, now).watch == s.watch && WatchdogWork(s, now).beats == s.beats
    ensures WatchdogWork(s, now).past == s.past
  {
  }

  lemma ControlKeepsLaws(s: State, command: Command)
    requires WatchLaws(s) && ControlWants(s.control) == Nothing
    ensures WatchLaws(ControlWork(s, command))
  {
    if ResetPart(s.control) {
      assert ControlWork(s, command) == ControlReset(s);
      ResetKeepsLaws(s);
    } else {
      ControlFrame(s, command);
    }
  }

  lemma ResetKeepsLaws(s: State)
    requires WatchLaws(s) && ResetPart(s.control)
    ensures WatchLaws(ControlReset(s))
  {
    if !s.control.CResetHeld? {
      ResetCountsNothing(s);
    }
  }

  lemma ResetCountsNothing(s: State)
    requires ResetPart(s.control) && !s.control.CResetHeld?
    ensures var n := ControlReset(s);
      && n.watch == s.watch && n.watchdog == s.watchdog && n.stats.warnings == s.stats.warnings
      && n.past.resets == s.past.resets && n.past.zeroVerdicts == s.past.zeroVerdicts
      && (n.beats == s.beats || n.beats == map[])
  {
    ClearCountsNothing(s);
  }

  lemma ClearCountsNothing(s: State)
    ensures var n := ControlClear(s);
      && n.watch == s.watch && n.watchdog == s.watchdog && n.stats.warnings == s.stats.warnings
      && n.past.resets == s.past.resets && n.past.zeroVerdicts == s.past.zeroVerdicts
      && (n.beats == s.beats || n.beats == map[])
  {
  }

  lemma GrantKeepsLaws(s: State, t: Thread, l: Lock)
    requires WatchLaws(s) && WantedBy(s, t) == Wants(l)
    ensures WatchLaws(Grant(s, t, l))
  {
    GrantFrame(s, t, l);
    GrantWatchdog(s, t, l);
  }

  lemma GrantWatchdog(s: State, t: Thread, l: Lock)
    requires WantedBy(s, t) == Wants(l)
    ensures var n := Grant(s, t, l);
      && WarningInFlight(n.watchdog) == WarningInFlight(s.watchdog)
      && n.watchdog.WCompare? == s.watchdog.WCompare?
      && (n.watchdog.WCompare? ==> n.watchdog == s.watchdog)
      && (LogLaw(s) ==> LogLaw(n))
  {
  }

  lemma WatchStep(m: Maths, s: State, e: Event)
    requires WatchLaws(s)
    ensures WatchLaws(Next(m, s, e))
  {
    match WantedBy(s, Mover(e))
    case Wants(l) => GrantKeepsLaws(s, Mover(e), l);
    case Nothing =>
      match e
      case SensorStep(now) =>
        SensorFrame(m, s, now);
        OthersKeepLaws(s, SensorWork(m, s, now));
      case ProcessorStep(now, late) =>
        ProcessorFrame(m, s, now, late);
        OthersKeepLaws(s, ProcessorWork(m, s, now, late));
      case LoggerStep(now, late) =>
        LoggerFrame(s, now, late);
        OthersKeepLaws(s, LoggerWork(s, now, late));
      case WatchdogStep(now) => WatchdogKeepsLaws(s, now);
      case ControlStep(command) => ControlKeepsLaws(s, command);
  }

  /** In every run, whatever the interleaving, the clock and the resets. */
  lemma {:induction false} WatchHolds(m: Maths, es: seq<Event>)
    ensures WatchLaws(Run(m, es))
    decreases |es|
  {
    if es != [] {
      WatchHolds(m, es[..|es| - 1]);
      WatchStep(m, Run(m, es[..|es| - 1]), es[|es| - 1]);
    }
  }

  // ---------------------------------------------------------------- true ages

  function Age(c: Check): int {
    Nanos(c.seen) - Nanos(c.last)
  }

  /** The heartbeat was truly older than its deadline. */
  predicate Late(c: Check) {
    Age(c) > DeadlineMs(c.task) * NS_PER_MS
  }

  /** It was a millisecond older, or more. */
  predicate MillisecondLate(c: Check) {
    Age(c) >= (DeadlineMs(c.task) + 1) * NS_PER_MS
  }

  lemma {:induction false} CountMonotone(checks: seq<Check>, p: Check -> bool, q: Check -> bool)
    requires forall c :: p(c) ==> q(c)
    ensures CountOf(checks, p) <= CountOf(checks, q)
    decreases |checks|
  {
    if checks != [] {
      CountMonotone(checks[..|checks| - 1], p, q);
    }
  }

  /** In every run without a reset the warnings, with the one under way, are at
      least the checks that found a heartbeat a millisecond late and at most those
      that found one late; and each check judged a time its task had recorded. */
  lemma WarningsAreTrue(m: Maths, es: seq<Event>)
    requires Run(m, es).past.resets == 0
    ensures var s := Run(m, es);
      var warnings := s.stats.warnings + One(WarningInFlight(s.watchdog));
      && CountOf(s.watch.checks, MillisecondLate) <= warnings <= CountOf(s.watch.checks, Late)
      && forall c :: c in s.watch.checks ==> Beat(c.task, c.last) in s.watch.beaten
  {
    WatchHolds(m, es);
    forall c: Check
      ensures (MillisecondLate(c) ==> FoundOverdue(c)) && (FoundOverdue(c) ==> Late(c))
    {
      OverdueIff(c.seen, c.last, DeadlineMs(c.task));
    }
    CountMonotone(Run(m, es).watch.checks, MillisecondLate, FoundOverdue);
    CountMonotone(Run(m, es).watch.checks, FoundOverdue, Late);
  }

  /** In every run, resets included, what the log reports of an overdue heartbeat
      is at least 1 ms, and the heartbeat is truly late. */
  lemma LoggedAmountIsPositive(m: Maths, es: seq<Event>)
    requires Run(m, es).watchdog.WLogHeld?
    ensures var pc := Run(m, es).watchdog;
      && DiffMs(pc.seen, pc.last) - DeadlineMs(pc.t) >= 1
      && Late(Check(pc.t, pc.last, pc.seen))
      && Beat(pc.t, pc.last) in Run(m, es).watch.beaten
  {
    WatchHolds(m, es);
    var pc := Run(m, es).watchdog;
    var c := Check(pc.t, pc.last, pc.seen);
    assert c in Run(m, es).watch.checks;
    OverdueIff(pc.seen, pc.last, DeadlineMs(pc.t));
  }
}
