/** What the counters of the host simulator count, in every run. */
module HostCounts {
  import opened CTypes
  import opened HostTime
  import opened HostModel
  import opened HostFrames

  // ---------------------------------------------------------------- conservation

  /** Samples: every number handed out since the counters were zeroed is counted
      as sent, counted as dropped, or in flight. */
  ghost predicate SampleLaw(s: State) {
    && s.stats.sensor.samples + s.stats.sensor.drops + One(SensorInFlight(s.sensor))
       == s.made.issued - s.past.zeroIssued
    && s.stats.sensor.samples + One(SampleUncounted(s.sensor)) == s.made.accepted - s.past.zeroAccepted
    && s.made.issued == |s.made.samples| + One(s.sensor.SMakeWait? || s.sensor.SMakeHeld?)
  }

  /** The sensor queue: what got in is what came out, what was cleared and what
      is there. */
  ghost predicate SampleQueueLaw(s: State) {
    && s.made.accepted == s.processed.popped + |s.samples| + s.past.clearedSamples
    && |s.samples| <= QUEUE_LENGTH
  }

  /** Frames: every sample taken since the counters were zeroed is counted as a
      frame, counted as a drop, or in flight. */
  ghost predicate FrameLaw(s: State) {
    && s.stats.telemetry.frames + s.stats.telemetry.drops + One(ProcessorInFlight(s.processor))
       == s.processed.popped - s.past.zeroPopped
    && s.stats.telemetry.frames + One(FrameUncounted(s.processor)) == s.processed.accepted - s.past.zeroFrames
  }

  /** The telemetry queue, and the log at its end. */
  ghost predicate FrameQueueLaw(s: State) {
    && s.processed.accepted == s.logged.taken + |s.frames| + s.past.clearedFrames
    && s.logged.taken == |s.logged.printed| + One(s.logger.LPrintWait? || s.logger.LPrintHeld?)
    && |s.frames| <= QUEUE_LENGTH
  }

  /** A reset is under way or over. */
  predicate Resetting(pc: ControlPc) {
    || pc.CResetDepthWait? || pc.CResetDepthHeld? || pc.CResetDepth2Wait? || pc.CResetDepth2Held? || pc.CResetLeave?
    || (pc.CClearWait? && pc.why == ForReset) || (pc.CClearHeld? && pc.why == ForReset)
    || (pc.CClear2Wait? && pc.why == ForReset) || (pc.CClear2Held? && pc.why == ForReset)
    || pc.CBeatsWait? || pc.CBeatsHeld?
  }

  /** The queues are being cleared for a stop, or have been. */
  predicate Stopping(pc: ControlPc) {
    || (pc.CClearWait? && pc.why == ForStop) || (pc.CClearHeld? && pc.why == ForStop)
    || (pc.CClear2Wait? && pc.why == ForStop) || (pc.CClear2Held? && pc.why == ForStop)
    || pc.CJoin? || pc.CStopped?
  }

  /** Without a reset the counters have never been zeroed and the sequence counter
      is the number handed out last; without a stop either, nothing has been
      cleared. */
  ghost predicate FreshLaw(s: State) {
    && (Resetting(s.control) ==> s.past.resets > 0)
    && (Stopping(s.control) <==> s.stop)
    && (s.past.resets == 0 ==>
          && s.past.zeroIssued == s.past.zeroAccepted == s.past.zeroPopped == s.past.zeroFrames == 0
          && s.sequence == s.made.issued
          && (s.sensor.SStore? ==> s.sensor.loaded == s.sequence)
          && (s.sensor.SMakeWait? || s.sensor.SMakeHeld? ==> s.sensor.number == s.sequence))
    && (s.past.resets == 0 && !s.stop ==> s.past.clearedSamples == s.past.clearedFrames == 0)
  }

  ghost predicate Counts(s: State) {
    && SampleLaw(s) && SampleQueueLaw(s) && FrameLaw(s) && FrameQueueLaw(s) && FreshLaw(s)
  }

  // ---------------------------------------------------------------- the laws are kept

  lemma SensorSampleLaw(m: Maths, s: State, now: Timespec)
    requires SampleLaw(s) && SensorWants(s.sensor) == Nothing
    ensures SampleLaw(SensorWork(m, s, now))
  {
    SensorSamplingSampleLaw(m, s, now);
  }

  lemma SensorSamplingSampleLaw(m: Maths, s: State, now: Timespec)
    requires SampleLaw(s) && SensorWants(s.sensor) == Nothing
    ensures SampleLaw(SensorSampling(m, s, now))
  {
    SensorTallySampleLaw(s);
  }

  lemma SensorTallySampleLaw(s: State)
    requires SampleLaw(s) && SensorWants(s.sensor) == Nothing
    ensures SampleLaw(SensorTally(s))
  {
  }

  lemma SensorQueueLaw(m: Maths, s: State, now: Timespec)
    requires SampleQueueLaw(s)
    ensures SampleQueueLaw(SensorWork(m, s, now))
  {
    SensorTallyFrame(s);
  }

  lemma SensorFreshLaw(m: Maths, s: State, now: Timespec)
    requires FreshLaw(s)
    ensures FreshLaw(SensorWork(m, s, now))
  {
    SensorSamplingFreshLaw(m, s, now);
  }

  lemma SensorSamplingFreshLaw(m: Maths, s: State, now: Timespec)
    requires FreshLaw(s)
    ensures FreshLaw(SensorSampling(m, s, now))
  {
    SensorTallyMovesOn(s);
  }

  lemma SensorTallyMovesOn(s: State)
    requires FreshLaw(s)
    ensures FreshLaw(SensorTally(s))
  {
  }

  lemma SensorCounts(m: Maths, s: State, now: Timespec)
    requires Counts(s) && SensorWants(s.sensor) == Nothing
    ensures Counts(SensorWork(m, s, now))
  {
    SensorSampleLaw(m, s, now);
    SensorQueueLaw(m, s, now);
    SensorFreshLaw(m, s, now);
    SensorFrame(m, s, now);
    SensorLeavesLaws(s, SensorWork(m, s, now));
  }

  lemma SensorLeavesLaws(s: State, n: State)
    requires FrameLaw(s) && FrameQueueLaw(s) && SensorLeaves(s, n)
    ensures FrameLaw(n) && FrameQueueLaw(n)
  {
  }

  lemma ProcessorFrameLaw(m: Maths, s: State, now: Timespec, late: bool)
    requires FrameLaw(s) && ProcessorWants(s.processor) == Nothing
    ensures FrameLaw(ProcessorWork(m, s, now, late))
  {
    ProcessorHandlingFrameLaw(m, s, now);
  }

  lemma ProcessorHandlingFrameLaw(m: Maths, s: State, now: Timespec)
    requires FrameLaw(s) && ProcessorWants(s.processor) == Nothing
    ensures FrameLaw(ProcessorHandling(m, s, now))
  {
    ProcessorTallyFrameLaw(s);
  }

  lemma ProcessorTallyFrameLaw(s: State)
    requires FrameLaw(s) && ProcessorWants(s.processor) == Nothing
    ensures FrameLaw(ProcessorTally(s))
  {
  }

  lemma ProcessorQueueLaws(m: Maths, s: State, now: Timespec, late: bool)
    requires SampleQueueLaw(s) && FrameQueueLaw(s)
    ensures SampleQueueLaw(ProcessorWork(m, s, now, late)) && FrameQueueLaw(ProcessorWork(m, s, now, late))
  {
    ProcessorHandlingQueueLaws(m, s, now);
    if s.processor.PPopHeld? {
      ProcessorPopLaws(m, s, now, late);
    }
  }

  lemma ProcessorPopLaws(m: Maths, s: State, now: Timespec, late: bool)
    requires SampleQueueLaw(s) && FrameQueueLaw(s) && s.processor.PPopHeld?
    ensures SampleQueueLaw(ProcessorWork(m, s, now, late)) && FrameQueueLaw(ProcessorWork(m, s, now, late))
  {
  }

  lemma ProcessorHandlingQueueLaws(m: Maths, s: State, now: Timespec)
    requires SampleQueueLaw(s) && FrameQueueLaw(s)
    ensures SampleQueueLaw(ProcessorHandling(m, s, now)) && FrameQueueLaw(ProcessorHandling(m, s, now))
  {
    ProcessorTallyFrame(s);
  }

  lemma ProcessorCounts(m: Maths, s: State, now: Timespec, late: bool)
    requires Counts(s) && ProcessorWants(s.processor) == Nothing
    ensures Counts(ProcessorWork(m, s, now, late))
  {
    ProcessorFrameLaw(m, s, now, late);
    ProcessorQueueLaws(m, s, now, late);
    ProcessorFrame(m, s, now, late);
    ProcessorLeavesLaws(s, ProcessorWork(m, s, now, late));
  }

  lemma ProcessorLeavesLaws(s: State, n: State)
    requires SampleLaw(s) && FreshLaw(s) && ProcessorLeaves(s, n)
    ensures SampleLaw(n) && FreshLaw(n)
  {
  }

  lemma LoggerQueueLaw(s: State, now: Timespec, late: bool)
    requires FrameQueueLaw(s)
    ensures FrameQueueLaw(LoggerWork(s, now, late))
  {
  }

  lemma LoggerCounts(s: State, now: Timespec, late: bool)
    requires Counts(s)
    ensures Counts(LoggerWork(s, now, late))
  {
    LoggerQueueLaw(s, now, late);
    LoggerFrame(s, now, late);
    LoggerLeavesLaws(s, LoggerWork(s, now, late));
  }

  lemma LoggerLeavesLaws(s: State, n: State)
    requires SampleLaw(s) && SampleQueueLaw(s) && FrameLaw(s) && FreshLaw(s) && LoggerLeaves(s, n)
    ensures SampleLaw(n) && SampleQueueLaw(n) && FrameLaw(n) && FreshLaw(n)
  {
  }

  lemma WatchdogCounts(s: State, now: Timespec)
    requires Counts(s)
    ensures Counts(WatchdogWork(s, now))
  {
    WatchdogFrame(s, now);
    WatchdogLeavesLaws(s, WatchdogWork(s, now));
  }

  lemma WatchdogLeavesLaws(s: State, n: State)
    requires Counts(s) && WatchdogLeaves(s, n)
    ensures Counts(n)
  {
  }

  lemma ControlCounts(s: State, command: Command)
    requires Counts(s)
    ensures Counts(ControlWork(s, command))
  {
    if ResetPart(s.control) {
      assert ControlWork(s, command) == ControlReset(s);
      ControlResetCounts(s);
    } else {
      ControlFrame(s, command);
      ControlLeavesLaws(s, ControlWork(s, command));
      ControlFreshLaw(s, command);
    }
  }

  lemma ControlFreshLaw(s: State, command: Command)
    requires FreshLaw(s) && !ResetPart(s.control)
    ensures FreshLaw(ControlWork(s, command))
  {
    ControlSnapshotFreshLaw(s);
  }

  lemma ControlSnapshotFreshLaw(s: State)
    requires FreshLaw(s) && !ResetPart(s.control)
    ensures FreshLaw(ControlSnapshot(s))
  {
  }

  lemma ControlLeavesLaws(s: State, n: State)
    requires SampleLaw(s) && SampleQueueLaw(s) && FrameLaw(s) && FrameQueueLaw(s) && ControlLeaves(s, n)
    ensures SampleLaw(n) && SampleQueueLaw(n) && FrameLaw(n) && FrameQueueLaw(n)
  {
  }

  lemma ControlResetCounts(s: State)
    requires Counts(s)
    ensures Counts(ControlReset(s))
  {
    ControlResetLaws(s);
    ControlResetQueueLaws(s);
    ControlResetFreshLaw(s);
  }

  lemma ControlResetLaws(s: State)
    requires SampleLaw(s) && FrameLaw(s)
    ensures SampleLaw(ControlReset(s)) && FrameLaw(ControlReset(s))
  {
    if s.control.CResetHeld? {
      ZeroingLaws(s);
    } else {
      ResetKeepsCounters(s);
      SameCounters(s, ControlReset(s));
    }
  }

  /** What the sample and frame laws speak of is as it was. */
  predicate CountersStay(s: State, n: State) {
    && n.sensor == s.sensor && n.processor == s.processor
    && n.stats.sensor == s.stats.sensor && n.stats.telemetry == s.stats.telemetry
    && n.made == s.made && n.processed == s.processed
    && n.past.zeroIssued == s.past.zeroIssued && n.past.zeroAccepted == s.past.zeroAccepted
    && n.past.zeroPopped == s.past.zeroPopped && n.past.zeroFrames == s.past.zeroFrames
  }

  lemma SameCounters(s: State, n: State)
    requires SampleLaw(s) && FrameLaw(s) && CountersStay(s, n)
    ensures SampleLaw(n) && FrameLaw(n)
  {
  }

  lemma ResetKeepsCounters(s: State)
    requires !s.control.CResetHeld?
    ensures CountersStay(s, ControlReset(s))
  {
    ClearKeepsCounters(s);
  }

  lemma ClearKeepsCounters(s: State)
    ensures CountersStay(s, ControlClear(s))
  {
  }

  /** Zeroing the counters zeroes the histories they are measured against. */
  lemma ZeroingLaws(s: State)
    requires SampleLaw(s) && FrameLaw(s) && s.control.CResetHeld?
    ensures SampleLaw(ControlReset(s)) && FrameLaw(ControlReset(s))
  {
  }

  lemma ControlResetQueueLaws(s: State)
    requires SampleQueueLaw(s) && FrameQueueLaw(s)
    ensures SampleQueueLaw(ControlReset(s)) && FrameQueueLaw(ControlReset(s))
  {
    ControlClearQueueLaws(s);
  }

  lemma ControlClearQueueLaws(s: State)
    requires SampleQueueLaw(s) && FrameQueueLaw(s)
    ensures SampleQueueLaw(ControlClear(s)) && FrameQueueLaw(ControlClear(s))
  {
  }

  lemma ControlResetFreshLaw(s: State)
    requires FreshLaw(s)
    ensures FreshLaw(ControlReset(s))
  {
    ControlClearFreshLaw(s);
  }

  lemma ControlClearFreshLaw(s: State)
    requires FreshLaw(s)
    ensures FreshLaw(ControlClear(s))
  {
  }

  lemma GrantCounts(s: State, t: Thread, l: Lock)
    requires Counts(s) && WantedBy(s, t) == Wants(l)
    ensures Counts(Grant(s, t, l))
  {
    GrantFrame(s, t, l);
    GrantInFlight(s, t, l);
    SameInFlight(s, Grant(s, t, l));
  }

  /** Taking a mutex moves no work along. */
  predicate SameWork(s: State, n: State) {
    && SensorInFlight(n.sensor) == SensorInFlight(s.sensor)
    && SampleUncounted(n.sensor) == SampleUncounted(s.sensor)
    && (n.sensor.SMakeWait? || n.sensor.SMakeHeld?) == (s.sensor.SMakeWait? || s.sensor.SMakeHeld?)
    && (n.sensor.SStore? ==> n.sensor == s.sensor)
    && (n.sensor.SMakeWait? || n.sensor.SMakeHeld? ==> n.sensor.number == s.sensor.number)
    && ProcessorInFlight(n.processor) == ProcessorInFlight(s.processor)
    && FrameUncounted(n.processor) == FrameUncounted(s.processor)
    && (n.logger.LPrintWait? || n.logger.LPrintHeld?) == (s.logger.LPrintWait? || s.logger.LPrintHeld?)
    && Resetting(n.control) == Resetting(s.control)
    && Stopping(n.control) == Stopping(s.control)
  }

  lemma GrantInFlight(s: State, t: Thread, l: Lock)
    requires WantedBy(s, t) == Wants(l)
    ensures SameWork(s, Grant(s, t, l))
  {
  }

  lemma SameInFlight(s: State, n: State)
    requires Counts(s) && SameData(s, n) && SameWork(s, n)
    ensures Counts(n)
  {
  }

  lemma CountsStep(m: Maths, s: State, e: Event)
    requires Counts(s)
    ensures Counts(Next(m, s, e))
  {
    match WantedBy(s, Mover(e))
    case Wants(l) => GrantCounts(s, Mover(e), l);
    case Nothing =>
      match e
      case SensorStep(now) => SensorCounts(m, s, now);
      case ProcessorStep(now, late) => ProcessorCounts(m, s, now, late);
      case LoggerStep(now, late) => LoggerCounts(s, now, late);
      case WatchdogStep(now) => WatchdogCounts(s, now);
      case ControlStep(command) => ControlCounts(s, command);
  }

  /** The laws hold in every run, whatever the interleaving, the faults and the
      resets. */
  lemma {:induction false} CountsHold(m: Maths, es: seq<Event>)
    ensures Counts(Run(m, es))
    decreases |es|
  {
    if es != [] {
      CountsHold(m, es[..|es| - 1]);
      CountsStep(m, Run(m, es[..|es| - 1]), es[|es| - 1]);
    }
  }

  /** Conservation, in every run without a reset and before the stop: each number
      handed out is counted, dropped or in flight; each sample accepted is popped
      or queued; each sample popped is framed, dropped or in flight; each frame
      accepted is queued, in the logger's hands or in the log. */
  lemma Conservation(m: Maths, es: seq<Event>)
    requires Run(m, es).past.resets == 0 && !Run(m, es).stop
    ensures var s := Run(m, es);
      && s.sequence == s.stats.sensor.samples + s.stats.sensor.drops + One(SensorInFlight(s.sensor))
      && s.made.accepted == s.processed.popped + |s.samples|
      && s.processed.popped
         == s.stats.telemetry.frames + s.stats.telemetry.drops + One(ProcessorInFlight(s.processor))
      && s.processed.accepted == s.logged.taken + |s.frames|
      && s.logged.taken == |s.logged.printed| + One(s.logger.LPrintWait? || s.logger.LPrintHeld?)
  {
    CountsHold(m, es);
  }

  // ---------------------------------------------------------------- full queues

  /** In every run neither queue holds more than 24 items, and a sample is dropped,
      changing nothing, exactly when 24 are queued; otherwise it joins the end. */
  lemma SamplesDroppedIffFull(m: Maths, es: seq<Event>, now: Timespec)
    requires Run(m, es).sensor.SPushHeld?
    ensures |Run(m, es).samples| <= 24
    ensures var s, n := Run(m, es), Run(m, es + [SensorStep(now)]);
      if |s.samples| == 24 then n.sensor == SDropWait(s.sensor.r) && n.samples == s.samples
      else n.sensor == SCountWait(s.sensor.r) && n.samples == s.samples + [s.sensor.x]
  {
    CountsHold(m, es);
    assert (es + [SensorStep(now)])[..|es|] == es;
  }

  /** The same of frames. */
  lemma FramesDroppedIffFull(m: Maths, es: seq<Event>, now: Timespec, late: bool)
    requires Run(m, es).processor.PPushHeld?
    ensures |Run(m, es).frames| <= 24
    ensures var s, n := Run(m, es), Run(m, es + [ProcessorStep(now, late)]);
      if |s.frames| == 24 then n.processor == PDropWait && n.frames == s.frames
      else n.processor == PCountWait && n.frames == s.frames + [s.processor.f]
  {
    CountsHold(m, es);
    assert (es + [ProcessorStep(now, late)])[..|es|] == es;
  }
}
