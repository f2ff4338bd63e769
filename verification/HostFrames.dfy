/** What a step of each host thread leaves alone. */
module HostFrames {
  import opened HostModel
  import opened HostTime

  /** The other threads are where they were. */
  predicate OthersStay(s: State, n: State, me: Thread) {
    && (me != SensorThread ==> n.sensor == s.sensor)
    && (me != ProcessorThread ==> n.processor == s.processor)
    && (me != LoggerThread ==> n.logger == s.logger)
    && (me != WatchdogThread ==> n.watchdog == s.watchdog)
    && (me != ControlThread ==> n.control == s.control)
  }

  /** At most a beat has been recorded; the watchdog has checked and counted nothing. */
  ghost predicate WatchStays(s: State, n: State) {
    && n.watch.checks == s.watch.checks && n.stats.warnings == s.stats.warnings
    && ((n.watch == s.watch && n.beats == s.beats)
        || exists t, now :: n.beats == s.beats[t := now] && n.watch.beaten == s.watch.beaten + [Beat(t, now)])
  }

  ghost predicate SensorLeaves(s: State, n: State) {
    && OthersStay(s, n, SensorThread)
    && n.frames == s.frames && n.stats.telemetry == s.stats.telemetry && n.fault == s.fault && n.stop == s.stop
    && n.processed == s.processed && n.logged == s.logged && n.past == s.past
    && WatchStays(s, n)
  }

  ghost predicate ProcessorLeaves(s: State, n: State) {
    && OthersStay(s, n, ProcessorThread)
    && n.stats.sensor == s.stats.sensor && n.fault == s.fault && n.stop == s.stop && n.sequence == s.sequence
    && n.made == s.made && n.logged == s.logged && n.past == s.past
    && WatchStays(s, n)
  }

  ghost predicate LoggerLeaves(s: State, n: State) {
    && OthersStay(s, n, LoggerThread)
    && n.samples == s.samples && n.stats == s.stats && n.fault == s.fault && n.stop == s.stop
    && n.sequence == s.sequence
    && n.made == s.made && n.processed == s.processed && n.past == s.past
    && WatchStays(s, n)
  }

  predicate WatchdogLeaves(s: State, n: State) {
    && OthersStay(s, n, WatchdogThread)
    && n.samples == s.samples && n.frames == s.frames
    && n.stats.sensor == s.stats.sensor && n.stats.telemetry == s.stats.telemetry
    && n.fault == s.fault && n.stop == s.stop && n.sequence == s.sequence && n.beats == s.beats
    && n.made == s.made && n.processed == s.processed && n.logged == s.logged && n.past == s.past
    && n.watch.beaten == s.watch.beaten
  }

  /** The control thread is in `ecu_reset` or clearing the queues. */
  predicate ResetPart(pc: ControlPc) {
    || pc.CResetHeld? || pc.CResetDepthHeld? || pc.CResetDepth2Held? || pc.CResetLeave?
    || pc.CClearHeld? || pc.CClear2Held? || pc.CBeatsHeld? || pc.CJoin?
  }

  /** Taking a snapshot or setting the fault. */
  predicate ControlLeaves(s: State, n: State) {
    && OthersStay(s, n, ControlThread)
    && n.samples == s.samples && n.frames == s.frames && n.sequence == s.sequence
    && n.stats.sensor == s.stats.sensor && n.stats.telemetry == s.stats.telemetry
    && n.made == s.made && n.processed == s.processed && n.logged == s.logged
    && n.past.(reports := s.past.reports) == s.past
    && n.watch == s.watch && n.beats == s.beats && n.stats.warnings == s.stats.warnings
  }

  /** Everything but the owners and the program counters. */
  predicate SameData(s: State, n: State) {
    && n.samples == s.samples && n.frames == s.frames && n.stats == s.stats && n.fault == s.fault
    && n.sequence == s.sequence && n.stop == s.stop && n.beats == s.beats
    && n.made == s.made && n.processed == s.processed && n.logged == s.logged && n.watch == s.watch
    && n.past == s.past
  }

  lemma SensorFrame(m: Maths, s: State, now: Timespec)
    ensures SensorLeaves(s, SensorWork(m, s, now))
  {
    SensorSamplingFrame(m, s, now);
  }

  lemma SensorSamplingFrame(m: Maths, s: State, now: Timespec)
    ensures SensorLeaves(s, SensorSampling(m, s, now))
  {
    SensorTallyFrame(s);
  }

  /** Counting a sample also leaves the queue, the sequence and the samples made. */
  lemma SensorTallyFrame(s: State)
    ensures SensorLeaves(s, SensorTally(s))
    ensures SensorTally(s).samples == s.samples && SensorTally(s).sequence == s.sequence
    ensures SensorTally(s).made == s.made
  {
  }

  /** Where counting a sample leads. */
  predicate TallyLeads(pc: SensorPc, next: SensorPc) {
    match pc
    case SDropHeld(r) => next == AfterRound(r)
    case SCountHeld(r) => next == SDepthWait(r)
    case SDepthHeld(r) => next == SDepth2Wait(r)
    case SDepth2Held(r) => next == SCountLeave(r)
    case SCountLeave(r) => next == AfterRound(r)
    case _ => next == pc
  }

  lemma SensorTallyPath(s: State)
    ensures TallyLeads(s.sensor, SensorTally(s).sensor) && SensorTally(s).watch == s.watch
  {
  }

  /** Where counting a frame leads. */
  predicate FrameTallyLeads(pc: ProcessorPc, next: ProcessorPc) {
    match pc
    case PDropHeld => next == PBeatWait
    case PCountHeld => next == PDepthWait
    case PDepthHeld => next == PDepth2Wait
    case PDepth2Held => next == PCountLeave
    case PCountLeave => next == PBeatWait
    case _ => next == pc
  }

  lemma ProcessorTallyPath(s: State)
    ensures FrameTallyLeads(s.processor, ProcessorTally(s).processor) && ProcessorTally(s).watch == s.watch
  {
  }

  lemma ProcessorFrame(m: Maths, s: State, now: Timespec, late: bool)
    ensures ProcessorLeaves(s, ProcessorWork(m, s, now, late))
  {
    match s.processor
    case PBeatHeld =>
      var n := ProcessorWork(m, s, now, late);
      assert n.beats == s.beats[WatchedProcessor := now];
      assert n.watch.beaten == s.watch.beaten + [Beat(WatchedProcessor, now)];
    case PPopHeld => PopFrame(s);
    case PLoop =>
    case PAsleep =>
    case PTimedOut =>
    case _ => ProcessorHandlingFrame(m, s, now);
  }

  lemma PopFrame(s: State)
    requires s.processor.PPopHeld?
    ensures ProcessorLeaves(s, PopSample(s))
  {
  }

  /** Handling a sample also leaves the sensor queue. */
  lemma ProcessorHandlingFrame(m: Maths, s: State, now: Timespec)
    ensures ProcessorLeaves(s, ProcessorHandling(m, s, now))
    ensures ProcessorHandling(m, s, now).samples == s.samples
    ensures ProcessorHandling(m, s, now).processed.popped == s.processed.popped
  {
    ProcessorTallyFrame(s);
  }

  /** Counting a frame also leaves the queues and the pushes and pops. */
  lemma ProcessorTallyFrame(s: State)
    ensures ProcessorLeaves(s, ProcessorTally(s))
    ensures ProcessorTally(s).samples == s.samples && ProcessorTally(s).frames == s.frames
    ensures ProcessorTally(s).processed == s.processed
  {
  }

  lemma LoggerFrame(s: State, now: Timespec, late: bool)
    ensures LoggerLeaves(s, LoggerWork(s, now, late))
  {
  }

  lemma WatchdogFrame(s: State, now: Timespec)
    ensures WatchdogLeaves(s, WatchdogWork(s, now))
  {
    if s.watchdog.WCompare? {
      CompareFrame(s, now);
    }
  }

  lemma CompareFrame(s: State, now: Timespec)
    requires s.watchdog.WCompare?
    ensures WatchdogLeaves(s, WatchdogWork(s, now))
  {
  }

  lemma ControlFrame(s: State, command: Command)
    requires !ResetPart(s.control)
    ensures ControlLeaves(s, ControlWork(s, command))
  {
    if s.control.CIdle? {
      AskedFrame(s, command);
    } else {
      ControlSnapshotFrame(s);
    }
  }

  lemma AskedFrame(s: State, command: Command)
    ensures ControlLeaves(s, Asked(s, command))
  {
  }

  lemma ControlSnapshotFrame(s: State)
    requires !ResetPart(s.control)
    ensures ControlLeaves(s, ControlSnapshot(s))
  {
    match s.control
    case CSnapHeld =>
    case CSnapDepthHeld(c) =>
    case CSnapDepth2Held(c) =>
    case CSnapLeave(c) =>
    case _ =>
  }

  /** Whatever it does, the control thread leaves the other threads where they are
      and their histories as they are, and never takes back a stop. */
  predicate Spares(s: State, n: State) {
    && OthersStay(s, n, ControlThread)
    && n.made == s.made && n.processed == s.processed && n.logged == s.logged && n.watch == s.watch
    && (s.stop ==> n.stop)
  }

  lemma ControlSpares(s: State, command: Command)
    ensures Spares(s, ControlWork(s, command))
  {
    SnapshotSpares(s);
  }

  lemma SnapshotSpares(s: State)
    ensures Spares(s, ControlSnapshot(s))
  {
    ResetSpares(s);
  }

  lemma ResetSpares(s: State)
    ensures Spares(s, ControlReset(s))
  {
    ClearSpares(s);
  }

  lemma ClearSpares(s: State)
    ensures Spares(s, ControlClear(s))
  {
  }

  lemma GrantFrame(s: State, t: Thread, l: Lock)
    requires WantedBy(s, t) == Wants(l)
    ensures SameData(s, Grant(s, t, l)) && OthersStay(s, Grant(s, t, l), t)
  {
  }
}
