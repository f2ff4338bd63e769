/** How consistent the reports of `ecu_snapshot` are, although the queues keep
    moving between the copy of the counters and the reading of the depths. */
module HostSnapshot {
  import opened HostTime
  import opened HostModel
  import opened HostFrames
  import opened HostLocks
  import opened HostCounts

  /** What a reset leaves over: samples counted before the counters were zeroed
      and taken after, less those cleared. Zero without a reset or a stop. */
  function Carry(s: State): int {
    s.past.zeroAccepted - s.past.zeroPopped - s.past.clearedSamples
  }

  /** The frames counted and the samples waiting account for the samples counted,
      up to the one sample that may be pushed but not counted and the one that may
      be taken but not counted. */
  predicate Consistent(c: Snapshot, carry: int) {
    -1 <= c.telemetry.frames + c.telemetry.drops + c.sensorDepth - c.sensor.samples - carry <= 1
  }

  predicate BeforeDepth(pc: ControlPc) {
    pc.CSnapDepthWait? || pc.CSnapDepthHeld?
  }

  predicate AfterDepth(pc: ControlPc) {
    pc.CSnapDepth2Wait? || pc.CSnapDepth2Held? || pc.CSnapLeave?
  }

  /** While a snapshot is taken the copy keeps up with the counters, and once the
      depth has been read it is consistent. */
  ghost predicate CopyLaw(s: State) {
    && (BeforeDepth(s.control) ==>
          s.control.c.sensor == s.stats.sensor && s.control.c.telemetry == s.stats.telemetry)
    && (AfterDepth(s.control) ==> Consistent(s.control.c, Carry(s)))
  }

  ghost predicate ReportLaw(s: State) {
    s.past.resets == 0 ==> forall r :: r in s.past.reports ==> Consistent(r, 0)
  }

  // ---------------------------------------------------------------- only the holder of the state lock counts

  lemma SensorCountsUnderLock(m: Maths, s: State, now: Timespec)
    requires !SensorHolds(s.sensor, StateLock)
    ensures SensorWork(m, s, now).stats.sensor == s.stats.sensor
  {
    SensorSamplingUnderLock(m, s, now);
  }

  lemma SensorSamplingUnderLock(m: Maths, s: State, now: Timespec)
    requires !SensorHolds(s.sensor, StateLock)
    ensures SensorSampling(m, s, now).stats.sensor == s.stats.sensor
  {
    SensorTallyUnderLock(s);
  }

  lemma SensorTallyUnderLock(s: State)
    requires !SensorHolds(s.sensor, StateLock)
    ensures SensorTally(s).stats.sensor == s.stats.sensor
  {
  }

  lemma ProcessorCountsUnderLock(m: Maths, s: State, now: Timespec, late: bool)
    requires !ProcessorHolds(s.processor, StateLock)
    ensures ProcessorWork(m, s, now, late).stats.telemetry == s.stats.telemetry
  {
    ProcessorHandlingUnderLock(m, s, now);
  }

  lemma ProcessorHandlingUnderLock(m: Maths, s: State, now: Timespec)
    requires !ProcessorHolds(s.processor, StateLock)
    ensures ProcessorHandling(m, s, now).stats.telemetry == s.stats.telemetry
  {
    ProcessorTallyUnderLock(s);
  }

  lemma ProcessorTallyUnderLock(s: State)
    requires !ProcessorHolds(s.processor, StateLock)
    ensures ProcessorTally(s).stats.telemetry == s.stats.telemetry
  {
  }

  /** A step of another thread while the control thread is inside a snapshot. */
  lemma OthersKeepCounters(m: Maths, s: State, e: Event)
    requires LocksAgree(s) && WantedBy(s, Mover(e)) == Nothing
    requires !e.ControlStep?
    ensures var n := Work(m, s, e);
      && n.control == s.control && n.past == s.past
      && (ControlHolds(s.control, StateLock) ==>
            n.stats.sensor == s.stats.sensor && n.stats.telemetry == s.stats.telemetry)
  {
    var inside := ControlHolds(s.control, StateLock);
    match e
    case SensorStep(now) =>
      SensorFrame(m, s, now);
      if inside {
        assert !Holds(s, SensorThread, StateLock) by { assert Holds(s, ControlThread, StateLock); }
        SensorCountsUnderLock(m, s, now);
      }
    case ProcessorStep(now, late) =>
      ProcessorFrame(m, s, now, late);
      if inside {
        assert !Holds(s, ProcessorThread, StateLock) by { assert Holds(s, ControlThread, StateLock); }
        ProcessorCountsUnderLock(m, s, now, late);
      }
    case LoggerStep(now, late) => LoggerFrame(s, now, late);
    case WatchdogStep(now) => WatchdogFrame(s, now);
  }

  lemma CopyKept(s: State, n: State)
    requires CopyLaw(s) && ReportLaw(s)
    requires n.control == s.control && n.past == s.past
    requires ControlHolds(s.control, StateLock) ==>
      n.stats.sensor == s.stats.sensor && n.stats.telemetry == s.stats.telemetry
    ensures CopyLaw(n) && ReportLaw(n)
  {
  }

  lemma ControlCopies(s: State, command: Command)
    requires Counts(s) && CopyLaw(s)
    ensures CopyLaw(ControlWork(s, command))
  {
    if ResetPart(s.control) {
      ResetCopiesNothing(s);
      assert ControlWork(s, command) == ControlReset(s);
    } else if s.control.CSnapDepthHeld? {
      DepthIsConsistent(s);
    } else {
      SnapshotCopies(s);
    }
  }

  /** The depth is read while the copy still equals the counters, so the laws of
      the counters carry over. */
  lemma DepthIsConsistent(s: State)
    requires Counts(s) && CopyLaw(s) && s.control.CSnapDepthHeld?
    ensures Consistent(s.control.c.(sensorDepth := |s.samples|), Carry(s))
  {
  }

  lemma SnapshotCopies(s: State)
    requires CopyLaw(s) && !ResetPart(s.control) && !s.control.CSnapDepthHeld?
    ensures CopyLaw(ControlSnapshot(s))
  {
  }

  lemma ResetCopiesNothing(s: State)
    requires ResetPart(s.control)
    ensures !BeforeDepth(ControlReset(s).control) && !AfterDepth(ControlReset(s).control)
  {
    ClearCopiesNothing(s);
  }

  lemma ClearCopiesNothing(s: State)
    requires ResetPart(s.control)
    ensures !BeforeDepth(ControlClear(s).control) && !AfterDepth(ControlClear(s).control)
  {
  }

  lemma ControlReports(s: State, command: Command)
    requires Counts(s) && CopyLaw(s) && ReportLaw(s)
    ensures ReportLaw(ControlWork(s, command))
  {
    SnapshotReports(s);
  }

  lemma SnapshotReports(s: State)
    requires Counts(s) && CopyLaw(s) && ReportLaw(s)
    ensures ReportLaw(ControlSnapshot(s))
  {
    ResetReportsNothing(s);
  }

  lemma ResetReportsNothing(s: State)
    ensures ControlReset(s).past.reports == s.past.reports
    ensures ControlReset(s).past.resets >= s.past.resets
  {
    ClearReportsNothing(s);
  }

  lemma ClearReportsNothing(s: State)
    ensures ControlClear(s).past.reports == s.past.reports
    ensures ControlClear(s).past.resets == s.past.resets
  {
  }

  lemma GrantCopies(s: State, t: Thread, l: Lock)
    requires CopyLaw(s) && ReportLaw(s) && WantedBy(s, t) == Wants(l)
    ensures CopyLaw(Grant(s, t, l)) && ReportLaw(Grant(s, t, l))
  {
    GrantFrame(s, t, l);
  }

  lemma SnapshotStep(m: Maths, s: State, e: Event)
    requires LocksAgree(s) && Counts(s) && CopyLaw(s) && ReportLaw(s)
    ensures CopyLaw(Next(m, s, e)) && ReportLaw(Next(m, s, e))
  {
    match WantedBy(s, Mover(e))
    case Wants(l) => GrantCopies(s, Mover(e), l);
    case Nothing =>
      if e.ControlStep? {
        ControlCopies(s, e.command);
        ControlReports(s, e.command);
      } else {
        OthersKeepCounters(m, s, e);
        CopyKept(s, Work(m, s, e));
      }
  }

  lemma SnapshotsInitially()
    ensures CopyLaw(INITIAL) && ReportLaw(INITIAL)
  {
  }

  lemma {:induction false} SnapshotsHold(m: Maths, es: seq<Event>)
    ensures CopyLaw(Run(m, es)) && ReportLaw(Run(m, es))
    decreases |es|
  {
    if es == [] {
      SnapshotsInitially();
    } else {
      var front := es[..|es| - 1];
      SnapshotsHold(m, front);
      LocksAlwaysAgree(m, front);
      CountsHold(m, front);
      SnapshotStep(m, Run(m, front), es[|es| - 1]);
    }
  }

  /** In every run without a reset, every report of `ecu_snapshot` accounts for
      its samples to within one. */
  lemma ReportsConsistent(m: Maths, es: seq<Event>, r: Snapshot)
    requires Run(m, es).past.resets == 0 && r in Run(m, es).past.reports
    ensures r.telemetry.frames + r.telemetry.drops + r.sensorDepth <= r.sensor.samples + 1
    ensures r.sensor.samples <= r.telemetry.frames + r.telemetry.drops + r.sensorDepth + 1
  {
    SnapshotsHold(m, es);
  }

  /** With resets the same holds of the report being made, up to the samples that
      were counted before the last reset and taken after it. */
  lemma ReportWithResets(m: Maths, es: seq<Event>)
    requires Run(m, es).control.CSnapLeave?
    ensures Consistent(Run(m, es).control.c, Carry(Run(m, es)))
  {
    SnapshotsHold(m, es);
  }
}
