/** The host simulator as the source has it: an object over its ring buffers, its
    heartbeat arrays and its own fields, all updated in place, one step of one
    thread at a time, in whatever order the threads are scheduled. */
module EcuSimObject {
  import opened CTypes
  import opened HostTime
  import opened HostModel
  import opened HostBuffers

  class EcuSim {
    const maths: Maths
    const buffers: Buffers
    var owner: map<Lock, Thread>
    var sensor: SensorPc
    var processor: ProcessorPc
    var logger: LoggerPc
    var watchdog: WatchdogPc
    var control: ControlPc
    var stats: Snapshot
    var fault: FaultMode
    var sequence: nat
    var stop: bool
    ghost var made: Made
    ghost var processed: Processed
    ghost var logged: Logged
    ghost var watch: Watch
    ghost var past: Past

    ghost predicate Valid()
      reads buffers, buffers.Parts()
    {
      buffers.Valid()
    }

    /** The state of the machine this object is in: its fields, and what its
        buffers hold. */
    ghost function View(): State
      reads this, buffers
    {
      State(owner, sensor, processor, logger, watchdog, control, buffers.samples, buffers.frames,
            stats, fault, sequence, stop, buffers.beats, made, processed, logged, watch, past)
    }

    /** `ecu_create` and `ecu_start`, when the system grants what they ask for. */
    constructor (maths: Maths)
      ensures Valid() && fresh(buffers.Parts()) && View() == INITIAL && this.maths == maths
    {
      this.maths := maths;
      buffers := new Buffers();
      owner := map[];
      sensor, processor, logger, watchdog, control := SBeatWait, PBeatWait, LBeatWait, WBeatWait, CIdle;
      stats, fault, sequence, stop := ZERO, NoFault, 0, false;
      made, processed, logged := INITIAL.made, INITIAL.processed, INITIAL.logged;
      watch, past := INITIAL.watch, INITIAL.past;
    }

    // -------------------------------------------------------------- mutexes

    /** The mutex a thread is waiting for or about to take. */
    function Wanting(t: Thread): (w: Wanted)
      reads this, buffers
      ensures w == WantedBy(View(), t)
    {
      match t
      case SensorThread => SensorWants(sensor)
      case ProcessorThread => ProcessorWants(processor)
      case LoggerThread => LoggerWants(logger)
      case WatchdogThread => WatchdogWants(watchdog)
      case ControlThread => ControlWants(control)
    }

    /** `pthread_mutex_lock`: the thread gets the mutex if it is free and has to
        try again otherwise. */
    method TryLock(l: Lock, t: Thread)
      requires WantedBy(View(), t) == Wants(l)
      modifies this
      ensures View() == if l in old(owner) then old(View()) else Grant(old(View()), t, l)
    {
      if l in owner {
        return;
      }
      owner := owner[l := t];
      match t
      case SensorThread => sensor := SensorGranted(sensor);
      case ProcessorThread => processor := ProcessorGranted(processor);
      case LoggerThread => logger := LoggerGranted(logger);
      case WatchdogThread => watchdog := WatchdogGranted(watchdog);
      case ControlThread => control := ControlGranted(control);
    }

    // -------------------------------------------------------------- the sensor thread

    method ReportSensor(now: Timespec)
      requires Valid() && sensor.SBeatHeld?
      modifies this, buffers.Parts()
      ensures Valid() && View() == SensorWork(maths, old(View()), now)
    {
      buffers.Record(WatchedSensor, now);
      watch := watch.(beaten := watch.beaten + [Beat(WatchedSensor, now)]);
      owner := owner - {BeatLock};
      sensor := SLoop;
    }

    /** From the test of the stop flag to the choice between one sample and four. */
    method StartRound(now: Timespec)
      requires sensor.SLoop? || sensor.SModeHeld? || sensor.SChoose?
      modifies this
      ensures View() == SensorWork(maths, old(View()), now)
    {
      match sensor
      case SLoop =>
        sensor := if stop then SDone else SModeWait;
      case SModeHeld =>
        owner := owner - {StateLock};
        sensor := SChoose(fault);
      case SChoose(mode) =>
        if mode == QueueOverflow {
          sensor := SBurst(0);
        } else if mode == SensorFailure && sequence % 10 == 0 {
          sensor := SLogWait;
        } else {
          sensor := SLoad(Single);
        }
    }

    /** The next sample of a burst, or the one after a log line. */
    method StartSample(ghost now: Timespec)
      requires sensor.SBurst? || sensor.SLogHeld?
      modifies this
      ensures View() == SensorWork(maths, old(View()), now)
    {
      match sensor
      case SBurst(i) =>
        sensor := if i < 4 && !stop then SLoad(Burst(i)) else SBeatWait;
      case SLogHeld =>
        owner := owner - {LogLock};
        sensor := SLoad(Single);
    }

    /** `++sim->sensor_sequence`, in its two halves. */
    method NumberSample(now: Timespec)
      requires sensor.SLoad? || sensor.SStore?
      modifies this
      ensures View() == SensorWork(maths, old(View()), now)
    {
      match sensor
      case SLoad(r) =>
        sensor := SStore(r, sequence);
      case SStore(r, loaded) =>
        sequence := loaded + 1;
        made := made.(issued := made.issued + 1);
        sensor := SMakeWait(r, loaded + 1, now);
    }

    method KeepSample(now: Timespec)
      requires sensor.SMakeHeld?
      modifies this
      ensures View() == SensorWork(maths, old(View()), now)
    {
      var x := MakeSample(maths, sensor.number, fault, sensor.at);
      owner := owner - {StateLock};
      made := made.(samples := made.samples + [x]);
      sensor := SPushWait(sensor.r, x);
    }

    method SendSample(now: Timespec)
      requires Valid() && sensor.SPushHeld?
      modifies this, buffers.Parts()
      ensures Valid() && View() == SensorWork(maths, old(View()), now)
    {
      var r := sensor.r;
      var pushed := buffers.PushSample(sensor.x);
      owner := owner - {SensorQueueLock};
      if pushed {
        made := made.(accepted := made.accepted + 1);
        sensor := SCountWait(r);
      } else {
        sensor := SDropWait(r);
      }
    }

    /** `prvIncrementDrop`, and the counting of `prvUpdateFromSample`. */
    method CountSample(ghost now: Timespec)
      requires sensor.SDropHeld? || sensor.SCountHeld?
      modifies this
      ensures View() == SensorWork(maths, old(View()), now)
    {
      match sensor
      case SDropHeld(r) =>
        stats := stats.(sensor := stats.sensor.(drops := stats.sensor.drops + 1));
        owner := owner - {StateLock};
        sensor := AfterRound(r);
      case SCountHeld(r) =>
        stats := stats.(sensor := stats.sensor.(samples := stats.sensor.samples + 1));
        sensor := SDepthWait(r);
    }

    /** The depths of `prvUpdateFromSample`. */
    method SensorDepthForSample(ghost now: Timespec)
      requires Valid() && sensor.SDepthHeld?
      modifies this
      ensures View() == SensorWork(maths, old(View()), now)
    {
      var r := sensor.r;
      stats := stats.(sensorDepth := buffers.SampleCount());
      owner := owner - {SensorQueueLock};
      sensor := SDepth2Wait(r);
    }

    method TelemetryDepthForSample(ghost now: Timespec)
      requires Valid() && sensor.SDepth2Held?
      modifies this
      ensures View() == SensorWork(maths, old(View()), now)
    {
      var r := sensor.r;
      stats := stats.(telemetryDepth := buffers.FrameCount());
      owner := owner - {TelemetryQueueLock};
      sensor := SCountLeave(r);
    }

    method LeaveCount(ghost now: Timespec)
      requires sensor.SCountLeave?
      modifies this
      ensures View() == SensorWork(maths, old(View()), now)
    {
      owner := owner - {StateLock};
      sensor := AfterRound(sensor.r);
    }

    method RunSensor(now: Timespec)
      requires Valid()
      modifies this, buffers.Parts()
      ensures Valid() && View() == SensorWork(maths, old(View()), now)
    {
      match sensor
      case SBeatHeld => ReportSensor(now);
      case SLoop => StartRound(now);
      case SModeHeld => StartRound(now);
      case SChoose(_) => StartRound(now);
      case SBurst(_) => StartSample(now);
      case SLogHeld => StartSample(now);
      case SLoad(_) => NumberSample(now);
      case SStore(_, _) => NumberSample(now);
      case SMakeHeld(_, _, _) => KeepSample(now);
      case SPushHeld(_, _) => SendSample(now);
      case SDropHeld(_) => CountSample(now);
      case SCountHeld(_) => CountSample(now);
      case SDepthHeld(_) => SensorDepthForSample(now);
      case SDepth2Held(_) => TelemetryDepthForSample(now);
      case SCountLeave(_) => LeaveCount(now);
      case _ =>
    }

    // -------------------------------------------------------------- the processor thread

    method ReportProcessor(now: Timespec, timedOut: bool)
      requires Valid() && processor.PBeatHeld?
      modifies this, buffers.Parts()
      ensures Valid() && View() == ProcessorWork(maths, old(View()), now, timedOut)
    {
      buffers.Record(WatchedProcessor, now);
      watch := watch.(beaten := watch.beaten + [Beat(WatchedProcessor, now)]);
      owner := owner - {BeatLock};
      processor := PLoop;
    }

    /** The processor gives the queue's mutex back, with a sample or to wait. */
    method LeaveWith(x: SensorSample, found: bool)
      modifies this
      ensures View() == old(View()).(
        owner := old(owner) - {SensorQueueLock}, processor := if found then PModeWait(x) else PAsleep,
        processed := old(processed).(popped := old(processed.popped) + One(found)))
    {
      owner := owner - {SensorQueueLock};
      processor := if found then PModeWait(x) else PAsleep;
      processed := processed.(popped := processed.popped + One(found));
    }

    method TakeNext(ghost now: Timespec, ghost timedOut: bool)
      requires Valid() && processor.PPopHeld?
      modifies this, buffers.Parts()
      ensures Valid() && View() == ProcessorWork(maths, old(View()), now, timedOut)
    {
      var x, found := buffers.PopSample();
      LeaveWith(x, found);
    }

    method SendFrame(ghost now: Timespec, ghost timedOut: bool)
      requires Valid() && processor.PPushHeld?
      modifies this, buffers.Parts()
      ensures Valid() && View() == ProcessorWork(maths, old(View()), now, timedOut)
    {
      var pushed := buffers.PushFrame(processor.f);
      owner := owner - {TelemetryQueueLock};
      if pushed {
        processed := processed.(accepted := processed.accepted + 1);
        processor := PCountWait;
      } else {
        processor := PDropWait;
      }
    }

    /** `prvIncrementDrop`, and the counting of `prvUpdateFromFrame`. */
    method CountFrame(ghost now: Timespec, ghost timedOut: bool)
      requires processor.PDropHeld? || processor.PCountHeld?
      modifies this
      ensures View() == ProcessorWork(maths, old(View()), now, timedOut)
    {
      match processor
      case PDropHeld =>
        stats := stats.(telemetry := stats.telemetry.(drops := stats.telemetry.drops + 1));
        owner := owner - {StateLock};
        processor := PBeatWait;
      case PCountHeld =>
        stats := stats.(telemetry := stats.telemetry.(frames := stats.telemetry.frames + 1));
        processor := PDepthWait;
    }

    /** The depths of `prvUpdateFromFrame`. */
    method SensorDepthForFrame(ghost now: Timespec, ghost timedOut: bool)
      requires Valid() && processor.PDepthHeld?
      modifies this
      ensures View() == ProcessorWork(maths, old(View()), now, timedOut)
    {
      stats := stats.(sensorDepth := buffers.SampleCount());
      owner := owner - {SensorQueueLock};
      processor := PDepth2Wait;
    }

    method TelemetryDepthForFrame(ghost now: Timespec, ghost timedOut: bool)
      requires Valid() && processor.PDepth2Held?
      modifies this
      ensures View() == ProcessorWork(maths, old(View()), now, timedOut)
    {
      stats := stats.(telemetryDepth := buffers.FrameCount());
      owner := owner - {TelemetryQueueLock};
      processor := PCountLeave;
    }

    /** A deliberate stall, and the frame. */
    method ComputeFrame(now: Timespec, ghost timedOut: bool)
      requires processor.PModeHeld? || processor.PLogHeld? || processor.PProcess?
      modifies this
      ensures View() == ProcessorWork(maths, old(View()), now, timedOut)
    {
      match processor
      case PModeHeld(x) =>
        owner := owner - {StateLock};
        processor := if fault == ProcessStall && x.sequence % 8 == 0 then PLogWait(x) else PProcess(x);
      case PLogHeld(x) =>
        owner := owner - {LogLock};
        processor := PProcess(x);
      case PProcess(x) =>
        processor := PPushWait(ProcessSample(maths, x, now));
    }

    /** Giving back a mutex, and the test of the stop flag. */
    method MoveProcessor(now: Timespec, timedOut: bool)
      requires processor.PLoop? || processor.PAsleep? || processor.PTimedOut? || processor.PCountLeave?
      modifies this
      ensures View() == ProcessorWork(maths, old(View()), now, timedOut)
    {
      match processor
      case PLoop =>
        processor := if stop then PDone else PPopWait;
      case PAsleep =>
        processor := PWakeWait(timedOut);
      case PTimedOut =>
        owner := owner - {SensorQueueLock};
        processor := PBeatWait;
      case PCountLeave =>
        owner := owner - {StateLock};
        processor := PBeatWait;
    }

    method RunProcessor(now: Timespec, timedOut: bool)
      requires Valid()
      modifies this, buffers.Parts()
      ensures Valid() && View() == ProcessorWork(maths, old(View()), now, timedOut)
    {
      match processor
      case PBeatHeld => ReportProcessor(now, timedOut);
      case PLoop => MoveProcessor(now, timedOut);
      case PAsleep => MoveProcessor(now, timedOut);
      case PTimedOut => MoveProcessor(now, timedOut);
      case PCountLeave => MoveProcessor(now, timedOut);
      case PPopHeld => TakeNext(now, timedOut);
      case PModeHeld(_) => ComputeFrame(now, timedOut);
      case PLogHeld(_) => ComputeFrame(now, timedOut);
      case PProcess(_) => ComputeFrame(now, timedOut);
      case PPushHeld(_) => SendFrame(now, timedOut);
      case PDropHeld => CountFrame(now, timedOut);
      case PCountHeld => CountFrame(now, timedOut);
      case PDepthHeld => SensorDepthForFrame(now, timedOut);
      case PDepth2Held => TelemetryDepthForFrame(now, timedOut);
      case _ =>
    }

    // -------------------------------------------------------------- the logger thread

    method ReportLogger(now: Timespec, timedOut: bool)
      requires Valid() && logger.LBeatHeld?
      modifies this, buffers.Parts()
      ensures Valid() && View() == LoggerWork(old(View()), now, timedOut)
    {
      buffers.Record(WatchedLogger, now);
      watch := watch.(beaten := watch.beaten + [Beat(WatchedLogger, now)]);
      owner := owner - {BeatLock};
      logger := LLoop;
    }

    method TakeNextFrame(now: Timespec, timedOut: bool)
      requires Valid() && logger.LPopHeld?
      modifies this, buffers.Parts()
      ensures Valid() && View() == LoggerWork(old(View()), now, timedOut)
    {
      var f, found := buffers.PopFrame();
      owner := owner - {TelemetryQueueLock};
      if found {
        logger := LPrintWait(f);
        logged := logged.(taken := logged.taken + 1);
      } else {
        logger := LAsleep;
      }
    }

    method PrintFrame(now: Timespec, timedOut: bool)
      requires logger.LPrintHeld?
      modifies this
      ensures View() == LoggerWork(old(View()), now, timedOut)
    {
      logged := logged.(printed := logged.printed + [logger.f]);
      owner := owner - {LogLock};
      logger := LBeatWait;
    }

    method RunLogger(now: Timespec, timedOut: bool)
      requires Valid()
      modifies this, buffers.Parts()
      ensures Valid() && View() == LoggerWork(old(View()), now, timedOut)
    {
      match logger
      case LBeatHeld => ReportLogger(now, timedOut);
      case LLoop =>
        logger := if stop then LDone else LPopWait;
      case LPopHeld => TakeNextFrame(now, timedOut);
      case LAsleep =>
        logger := LWakeWait(timedOut);
      case LTimedOut =>
        owner := owner - {TelemetryQueueLock};
        logger := LBeatWait;
      case LPrintHeld(_) => PrintFrame(now, timedOut);
      case _ =>
    }

    // -------------------------------------------------------------- the watchdog thread

    method ReportWatchdog(now: Timespec)
      requires Valid() && watchdog.WBeatHeld?
      modifies this, buffers.Parts()
      ensures Valid() && View() == WatchdogWork(old(View()), now)
    {
      buffers.RecordOwn(now);
      owner := owner - {BeatLock};
      watchdog := WLoop;
    }

    /** `prvWarnIfOverdue` up to its verdict. */
    method Inspect(now: Timespec)
      requires Valid() && (watchdog.WCheckHeld? || watchdog.WCompare?)
      modifies this
      ensures View() == WatchdogWork(old(View()), now)
    {
      match watchdog
      case WCheckHeld(t) =>
        var last, found := buffers.FindBeat(t);
        watchdog := if found then WCompare(t, last) else AfterCheck(t);
        owner := owner - {BeatLock};
      case WCompare(t, last) =>
        watchdog := if DiffMs(now, last) > DeadlineMs(t) then WWarnWait(t, last, now) else AfterCheck(t);
        watch := watch.(checks := watch.checks + [Check(t, last, now)]);
    }

    method RunWatchdog(now: Timespec)
      requires Valid()
      modifies this, buffers.Parts()
      ensures Valid() && View() == WatchdogWork(old(View()), now)
    {
      match watchdog
      case WBeatHeld => ReportWatchdog(now);
      case WLoop =>
        watchdog := if stop then WDone else WCheckWait(WatchedSensor);
      case WCheckHeld(_) => Inspect(now);
      case WCompare(_, _) => Inspect(now);
      case WWarnHeld(t, last, seen) =>
        stats := stats.(warnings := stats.warnings + 1);
        owner := owner - {StateLock};
        watchdog := WLogWait(t, last, seen);
      case WLogHeld(t, _, _) =>
        owner := owner - {LogLock};
        watchdog := AfterCheck(t);
      case _ =>
    }

    // -------------------------------------------------------------- the command loop

    method LeaveSensorQueue(ghost cleared: nat)
      requires control.CClearHeld?
      modifies this
      ensures View() == old(View()).(
        owner := old(owner) - {SensorQueueLock}, control := CClear2Wait(old(control.why)),
        past := old(past).(clearedSamples := old(past.clearedSamples) + cleared))
    {
      past := past.(clearedSamples := past.clearedSamples + cleared);
      owner := owner - {SensorQueueLock};
      control := CClear2Wait(control.why);
    }

    method LeaveTelemetryQueue(ghost cleared: nat)
      requires control.CClear2Held?
      modifies this
      ensures View() == old(View()).(
        owner := old(owner) - {TelemetryQueueLock},
        control := if old(control.why) == ForReset then CBeatsWait else CJoin,
        past := old(past).(clearedFrames := old(past.clearedFrames) + cleared))
    {
      past := past.(clearedFrames := past.clearedFrames + cleared);
      owner := owner - {TelemetryQueueLock};
      control := if control.why == ForReset then CBeatsWait else CJoin;
    }

    /** The clearing of the queues, for `ecu_reset` or `ecu_stop`. */
    method EmptySensorQueue(ghost command: Command)
      requires Valid() && control.CClearHeld?
      modifies this, buffers.Parts()
      ensures Valid() && View() == ControlWork(old(View()), command)
    {
      ghost var held := |buffers.samples|;
      buffers.ClearSamples();
      LeaveSensorQueue(held);
    }

    method EmptyTelemetryQueue(ghost command: Command)
      requires Valid() && control.CClear2Held?
      modifies this, buffers.Parts()
      ensures Valid() && View() == ControlWork(old(View()), command)
    {
      ghost var held := |buffers.frames|;
      buffers.ClearFrames();
      LeaveTelemetryQueue(held);
    }

    method EmptyBeats(ghost command: Command)
      requires Valid() && control.CBeatsHeld?
      modifies this, buffers.Parts()
      ensures Valid() && View() == ControlWork(old(View()), command)
    {
      buffers.ForgetBeats();
      owner := owner - {BeatLock};
      control := CIdle;
    }

    /** The joins of `ecu_stop`. */
    method JoinThreads(ghost command: Command)
      requires control.CJoin?
      modifies this
      ensures View() == ControlWork(old(View()), command)
    {
      if sensor.SDone? && processor.PDone? && logger.LDone? && watchdog.WDone? {
        control := CStopped;
      }
    }

    method ZeroCounters(ghost command: Command)
      requires control.CResetHeld?
      modifies this
      ensures View() == ControlWork(old(View()), command)
    {
      past := Zeroed(View());
      stats := ZERO.(faultMode := fault);
      control := CResetDepthWait;
    }

    /** The depths of `prvInitSnapshot`. */
    method SensorDepthForReset(ghost command: Command)
      requires Valid() && control.CResetDepthHeld?
      modifies this
      ensures View() == ControlWork(old(View()), command)
    {
      stats := stats.(sensorDepth := buffers.SampleCount());
      owner := owner - {SensorQueueLock};
      control := CResetDepth2Wait;
    }

    method TelemetryDepthForReset(ghost command: Command)
      requires Valid() && control.CResetDepth2Held?
      modifies this
      ensures View() == ControlWork(old(View()), command)
    {
      stats := stats.(telemetryDepth := buffers.FrameCount());
      owner := owner - {TelemetryQueueLock};
      control := CResetLeave;
    }

    method RestartNumbering(ghost command: Command)
      requires control.CResetLeave?
      modifies this
      ensures View() == ControlWork(old(View()), command)
    {
      sequence := 0;
      owner := owner - {StateLock};
      control := CClearWait(ForReset);
    }

    /** The depths of `ecu_snapshot`. */
    method SensorDepthForSnapshot(ghost command: Command)
      requires Valid() && control.CSnapDepthHeld?
      modifies this
      ensures View() == ControlWork(old(View()), command)
    {
      var c := control.c;
      control := CSnapDepth2Wait(c.(sensorDepth := buffers.SampleCount()));
      owner := owner - {SensorQueueLock};
    }

    method TelemetryDepthForSnapshot(ghost command: Command)
      requires Valid() && control.CSnapDepth2Held?
      modifies this
      ensures View() == ControlWork(old(View()), command)
    {
      var c := control.c;
      control := CSnapLeave(c.(telemetryDepth := buffers.FrameCount()));
      owner := owner - {TelemetryQueueLock};
    }

    method Report(ghost command: Command)
      requires control.CSnapLeave?
      modifies this
      ensures View() == ControlWork(old(View()), command)
    {
      past := past.(reports := past.reports + [control.c]);
      owner := owner - {StateLock};
      control := CIdle;
    }

    method Obey(command: Command)
      requires control.CIdle?
      modifies this
      ensures View() == ControlWork(old(View()), command)
    {
      match command
      case AskSnapshot =>
        control := CSnapWait;
      case AskFault(mode) =>
        control := CFaultWait(mode);
      case AskReset =>
        control := CResetWait;
      case AskStop =>
        stop := true;
        control := CClearWait(ForStop);
    }

    /** `ecu_set_fault`, inside its critical section. */
    method SetFault(ghost command: Command)
      requires control.CFaultHeld?
      modifies this
      ensures View() == ControlWork(old(View()), command)
    {
      fault := control.mode;
      stats := stats.(faultMode := control.mode);
      owner := owner - {StateLock};
      control := CIdle;
    }

    /** The copy of `ecu_snapshot`. */
    method CopyCounters(ghost command: Command)
      requires control.CSnapHeld?
      modifies this
      ensures View() == ControlWork(old(View()), command)
    {
      control := CSnapDepthWait(stats);
    }

    method RunControl(command: Command)
      requires Valid()
      modifies this, buffers.Parts()
      ensures Valid() && View() == ControlWork(old(View()), command)
    {
      match control
      case CIdle => Obey(command);
      case CFaultHeld(_) => SetFault(command);
      case CSnapHeld => CopyCounters(command);
      case CSnapDepthHeld(_) => SensorDepthForSnapshot(command);
      case CSnapDepth2Held(_) => TelemetryDepthForSnapshot(command);
      case CSnapLeave(_) => Report(command);
      case CResetHeld => ZeroCounters(command);
      case CResetDepthHeld => SensorDepthForReset(command);
      case CResetDepth2Held => TelemetryDepthForReset(command);
      case CResetLeave => RestartNumbering(command);
      case CClearHeld(_) => EmptySensorQueue(command);
      case CClear2Held(_) => EmptyTelemetryQueue(command);
      case CBeatsHeld => EmptyBeats(command);
      case CJoin => JoinThreads(command);
      case _ =>
    }

    // -------------------------------------------------------------- scheduling

    /** Any turn of any thread. */
    method Step(e: Event)
      requires Valid()
      modifies this, buffers.Parts()
      ensures Valid() && View() == Next(maths, old(View()), e)
    {
      var wanted := Wanting(Mover(e));
      if wanted.Wants? {
        TryLock(wanted.lock, Mover(e));
        return;
      }
      match e
      case SensorStep(now) => RunSensor(now);
      case ProcessorStep(now, timedOut) => RunProcessor(now, timedOut);
      case LoggerStep(now, timedOut) => RunLogger(now, timedOut);
      case WatchdogStep(now) => RunWatchdog(now);
      case ControlStep(command) => RunControl(command);
    }
  }
}
