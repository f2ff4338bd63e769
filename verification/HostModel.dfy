/** The host simulator as a machine of steps: the four worker threads and the
    control thread, each with its program counter, share two queues, the counters
    under `state_mutex`, the heartbeats under `beat_mutex` and the log under
    `log_mutex`. Taking a mutex is a step of its own, so is the work done while
    holding it together with its release. Any interleaving is a run. */
module HostModel {
  import opened CTypes
  import opened HostTime
  import Fifo

  datatype FaultMode = NoFault | QueueOverflow | SensorFailure | ProcessStall

  /** The functions of the mathematics library the samples are made with. */
  datatype Maths = Maths(sin: real -> real, sqrt: real -> real)

  datatype SensorSample = SensorSample(
    sequence: nat, temperature: real, ax: real, ay: real, az: real, speed: real,
    faultCode: int, timestamp: Timespec)

  datatype TelemetryFrame = TelemetryFrame(
    sequence: nat, temperature: real, ax: real, ay: real, az: real, speed: real,
    rpm: real, throttle: real, faultCode: int, timestamp: Timespec)

  /** `prvMakeSensorSample`, with the fault mode and the time it reads as parameters. */
  function MakeSample(m: Maths, number: nat, mode: FaultMode, at: Timespec): SensorSample {
    var phase := number as real / 6.0;
    var speed := 60.0 + 20.0 * m.sin(phase * 0.5);
    if mode == SensorFailure then SensorSample(number, 155.0, 4.2, 4.2, 4.2, speed, 1, at)
    else SensorSample(number,
                      72.0 + 8.0 * m.sin(phase),
                      0.3 + 0.2 * m.sin(phase * 1.3),
                      -0.1 + 0.15 * m.sin(phase * 0.9),
                      9.8 + 0.2 * m.sin(phase * 1.7),
                      speed, 0, at)
  }

  function Clamp(x: real, lo: real, hi: real): real {
    var low := if x < hi then x else hi;
    if lo > low then lo else low
  }

  function SquaredMagnitude(s: SensorSample): real {
    s.ax * s.ax + s.ay * s.ay + s.az * s.az
  }

  /** `prvProcessSample`, with the time it reads as a parameter. */
  function ProcessSample(m: Maths, s: SensorSample, at: Timespec): TelemetryFrame {
    FrameFrom(s, m.sqrt(SquaredMagnitude(s)), at)
  }

  /** The frame, from the magnitude of the acceleration. */
  function FrameFrom(s: SensorSample, mag: real, at: Timespec): TelemetryFrame {
    TelemetryFrame(s.sequence, s.temperature, s.ax, s.ay, s.az, s.speed,
                   700.0 + s.temperature * 17.5 + mag * 125.0,
                   Clamp(12.0 + mag * 14.0 + s.temperature / 6.0, 0.0, 100.0),
                   s.faultCode, at)
  }

  const QUEUE_LENGTH := 24

  // ---------------------------------------------------------------- threads and locks

  datatype Lock = StateLock | LogLock | BeatLock | SensorQueueLock | TelemetryQueueLock

  datatype Thread = SensorThread | ProcessorThread | LoggerThread | WatchdogThread | ControlThread

  /** The threads the watchdog looks after. */
  datatype Watched = WatchedSensor | WatchedProcessor | WatchedLogger

  /** An ordinary round of the sensor makes one sample, an overflow burst four. */
  datatype Round = Single | Burst(i: nat)

  // In the program counters below `...Wait` is a thread about to take a mutex and
  // `...Held` the same thread once it has it.

  datatype SensorPc =
    | SBeatWait | SBeatHeld | SLoop | SModeWait | SModeHeld | SChoose(mode: FaultMode) | SBurst(i: nat)
    | SLogWait | SLogHeld
    | SLoad(r: Round) | SStore(r: Round, loaded: nat)
    | SMakeWait(r: Round, number: nat, at: Timespec) | SMakeHeld(r: Round, number: nat, at: Timespec)
    | SPushWait(r: Round, x: SensorSample) | SPushHeld(r: Round, x: SensorSample)
    | SDropWait(r: Round) | SDropHeld(r: Round)
    | SCountWait(r: Round) | SCountHeld(r: Round)
    | SDepthWait(r: Round) | SDepthHeld(r: Round) | SDepth2Wait(r: Round) | SDepth2Held(r: Round)
    | SCountLeave(r: Round)
    | SDone

  datatype ProcessorPc =
    | PBeatWait | PBeatHeld | PLoop
    | PPopWait | PPopHeld | PAsleep | PWakeWait(timedOut: bool) | PTimedOut
    | PModeWait(x: SensorSample) | PModeHeld(x: SensorSample)
    | PLogWait(x: SensorSample) | PLogHeld(x: SensorSample) | PProcess(x: SensorSample)
    | PPushWait(f: TelemetryFrame) | PPushHeld(f: TelemetryFrame)
    | PDropWait | PDropHeld
    | PCountWait | PCountHeld
    | PDepthWait | PDepthHeld | PDepth2Wait | PDepth2Held | PCountLeave
    | PDone

  datatype LoggerPc =
    | LBeatWait | LBeatHeld | LLoop
    | LPopWait | LPopHeld | LAsleep | LWakeWait(timedOut: bool) | LTimedOut
    | LPrintWait(f: TelemetryFrame) | LPrintHeld(f: TelemetryFrame)
    | LDone

  datatype WatchdogPc =
    | WBeatWait | WBeatHeld | WLoop
    | WCheckWait(t: Watched) | WCheckHeld(t: Watched) | WCompare(t: Watched, last: Timespec)
    | WWarnWait(t: Watched, last: Timespec, seen: Timespec) | WWarnHeld(t: Watched, last: Timespec, seen: Timespec)
    | WLogWait(t: Watched, last: Timespec, seen: Timespec) | WLogHeld(t: Watched, last: Timespec, seen: Timespec)
    | WDone

  /** Why the control thread clears the queues. */
  datatype Cause = ForReset | ForStop

  datatype ControlPc =
    | CIdle
    | CFaultWait(mode: FaultMode) | CFaultHeld(mode: FaultMode)
    | CSnapWait | CSnapHeld | CSnapDepthWait(c: Snapshot) | CSnapDepthHeld(c: Snapshot)
    | CSnapDepth2Wait(c: Snapshot) | CSnapDepth2Held(c: Snapshot) | CSnapLeave(c: Snapshot)
    | CResetWait | CResetHeld | CResetDepthWait | CResetDepthHeld | CResetDepth2Wait | CResetDepth2Held | CResetLeave
    | CClearWait(why: Cause) | CClearHeld(why: Cause) | CClear2Wait(why: Cause) | CClear2Held(why: Cause)
    | CBeatsWait | CBeatsHeld
    | CJoin | CStopped

  // ---------------------------------------------------------------- the state

  datatype SampleCounts = SampleCounts(samples: nat, drops: nat)

  datatype FrameCounts = FrameCounts(frames: nat, drops: nat)

  /** The counters and depths of the snapshot. */
  datatype Snapshot = Snapshot(
    sensor: SampleCounts, telemetry: FrameCounts, warnings: nat,
    sensorDepth: nat, telemetryDepth: nat, faultMode: FaultMode)

  const ZERO := Snapshot(SampleCounts(0, 0), FrameCounts(0, 0), 0, 0, 0, NoFault)

  // What has happened since the start, beyond what the simulator remembers.

  /** Numbers handed out, samples made, and samples pushed. */
  datatype Made = Made(issued: nat, samples: seq<SensorSample>, accepted: nat)

  /** Samples popped, and frames pushed. */
  datatype Processed = Processed(popped: nat, accepted: nat)

  /** Frames popped, and frames printed. */
  datatype Logged = Logged(taken: nat, printed: seq<TelemetryFrame>)

  /** A task reporting in. */
  datatype Beat = Beat(task: Watched, at: Timespec)

  /** A look of the watchdog at a task: the report it found and the time it was. */
  datatype Check = Check(task: Watched, last: Timespec, seen: Timespec)

  /** The beats recorded, and the checks of the watchdog. */
  datatype Watch = Watch(beaten: seq<Beat>, checks: seq<Check>)

  /** Items cleared from the queues, snapshots reported, resets, and where the
      histories stood when the counters were last zeroed. */
  datatype Past = Past(
    clearedSamples: nat, clearedFrames: nat, reports: seq<Snapshot>,
    resets: nat, zeroIssued: int, zeroAccepted: int, zeroPopped: int, zeroFrames: int, zeroVerdicts: int)

  datatype State = State(
    owner: map<Lock, Thread>,
    sensor: SensorPc, processor: ProcessorPc, logger: LoggerPc, watchdog: WatchdogPc, control: ControlPc,
    samples: seq<SensorSample>, frames: seq<TelemetryFrame>,
    stats: Snapshot, fault: FaultMode, sequence: nat, stop: bool, beats: map<Watched, Timespec>,
    made: Made, processed: Processed, logged: Logged, watch: Watch, past: Past)

  /** The state just after `ecu_create` and `ecu_start`. */
  const INITIAL := State(map[], SBeatWait, PBeatWait, LBeatWait, WBeatWait, CIdle, [], [],
                         ZERO, NoFault, 0, false, map[],
                         Made(0, [], 0), Processed(0, 0), Logged(0, []), Watch([], []),
                         Past(0, 0, [], 0, 0, 0, 0, 0, 0))

  /** What the operator asks for. */
  datatype Command = AskSnapshot | AskFault(mode: FaultMode) | AskReset | AskStop

  /** A thread takes a step; the clock reading, the reason a wait ends and the
      operator's command come from outside. */
  datatype Event =
    | SensorStep(now: Timespec)
    | ProcessorStep(now: Timespec, timedOut: bool)
    | LoggerStep(now: Timespec, timedOut: bool)
    | WatchdogStep(now: Timespec)
    | ControlStep(command: Command)

  // ---------------------------------------------------------------- mutexes

  /** The owners after a mutex is given back. */
  function Freed(s: State, l: Lock): map<Lock, Thread> {
    s.owner - {l}
  }

  datatype Wanted = Nothing | Wants(lock: Lock)

  /** The mutex each program counter is about to take. */
  function SensorWants(pc: SensorPc): Wanted {
    match pc
    case SBeatWait => Wants(BeatLock)
    case SModeWait => Wants(StateLock)
    case SLogWait => Wants(LogLock)
    case SMakeWait(_, _, _) => Wants(StateLock)
    case SPushWait(_, _) => Wants(SensorQueueLock)
    case SDropWait(_) => Wants(StateLock)
    case SCountWait(_) => Wants(StateLock)
    case SDepthWait(_) => Wants(SensorQueueLock)
    case SDepth2Wait(_) => Wants(TelemetryQueueLock)
    case _ => Nothing
  }

  function ProcessorWants(pc: ProcessorPc): Wanted {
    match pc
    case PBeatWait => Wants(BeatLock)
    case PPopWait => Wants(SensorQueueLock)
    case PWakeWait(_) => Wants(SensorQueueLock)
    case PModeWait(_) => Wants(StateLock)
    case PLogWait(_) => Wants(LogLock)
    case PPushWait(_) => Wants(TelemetryQueueLock)
    case PDropWait => Wants(StateLock)
    case PCountWait => Wants(StateLock)
    case PDepthWait => Wants(SensorQueueLock)
    case PDepth2Wait => Wants(TelemetryQueueLock)
    case _ => Nothing
  }

  function LoggerWants(pc: LoggerPc): Wanted {
    match pc
    case LBeatWait => Wants(BeatLock)
    case LPopWait => Wants(TelemetryQueueLock)
    case LWakeWait(_) => Wants(TelemetryQueueLock)
    case LPrintWait(_) => Wants(LogLock)
    case _ => Nothing
  }

  function WatchdogWants(pc: WatchdogPc): Wanted {
    match pc
    case WBeatWait => Wants(BeatLock)
    case WCheckWait(_) => Wants(BeatLock)
    case WWarnWait(_, _, _) => Wants(StateLock)
    case WLogWait(_, _, _) => Wants(LogLock)
    case _ => Nothing
  }

  function ControlWants(pc: ControlPc): Wanted {
    match pc
    case CFaultWait(_) => Wants(StateLock)
    case CSnapWait => Wants(StateLock)
    case CSnapDepthWait(_) => Wants(SensorQueueLock)
    case CSnapDepth2Wait(_) => Wants(TelemetryQueueLock)
    case CResetWait => Wants(StateLock)
    case CResetDepthWait => Wants(SensorQueueLock)
    case CResetDepth2Wait => Wants(TelemetryQueueLock)
    case CClearWait(_) => Wants(SensorQueueLock)
    case CClear2Wait(_) => Wants(TelemetryQueueLock)
    case CBeatsWait => Wants(BeatLock)
    case _ => Nothing
  }

  /** The mutex a thread is waiting for or about to take. */
  function WantedBy(s: State, t: Thread): Wanted {
    match t
    case SensorThread => SensorWants(s.sensor)
    case ProcessorThread => ProcessorWants(s.processor)
    case LoggerThread => LoggerWants(s.logger)
    case WatchdogThread => WatchdogWants(s.watchdog)
    case ControlThread => ControlWants(s.control)
  }

  /** A thread that wants a mutex someone owns is blocked. */
  predicate Blocked(s: State, t: Thread) {
    WantedBy(s, t).Wants? && WantedBy(s, t).lock in s.owner
  }

  /** `prvBeat`, inside its critical section. */
  function Recorded(s: State, t: Watched, now: Timespec): State {
    s.(beats := s.beats[t := now], watch := s.watch.(beaten := s.watch.beaten + [Beat(t, now)]))
  }

  // ---------------------------------------------------------------- the sensor thread

  function AfterRound(r: Round): SensorPc {
    match r
    case Single => SBeatWait
    case Burst(i) => SBurst(i + 1)
  }

  /** The program counter once the wanted mutex is taken. */
  function SensorGranted(pc: SensorPc): SensorPc {
    match pc
    case SBeatWait => SBeatHeld
    case SModeWait => SModeHeld
    case SLogWait => SLogHeld
    case SMakeWait(r, number, at) => SMakeHeld(r, number, at)
    case SPushWait(r, x) => SPushHeld(r, x)
    case SDropWait(r) => SDropHeld(r)
    case SCountWait(r) => SCountHeld(r)
    case SDepthWait(r) => SDepthHeld(r)
    case SDepth2Wait(r) => SDepth2Held(r)
    case _ => pc
  }

  /** After the push: `prvIncrementDrop` or `prvUpdateFromSample`. */
  function SensorTally(s: State): State {
    match s.sensor
    case SDropHeld(r) =>
      s.(owner := Freed(s, StateLock), sensor := AfterRound(r),
        stats := s.stats.(sensor := s.stats.sensor.(drops := s.stats.sensor.drops + 1)))
    case SCountHeld(r) =>
      s.(sensor := SDepthWait(r),
         stats := s.stats.(sensor := s.stats.sensor.(samples := s.stats.sensor.samples + 1)))
    case SDepthHeld(r) =>
      s.(owner := Freed(s, SensorQueueLock), sensor := SDepth2Wait(r), stats := s.stats.(sensorDepth := |s.samples|))
    case SDepth2Held(r) =>
      s.(owner := Freed(s, TelemetryQueueLock), sensor := SCountLeave(r),
        stats := s.stats.(telemetryDepth := |s.frames|))
    case SCountLeave(r) => s.(owner := Freed(s, StateLock), sensor := AfterRound(r))
    case _ => s
  }

  function SampleMade(s: State, r: Round, x: SensorSample): State {
    s.(owner := Freed(s, StateLock), sensor := SPushWait(r, x), made := s.made.(samples := s.made.samples + [x]))
  }

  function PushSample(s: State, r: Round, x: SensorSample): State {
    var o := Fifo.Apply(QUEUE_LENGTH, s.samples, Fifo.Push(x));
    if o.answer == Fifo.Pushed(true) then
      s.(owner := Freed(s, SensorQueueLock), sensor := SCountWait(r), samples := o.queue,
        made := s.made.(accepted := s.made.accepted + 1))
    else s.(owner := Freed(s, SensorQueueLock), sensor := SDropWait(r))
  }

  /** Making a sample and pushing it. */
  function SensorSampling(m: Maths, s: State, now: Timespec): State {
    match s.sensor
    case SLoad(r) => s.(sensor := SStore(r, s.sequence))
    case SStore(r, loaded) =>
      s.(sensor := SMakeWait(r, loaded + 1, now), sequence := loaded + 1, made := s.made.(issued := s.made.issued + 1))
    case SMakeHeld(r, number, at) => SampleMade(s, r, MakeSample(m, number, s.fault, at))
    case SPushHeld(r, x) => PushSample(s, r, x)
    case _ => SensorTally(s)
  }

  /** The work of the sensor thread at a step where it wants no mutex. */
  function SensorWork(m: Maths, s: State, now: Timespec): State {
    match s.sensor
    case SBeatHeld => Recorded(s, WatchedSensor, now).(owner := Freed(s, BeatLock), sensor := SLoop)
    case SLoop => s.(sensor := if s.stop then SDone else SModeWait)
    case SModeHeld => s.(owner := Freed(s, StateLock), sensor := SChoose(s.fault))
    case SChoose(mode) =>
      s.(sensor :=
        if mode == QueueOverflow then SBurst(0)
        else if mode == SensorFailure && s.sequence % 10 == 0 then SLogWait
        else SLoad(Single))
    case SBurst(i) => s.(sensor := if i < 4 && !s.stop then SLoad(Burst(i)) else SBeatWait)
    case SLogHeld => s.(owner := Freed(s, LogLock), sensor := SLoad(Single))
    case _ => SensorSampling(m, s, now)
  }

  // ---------------------------------------------------------------- the processor thread

  /** The program counter once the wanted mutex is taken. */
  function ProcessorGranted(pc: ProcessorPc): ProcessorPc {
    match pc
    case PBeatWait => PBeatHeld
    case PPopWait => PPopHeld
    case PWakeWait(late) => if late then PTimedOut else PPopHeld
    case PModeWait(x) => PModeHeld(x)
    case PLogWait(x) => PLogHeld(x)
    case PPushWait(f) => PPushHeld(f)
    case PDropWait => PDropHeld
    case PCountWait => PCountHeld
    case PDepthWait => PDepthHeld
    case PDepth2Wait => PDepth2Held
    case _ => pc
  }

  /** After the push: `prvIncrementDrop` or `prvUpdateFromFrame`. */
  function ProcessorTally(s: State): State {
    match s.processor
    case PDropHeld =>
      s.(owner := Freed(s, StateLock), processor := PBeatWait,
        stats := s.stats.(telemetry := s.stats.telemetry.(drops := s.stats.telemetry.drops + 1)))
    case PCountHeld =>
      s.(processor := PDepthWait,
         stats := s.stats.(telemetry := s.stats.telemetry.(frames := s.stats.telemetry.frames + 1)))
    case PDepthHeld =>
      s.(owner := Freed(s, SensorQueueLock), processor := PDepth2Wait, stats := s.stats.(sensorDepth := |s.samples|))
    case PDepth2Held =>
      s.(owner := Freed(s, TelemetryQueueLock), processor := PCountLeave,
        stats := s.stats.(telemetryDepth := |s.frames|))
    case PCountLeave => s.(owner := Freed(s, StateLock), processor := PBeatWait)
    case _ => s
  }

  function PushFrame(s: State, f: TelemetryFrame): State {
    var o := Fifo.Apply(QUEUE_LENGTH, s.frames, Fifo.Push(f));
    if o.answer == Fifo.Pushed(true) then
      s.(owner := Freed(s, TelemetryQueueLock), processor := PCountWait, frames := o.queue,
        processed := s.processed.(accepted := s.processed.accepted + 1))
    else s.(owner := Freed(s, TelemetryQueueLock), processor := PDropWait)
  }

  /** Handling a popped sample: a stall, its frame, the push. */
  function ProcessorHandling(m: Maths, s: State, now: Timespec): State {
    match s.processor
    case PModeHeld(x) =>
      s.(owner := Freed(s, StateLock), processor :=
        if s.fault == ProcessStall && x.sequence % 8 == 0 then PLogWait(x) else PProcess(x))
    case PLogHeld(x) => s.(owner := Freed(s, LogLock), processor := PProcess(x))
    case PProcess(x) => s.(processor := PPushWait(ProcessSample(m, x, now)))
    case PPushHeld(f) => PushFrame(s, f)
    case _ => ProcessorTally(s)
  }

  function PopSample(s: State): State {
    var o := Fifo.Apply(QUEUE_LENGTH, s.samples, Fifo.Take);
    if o.answer.Taken? then
      s.(owner := Freed(s, SensorQueueLock), processor := PModeWait(o.answer.item), samples := o.queue,
        processed := s.processed.(popped := s.processed.popped + 1))
    else s.(owner := Freed(s, SensorQueueLock), processor := PAsleep)
  }

  /** The work of the processor thread at a step where it wants no mutex. */
  function ProcessorWork(m: Maths, s: State, now: Timespec, timedOut: bool): State {
    match s.processor
    case PBeatHeld => Recorded(s, WatchedProcessor, now).(owner := Freed(s, BeatLock), processor := PLoop)
    case PLoop => s.(processor := if s.stop then PDone else PPopWait)
    case PPopHeld => PopSample(s)
    case PAsleep => s.(processor := PWakeWait(timedOut))
    case PTimedOut => s.(owner := Freed(s, SensorQueueLock), processor := PBeatWait)
    case _ => ProcessorHandling(m, s, now)
  }

  // ---------------------------------------------------------------- the logger thread

  /** The program counter once the wanted mutex is taken. */
  function LoggerGranted(pc: LoggerPc): LoggerPc {
    match pc
    case LBeatWait => LBeatHeld
    case LPopWait => LPopHeld
    case LWakeWait(late) => if late then LTimedOut else LPopHeld
    case LPrintWait(f) => LPrintHeld(f)
    case _ => pc
  }

  function LoggerWork(s: State, now: Timespec, timedOut: bool): State {
    match s.logger
    case LBeatHeld => Recorded(s, WatchedLogger, now).(owner := Freed(s, BeatLock), logger := LLoop)
    case LLoop => s.(logger := if s.stop then LDone else LPopWait)
    case LPopHeld =>
      var o := Fifo.Apply(QUEUE_LENGTH, s.frames, Fifo.Take);
      if o.answer.Taken? then
        s.(owner := Freed(s, TelemetryQueueLock), logger := LPrintWait(o.answer.item), frames := o.queue,
          logged := s.logged.(taken := s.logged.taken + 1))
      else s.(owner := Freed(s, TelemetryQueueLock), logger := LAsleep)
    case LAsleep => s.(logger := LWakeWait(timedOut))
    case LTimedOut => s.(owner := Freed(s, TelemetryQueueLock), logger := LBeatWait)
    case LPrintHeld(f) =>
      s.(owner := Freed(s, LogLock), logger := LBeatWait, logged := s.logged.(printed := s.logged.printed + [f]))
    case _ => s
  }

  // ---------------------------------------------------------------- the watchdog thread

  function DeadlineMs(t: Watched): int {
    match t
    case WatchedSensor => 900
    case WatchedProcessor => 900
    case WatchedLogger => 1200
  }

  function AfterCheck(t: Watched): WatchdogPc {
    match t
    case WatchedSensor => WCheckWait(WatchedProcessor)
    case WatchedProcessor => WCheckWait(WatchedLogger)
    case WatchedLogger => WBeatWait
  }

  /** The program counter once the wanted mutex is taken. */
  function WatchdogGranted(pc: WatchdogPc): WatchdogPc {
    match pc
    case WBeatWait => WBeatHeld
    case WCheckWait(t) => WCheckHeld(t)
    case WWarnWait(t, last, seen) => WWarnHeld(t, last, seen)
    case WLogWait(t, last, seen) => WLogHeld(t, last, seen)
    case _ => pc
  }

  function WatchdogWork(s: State, now: Timespec): State {
    match s.watchdog
    case WBeatHeld => s.(owner := Freed(s, BeatLock), watchdog := WLoop)
    case WLoop => s.(watchdog := if s.stop then WDone else WCheckWait(WatchedSensor))
    case WCheckHeld(t) =>
      s.(owner := Freed(s, BeatLock), watchdog := if t in s.beats then WCompare(t, s.beats[t]) else AfterCheck(t))
    case WCompare(t, last) =>
      s.(watchdog := if Overdue(now, last, DeadlineMs(t)) then WWarnWait(t, last, now) else AfterCheck(t),
         watch := s.watch.(checks := s.watch.checks + [Check(t, last, now)]))
    case WWarnHeld(t, last, seen) =>
      s.(owner := Freed(s, StateLock), watchdog := WLogWait(t, last, seen),
        stats := s.stats.(warnings := s.stats.warnings + 1))
    case WLogHeld(t, _, _) => s.(owner := Freed(s, LogLock), watchdog := AfterCheck(t))
    case _ => s
  }

  // ---------------------------------------------------------------- the control thread

  /** A sample whose number is taken but which no counter has counted yet. */
  predicate SensorInFlight(pc: SensorPc) {
    || pc.SMakeWait? || pc.SMakeHeld? || pc.SPushWait? || pc.SPushHeld?
    || pc.SDropWait? || pc.SDropHeld? || pc.SCountWait? || pc.SCountHeld?
  }

  /** A sample in the queue, or already out of it, that is not yet counted. */
  predicate SampleUncounted(pc: SensorPc) {
    pc.SCountWait? || pc.SCountHeld?
  }

  /** A popped sample whose frame is not yet counted, as sent or as dropped. */
  predicate ProcessorInFlight(pc: ProcessorPc) {
    || pc.PModeWait? || pc.PModeHeld? || pc.PLogWait? || pc.PLogHeld? || pc.PProcess?
    || pc.PPushWait? || pc.PPushHeld? || pc.PDropWait? || pc.PDropHeld?
    || pc.PCountWait? || pc.PCountHeld?
  }

  /** A frame queued, or already out of the queue, that is not yet counted. */
  predicate FrameUncounted(pc: ProcessorPc) {
    pc.PCountWait? || pc.PCountHeld?
  }

  /** An overdue heartbeat found but not yet counted. */
  predicate WarningInFlight(pc: WatchdogPc) {
    pc.WWarnWait? || pc.WWarnHeld?
  }

  /** The test the watchdog made of a task. */
  predicate FoundOverdue(c: Check) {
    Overdue(c.seen, c.last, DeadlineMs(c.task))
  }

  /** How many of these checks are of a kind. */
  function CountOf(checks: seq<Check>, kind: Check -> bool): nat {
    if checks == [] then 0
    else CountOf(checks[..|checks| - 1], kind) + One(kind(checks[|checks| - 1]))
  }

  /** Where the histories stand, relative to the work in flight, as the counters
      are zeroed. */
  function Zeroed(s: State): Past {
    s.past.(resets := s.past.resets + 1,
            zeroIssued := s.made.issued - One(SensorInFlight(s.sensor)),
            zeroAccepted := s.made.accepted - One(SampleUncounted(s.sensor)),
            zeroPopped := s.processed.popped - One(ProcessorInFlight(s.processor)),
            zeroFrames := s.processed.accepted - One(FrameUncounted(s.processor)),
            zeroVerdicts := CountOf(s.watch.checks, FoundOverdue) - One(WarningInFlight(s.watchdog)))
  }

  predicate AllDone(s: State) {
    s.sensor.SDone? && s.processor.PDone? && s.logger.LDone? && s.watchdog.WDone?
  }

  /** The program counter once the wanted mutex is taken. */
  function ControlGranted(pc: ControlPc): ControlPc {
    match pc
    case CFaultWait(mode) => CFaultHeld(mode)
    case CSnapWait => CSnapHeld
    case CSnapDepthWait(c) => CSnapDepthHeld(c)
    case CSnapDepth2Wait(c) => CSnapDepth2Held(c)
    case CResetWait => CResetHeld
    case CResetDepthWait => CResetDepthHeld
    case CResetDepth2Wait => CResetDepth2Held
    case CClearWait(why) => CClearHeld(why)
    case CClear2Wait(why) => CClear2Held(why)
    case CBeatsWait => CBeatsHeld
    case _ => pc
  }

  function SamplesCleared(s: State, why: Cause): State {
    s.(owner := Freed(s, SensorQueueLock), control := CClear2Wait(why), samples := [],
      past := s.past.(clearedSamples := s.past.clearedSamples + |s.samples|))
  }

  function FramesCleared(s: State, why: Cause): State {
    s.(owner := Freed(s, TelemetryQueueLock), control := if why == ForReset then CBeatsWait else CJoin, frames := [],
      past := s.past.(clearedFrames := s.past.clearedFrames + |s.frames|))
  }

  /** Clearing the queues, for `ecu_reset` or `ecu_stop`, and what follows. */
  function ControlClear(s: State): State {
    match s.control
    case CClearHeld(why) => SamplesCleared(s, why)
    case CClear2Held(why) => FramesCleared(s, why)
    case CBeatsHeld => s.(owner := Freed(s, BeatLock), control := CIdle, beats := map[])
    case CJoin => if AllDone(s) then s.(control := CStopped) else s
    case _ => s
  }

  /** `ecu_reset`, inside its critical section. */
  function ControlReset(s: State): State {
    match s.control
    case CResetHeld => s.(control := CResetDepthWait, stats := ZERO.(faultMode := s.fault), past := Zeroed(s))
    case CResetDepthHeld =>
      s.(owner := Freed(s, SensorQueueLock), control := CResetDepth2Wait, stats := s.stats.(sensorDepth := |s.samples|))
    case CResetDepth2Held =>
      s.(owner := Freed(s, TelemetryQueueLock), control := CResetLeave, stats := s.stats.(telemetryDepth := |s.frames|))
    case CResetLeave => s.(owner := Freed(s, StateLock), control := CClearWait(ForReset), sequence := 0)
    case _ => ControlClear(s)
  }

  /** `ecu_snapshot`. */
  function ControlSnapshot(s: State): State {
    match s.control
    case CSnapHeld => s.(control := CSnapDepthWait(s.stats))
    case CSnapDepthHeld(c) =>
      s.(owner := Freed(s, SensorQueueLock), control := CSnapDepth2Wait(c.(sensorDepth := |s.samples|)))
    case CSnapDepth2Held(c) =>
      s.(owner := Freed(s, TelemetryQueueLock), control := CSnapLeave(c.(telemetryDepth := |s.frames|)))
    case CSnapLeave(c) =>
      s.(owner := Freed(s, StateLock), control := CIdle, past := s.past.(reports := s.past.reports + [c]))
    case _ => ControlReset(s)
  }

  function Asked(s: State, command: Command): State {
    match command
    case AskSnapshot => s.(control := CSnapWait)
    case AskFault(mode) => s.(control := CFaultWait(mode))
    case AskReset => s.(control := CResetWait)
    case AskStop => s.(control := CClearWait(ForStop), stop := true)
  }

  /** The work of the thread that runs the command loop: `ecu_snapshot`,
      `ecu_set_fault`, `ecu_reset` and `ecu_stop`. */
  function ControlWork(s: State, command: Command): State {
    match s.control
    case CIdle => Asked(s, command)
    case CFaultHeld(mode) =>
      s.(owner := Freed(s, StateLock), control := CIdle, fault := mode, stats := s.stats.(faultMode := mode))
    case _ => ControlSnapshot(s)
  }

  // ---------------------------------------------------------------- runs

  function Mover(e: Event): Thread {
    match e
    case SensorStep(_) => SensorThread
    case ProcessorStep(_, _) => ProcessorThread
    case LoggerStep(_, _) => LoggerThread
    case WatchdogStep(_) => WatchdogThread
    case ControlStep(_) => ControlThread
  }

  /** The thread takes the mutex it wants. */
  function Grant(s: State, t: Thread, l: Lock): State {
    var owner := s.owner[l := t];
    match t
    case SensorThread => s.(owner := owner, sensor := SensorGranted(s.sensor))
    case ProcessorThread => s.(owner := owner, processor := ProcessorGranted(s.processor))
    case LoggerThread => s.(owner := owner, logger := LoggerGranted(s.logger))
    case WatchdogThread => s.(owner := owner, watchdog := WatchdogGranted(s.watchdog))
    case ControlThread => s.(owner := owner, control := ControlGranted(s.control))
  }

  function Work(m: Maths, s: State, e: Event): State {
    match e
    case SensorStep(now) => SensorWork(m, s, now)
    case ProcessorStep(now, late) => ProcessorWork(m, s, now, late)
    case LoggerStep(now, late) => LoggerWork(s, now, late)
    case WatchdogStep(now) => WatchdogWork(s, now)
    case ControlStep(command) => ControlWork(s, command)
  }

  /** One step: a thread that wants a mutex takes it if it is free and otherwise
      stays where it is; any other thread does its work. */
  function Next(m: Maths, s: State, e: Event): State {
    match WantedBy(s, Mover(e))
    case Wants(l) => if l in s.owner then s else Grant(s, Mover(e), l)
    case Nothing => Work(m, s, e)
  }

  /** The state after a run, whatever the interleaving. */
  function Run(m: Maths, es: seq<Event>): State {
    if es == [] then INITIAL else Next(m, Run(m, es[..|es| - 1]), es[|es| - 1])
  }
}
