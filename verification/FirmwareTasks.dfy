/** The tasks of the STM32 build as a machine of atomic steps: sensor, processor,
    logger and watchdog, and the diagnostics task that sets faults and resets.
    Queue, event-group and mutex-protected accesses are atomic; any interleaving
    is a run. */
module FirmwareTasks {
  import opened CTypes
  import opened FirmwareData
  import opened Heartbeat
  import Fifo

  const QUEUE_LENGTH := 6

  /** An ordinary round makes one sample, an overflow burst three. */
  datatype Round = Single | Burst(i: nat)

  datatype SensorPc =
    | AwaitKick | CountBeat | SetBeat | ReadMode
    | Make(r: Round) | Send(r: Round, x: SensorSample) | Drop(r: Round) | Tally(r: Round)

  datatype ProcessorPc =
    | AwaitSample | PCountBeat(x: SensorSample) | PSetBeat(x: SensorSample)
    | CountFault(x: SensorSample) | Judge(x: SensorSample) | StallLine(x: SensorSample) | Handle(x: SensorSample)
    | SendFrame(f: TelemetryFrame) | DropFrame | TallyFrame

  datatype LoggerPc =
    | AwaitFrame | LCountBeat(f: TelemetryFrame) | LSetBeat(f: TelemetryFrame) | Print(f: TelemetryFrame)

  datatype WatchdogPc = Waiting | Warn

  datatype DiagnosticsPc = Ready | ClearSamples | ClearFrames | ClearBeats

  datatype Stats = Stats(
    samples: nat, frames: nat, sensorDrops: nat, telemetryDrops: nat, faults: nat, warnings: nat,
    sensorBeats: nat, processorBeats: nat, loggerBeats: nat, mode: FaultMode)

  const NO_STATS := Stats(0, 0, 0, 0, 0, 0, 0, 0, 0, NoFault)

  /** What has happened, beyond what the firmware remembers: samples made and
      accepted; samples taken, the invalid ones among them, and frames accepted;
      what resets have cleared. `zero...` is where these histories stood, less the
      work in flight, at the last reset. */
  datatype History = History(
    made: seq<SensorSample>, accepted: nat, taken: nat, invalidTaken: nat, sent: nat,
    cleared: nat, clearedFrames: nat, resets: nat,
    zeroMade: int, zeroAccepted: int, zeroTaken: int, zeroInvalid: int, zeroSent: int,
    zeroWarnings: int, zeroSensorBeats: int, zeroProcessorBeats: int, zeroLoggerBeats: int)

  datatype State = State(
    sensor: SensorPc, processor: ProcessorPc, logger: LoggerPc, watchdog: WatchdogPc, diagnostics: DiagnosticsPc,
    kick: bool, samples: seq<SensorSample>, frames: seq<TelemetryFrame>, stats: Stats,
    printed: seq<TelemetryFrame>, signals: seq<Signal>, h: History)

  const INITIAL := State(AwaitKick, AwaitSample, AwaitFrame, Waiting, Ready, false, [], [], NO_STATS, [], [],
                         History([], 0, 0, 0, 0, 0, 0, 0, 0, 0, 0, 0, 0, 0, 0, 0, 0))

  datatype Command = SetFault(mode: FaultMode) | Reset

  datatype Event =
    | TimerFires
    | SensorStep(tick: U32) | ProcessorStep(tick: U32) | LoggerStep | WatchdogStep
    | DiagnosticsStep(command: Command)

  // ---------------------------------------------------------------- the sensor task

  function AfterRound(r: Round): SensorPc {
    match r
    case Single => AwaitKick
    case Burst(i) => if i + 1 < 3 then Make(Burst(i + 1)) else AwaitKick
  }

  function SensorNext(s: State, tick: U32): State {
    match s.sensor
    case AwaitKick => if s.kick then s.(kick := false, sensor := CountBeat) else s
    case CountBeat => s.(sensor := SetBeat, stats := s.stats.(sensorBeats := s.stats.sensorBeats + 1))
    case SetBeat => s.(sensor := ReadMode, signals := s.signals + [Beat(SensorTask)])
    case ReadMode => s.(sensor := Make(if s.stats.mode == Overflow then Burst(0) else Single))
    case Make(r) =>
      var x := MakeSample(ToU32(|s.h.made| + 1), s.stats.mode, tick);
      s.(sensor := Send(r, x), h := s.h.(made := s.h.made + [x]))
    case Send(r, x) =>
      var o := Fifo.Apply(QUEUE_LENGTH, s.samples, Fifo.Push(x));
      if o.answer == Fifo.Pushed(true) then
        s.(sensor := Tally(r), samples := o.queue, h := s.h.(accepted := s.h.accepted + 1))
      else s.(sensor := Drop(r))
    case Drop(r) => s.(sensor := AfterRound(r), stats := s.stats.(sensorDrops := s.stats.sensorDrops + 1))
    case Tally(r) => s.(sensor := AfterRound(r), stats := s.stats.(samples := s.stats.samples + 1))
  }

  // ---------------------------------------------------------------- the processor task

  function ProcessorNext(s: State, tick: U32): State {
    match s.processor
    case AwaitSample =>
      var o := Fifo.Apply(QUEUE_LENGTH, s.samples, Fifo.Take);
      if o.answer.Taken? then
        var x := o.answer.item;
        s.(processor := PCountBeat(x), samples := o.queue,
           h := s.h.(taken := s.h.taken + 1, invalidTaken := s.h.invalidTaken + One(!x.valid)))
      else s
    case PCountBeat(x) =>
      s.(processor := PSetBeat(x), stats := s.stats.(processorBeats := s.stats.processorBeats + 1))
    case PSetBeat(x) =>
      s.(processor := if x.valid then Judge(x) else CountFault(x), signals := s.signals + [Beat(ProcessorTask)])
    case CountFault(x) => s.(processor := Judge(x), stats := s.stats.(faults := s.stats.faults + 1))
    case Judge(x) =>
      s.(processor := if s.stats.mode == Stall && x.sequence % 6 == 0 then StallLine(x) else Handle(x))
    case StallLine(x) => s.(processor := Handle(x))
    case Handle(x) => s.(processor := SendFrame(ProcessSample(x, tick)))
    case SendFrame(f) =>
      var o := Fifo.Apply(QUEUE_LENGTH, s.frames, Fifo.Push(f));
      if o.answer == Fifo.Pushed(true) then
        s.(processor := TallyFrame, frames := o.queue, h := s.h.(sent := s.h.sent + 1))
      else s.(processor := DropFrame)
    case DropFrame =>
      s.(processor := AwaitSample, stats := s.stats.(telemetryDrops := s.stats.telemetryDrops + 1))
    case TallyFrame => s.(processor := AwaitSample, stats := s.stats.(frames := s.stats.frames + 1))
  }

  // ---------------------------------------------------------------- logger, watchdog, diagnostics

  function LoggerNext(s: State): State {
    match s.logger
    case AwaitFrame =>
      var o := Fifo.Apply(QUEUE_LENGTH, s.frames, Fifo.Take);
      if o.answer.Taken? then s.(logger := LCountBeat(o.answer.item), frames := o.queue) else s
    case LCountBeat(f) => s.(logger := LSetBeat(f), stats := s.stats.(loggerBeats := s.stats.loggerBeats + 1))
    case LSetBeat(f) => s.(logger := Print(f), signals := s.signals + [Beat(OutputTask)])
    case Print(f) => s.(logger := AwaitFrame, printed := s.printed + [f])
  }

  function WatchdogNext(s: State): State {
    match s.watchdog
    case Waiting =>
      s.(watchdog := if Bits(s.signals) == ALL then Waiting else Warn, signals := s.signals + [WaitEnds])
    case Warn => s.(watchdog := Waiting, stats := s.stats.(warnings := s.stats.warnings + 1))
  }

  /** A sample numbered but not yet counted. */
  predicate SensorInFlight(pc: SensorPc) {
    pc.Send? || pc.Drop? || pc.Tally?
  }

  /** A sample taken whose frame is not yet counted. */
  predicate ProcessorInFlight(pc: ProcessorPc) {
    !pc.AwaitSample?
  }

  /** An invalid sample taken but not yet counted as a fault. */
  predicate FaultInFlight(pc: ProcessorPc) {
    || (pc.PCountBeat? && !pc.x.valid) || (pc.PSetBeat? && !pc.x.valid) || pc.CountFault?
  }

  /** A frame the logger has taken but not yet printed. */
  predicate LoggerInFlight(pc: LoggerPc) {
    !pc.AwaitFrame?
  }

  /** How many waits ended without every bit set. */
  function Missed(signals: seq<Signal>): int {
    Count(signals, WaitEnds) - HealthyCount(signals)
  }

  function Zeroed(s: State): History {
    s.h.(resets := s.h.resets + 1,
         zeroMade := |s.h.made| - One(SensorInFlight(s.sensor)),
         zeroAccepted := s.h.accepted - One(s.sensor.Tally?),
         zeroTaken := s.h.taken - One(ProcessorInFlight(s.processor)),
         zeroInvalid := s.h.invalidTaken - One(FaultInFlight(s.processor)),
         zeroSent := s.h.sent - One(s.processor.TallyFrame?),
         zeroWarnings := Missed(s.signals) - One(s.watchdog.Warn?),
         zeroSensorBeats := Count(s.signals, Beat(SensorTask)) + One(s.sensor.SetBeat?),
         zeroProcessorBeats := Count(s.signals, Beat(ProcessorTask)) + One(s.processor.PSetBeat?),
         zeroLoggerBeats := Count(s.signals, Beat(OutputTask)) + One(s.logger.LSetBeat?))
  }

  function Obeyed(s: State, command: Command): State {
    match command
    case SetFault(mode) => s.(stats := s.stats.(mode := mode))
    case Reset => s.(diagnostics := ClearSamples, stats := NO_STATS, h := Zeroed(s))
  }

  function DiagnosticsNext(s: State, command: Command): State {
    match s.diagnostics
    case Ready => Obeyed(s, command)
    case ClearSamples =>
      s.(diagnostics := ClearFrames, samples := [], h := s.h.(cleared := s.h.cleared + |s.samples|))
    case ClearFrames =>
      s.(diagnostics := ClearBeats, frames := [], h := s.h.(clearedFrames := s.h.clearedFrames + |s.frames|))
    case ClearBeats => s.(diagnostics := Ready, signals := s.signals + [ClearBits])
  }

  function Next(s: State, e: Event): State {
    match e
    case TimerFires => s.(kick := true)
    case SensorStep(tick) => SensorNext(s, tick)
    case ProcessorStep(tick) => ProcessorNext(s, tick)
    case LoggerStep => LoggerNext(s)
    case WatchdogStep => WatchdogNext(s)
    case DiagnosticsStep(command) => DiagnosticsNext(s, command)
  }

  function Run(es: seq<Event>): State {
    if es == [] then INITIAL else Next(Run(es[..|es| - 1]), es[|es| - 1])
  }

  // ---------------------------------------------------------------- every frame is good

  ghost predicate SensorSideGood(s: State) {
    && (forall x :: x in s.samples ==> GoodSample(x))
    && (s.sensor.Send? ==> GoodSample(s.sensor.x))
  }

  ghost predicate ProcessorGood(pc: ProcessorPc) {
    match pc
    case PCountBeat(x) => GoodSample(x)
    case PSetBeat(x) => GoodSample(x)
    case CountFault(x) => GoodSample(x)
    case Judge(x) => GoodSample(x)
    case StallLine(x) => GoodSample(x)
    case Handle(x) => GoodSample(x)
    case SendFrame(f) => GoodFrame(f)
    case _ => true
  }

  ghost predicate LoggerSideGood(s: State) {
    && (forall f :: f in s.frames ==> GoodFrame(f))
    && (forall f :: f in s.printed ==> GoodFrame(f))
    && (match s.logger
        case LCountBeat(f) => GoodFrame(f)
        case LSetBeat(f) => GoodFrame(f)
        case Print(f) => GoodFrame(f)
        case _ => true)
  }

  ghost predicate AllGood(s: State) {
    SensorSideGood(s) && ProcessorGood(s.processor) && LoggerSideGood(s)
  }

  lemma SensorKeepsGood(s: State, tick: U32)
    requires AllGood(s)
    ensures AllGood(SensorNext(s, tick))
  {
    MakeSampleGood(ToU32(|s.h.made| + 1), s.stats.mode, tick);
    SensorSideStaysGood(s, tick);
    SensorLeavesFrames(s, tick);
  }

  lemma SensorSideStaysGood(s: State, tick: U32)
    requires SensorSideGood(s)
    requires GoodSample(MakeSample(ToU32(|s.h.made| + 1), s.stats.mode, tick))
    ensures SensorSideGood(SensorNext(s, tick))
  {
  }

  lemma SensorLeavesFrames(s: State, tick: U32)
    ensures var n := SensorNext(s, tick);
      && n.processor == s.processor && n.logger == s.logger && n.frames == s.frames && n.printed == s.printed
  {
  }

  lemma ProcessorKeepsGood(s: State, tick: U32)
    requires AllGood(s)
    ensures AllGood(ProcessorNext(s, tick))
  {
    if s.processor.Handle? {
      ProcessGood(s.processor.x, tick);
    }
    ProcessorPasses(s, tick);
    ProcessorGives(s, tick);
  }

  lemma ProcessorPasses(s: State, tick: U32)
    requires SensorSideGood(s) && ProcessorGood(s.processor)
    requires s.processor.Handle? ==> GoodFrame(ProcessSample(s.processor.x, tick))
    ensures SensorSideGood(ProcessorNext(s, tick)) && ProcessorGood(ProcessorNext(s, tick).processor)
  {
  }

  lemma ProcessorGives(s: State, tick: U32)
    requires LoggerSideGood(s) && ProcessorGood(s.processor)
    ensures LoggerSideGood(ProcessorNext(s, tick))
  {
  }

  lemma LoggerKeepsGood(s: State)
    requires AllGood(s)
    ensures AllGood(LoggerNext(s))
  {
  }

  lemma DiagnosticsKeepsGood(s: State, command: Command)
    requires AllGood(s)
    ensures AllGood(DiagnosticsNext(s, command))
  {
    assert DiagnosticsNext(s, command).processor == s.processor;
  }

  lemma GoodStep(s: State, e: Event)
    requires AllGood(s)
    ensures AllGood(Next(s, e))
  {
    match e
    case TimerFires =>
    case SensorStep(tick) => SensorKeepsGood(s, tick);
    case ProcessorStep(tick) => ProcessorKeepsGood(s, tick);
    case LoggerStep => LoggerKeepsGood(s);
    case WatchdogStep => WatchdogLeaves(s);
    case DiagnosticsStep(command) => DiagnosticsKeepsGood(s, command);
  }

  /** In every run, whatever the faults and resets, every sample anywhere is the one
      generated with its number, and every frame the one computed from it. */
  lemma {:induction false} FramesAlwaysGood(es: seq<Event>)
    ensures AllGood(Run(es))
    decreases |es|
  {
    if es != [] {
      FramesAlwaysGood(es[..|es| - 1]);
      GoodStep(Run(es[..|es| - 1]), es[|es| - 1]);
    }
  }

  // ---------------------------------------------------------------- conservation

  ghost predicate SampleLaw(s: State) {
    && s.stats.samples + s.stats.sensorDrops + One(SensorInFlight(s.sensor)) == |s.h.made| - s.h.zeroMade
    && s.stats.samples + One(s.sensor.Tally?) == s.h.accepted - s.h.zeroAccepted
  }

  /** The queues: what got in is what came out, what was cleared and what is
      there; what came out of the telemetry queue is printed or about to be. */
  ghost predicate QueueLaw(s: State) {
    && s.h.accepted == s.h.taken + |s.samples| + s.h.cleared
    && s.h.sent == |s.printed| + One(LoggerInFlight(s.logger)) + |s.frames| + s.h.clearedFrames
    && |s.samples| <= QUEUE_LENGTH && |s.frames| <= QUEUE_LENGTH
  }

  ghost predicate FrameLaw(s: State) {
    && s.stats.frames + s.stats.telemetryDrops + One(ProcessorInFlight(s.processor)) == s.h.taken - s.h.zeroTaken
    && s.stats.frames + One(s.processor.TallyFrame?) == s.h.sent - s.h.zeroSent
    && s.stats.faults + One(FaultInFlight(s.processor)) == s.h.invalidTaken - s.h.zeroInvalid
    && (s.processor.CountFault? ==> !s.processor.x.valid)
  }

  ghost predicate FreshLaw(s: State) {
    && (s.diagnostics != Ready ==> s.h.resets > 0)
    && (s.h.resets == 0 ==>
          && s.h.zeroMade == s.h.zeroAccepted == s.h.zeroTaken == s.h.zeroInvalid == s.h.zeroSent == 0
          && s.h.zeroWarnings == s.h.zeroSensorBeats == s.h.zeroProcessorBeats == s.h.zeroLoggerBeats == 0
          && s.h.cleared == s.h.clearedFrames == 0)
  }

  ghost predicate Counts(s: State) {
    SampleLaw(s) && QueueLaw(s) && FrameLaw(s) && FreshLaw(s)
  }

  lemma SensorCounts(s: State, tick: U32)
    requires Counts(s)
    ensures Counts(SensorNext(s, tick))
  {
    SensorSampleLaw(s, tick);
    SensorOtherLaws(s, tick);
  }

  lemma SensorSampleLaw(s: State, tick: U32)
    requires SampleLaw(s)
    ensures SampleLaw(SensorNext(s, tick))
  {
  }

  lemma SensorOtherLaws(s: State, tick: U32)
    requires QueueLaw(s) && FrameLaw(s) && FreshLaw(s)
    ensures QueueLaw(SensorNext(s, tick)) && FrameLaw(SensorNext(s, tick)) && FreshLaw(SensorNext(s, tick))
  {
    SensorQueueLaw(s, tick);
    SensorLeaves(s, tick);
  }

  lemma SensorQueueLaw(s: State, tick: U32)
    requires QueueLaw(s)
    ensures QueueLaw(SensorNext(s, tick))
  {
  }

  lemma SensorLeaves(s: State, tick: U32)
    ensures var n := SensorNext(s, tick);
      && n.processor == s.processor && n.diagnostics == s.diagnostics
      && n.stats.frames == s.stats.frames && n.stats.telemetryDrops == s.stats.telemetryDrops
      && n.stats.faults == s.stats.faults
      && n.h.(made := s.h.made, accepted := s.h.accepted) == s.h
  {
  }

  lemma ProcessorCounts(s: State, tick: U32)
    requires Counts(s)
    ensures Counts(ProcessorNext(s, tick))
  {
    ProcessorFrameLaw(s, tick);
    ProcessorOtherLaws(s, tick);
  }

  lemma ProcessorFrameLaw(s: State, tick: U32)
    requires FrameLaw(s)
    ensures FrameLaw(ProcessorNext(s, tick))
  {
  }

  lemma ProcessorOtherLaws(s: State, tick: U32)
    requires QueueLaw(s) && SampleLaw(s) && FreshLaw(s)
    ensures QueueLaw(ProcessorNext(s, tick)) && SampleLaw(ProcessorNext(s, tick)) && FreshLaw(ProcessorNext(s, tick))
  {
    ProcessorQueueLaw(s, tick);
    ProcessorLeaves(s, tick);
  }

  lemma ProcessorQueueLaw(s: State, tick: U32)
    requires QueueLaw(s)
    ensures QueueLaw(ProcessorNext(s, tick))
  {
  }

  lemma ProcessorLeaves(s: State, tick: U32)
    ensures var n := ProcessorNext(s, tick);
      && n.sensor == s.sensor && n.diagnostics == s.diagnostics
      && n.stats.samples == s.stats.samples && n.stats.sensorDrops == s.stats.sensorDrops
      && n.h.(taken := s.h.taken, invalidTaken := s.h.invalidTaken, sent := s.h.sent) == s.h
  {
  }

  lemma LoggerCounts(s: State)
    requires Counts(s)
    ensures Counts(LoggerNext(s))
  {
    LoggerQueueLaw(s);
    LoggerOtherLaws(s);
  }

  lemma LoggerQueueLaw(s: State)
    requires QueueLaw(s) && FreshLaw(s)
    ensures QueueLaw(LoggerNext(s)) && FreshLaw(LoggerNext(s))
  {
  }

  lemma LoggerOtherLaws(s: State)
    requires SampleLaw(s) && FrameLaw(s)
    ensures SampleLaw(LoggerNext(s)) && FrameLaw(LoggerNext(s))
  {
  }

  lemma WatchdogCounts(s: State)
    requires Counts(s)
    ensures Counts(WatchdogNext(s))
  {
    WatchdogLeaves(s);
  }

  lemma WatchdogLeaves(s: State)
    ensures var n := WatchdogNext(s);
      && n.(watchdog := s.watchdog, signals := s.signals, stats := s.stats) == s
      && n.stats.(warnings := s.stats.warnings) == s.stats
  {
  }

  lemma DiagnosticsCounts(s: State, command: Command)
    requires Counts(s)
    ensures Counts(DiagnosticsNext(s, command))
  {
    DiagnosticsSampleLaw(s, command);
    DiagnosticsFrameLaw(s, command);
    DiagnosticsOtherLaws(s, command);
  }

  lemma DiagnosticsSampleLaw(s: State, command: Command)
    requires SampleLaw(s)
    ensures SampleLaw(DiagnosticsNext(s, command))
  {
  }

  lemma DiagnosticsFrameLaw(s: State, command: Command)
    requires FrameLaw(s)
    ensures FrameLaw(DiagnosticsNext(s, command))
  {
  }

  lemma DiagnosticsOtherLaws(s: State, command: Command)
    requires QueueLaw(s) && FreshLaw(s)
    ensures QueueLaw(DiagnosticsNext(s, command)) && FreshLaw(DiagnosticsNext(s, command))
  {
  }

  lemma CountsStep(s: State, e: Event)
    requires Counts(s)
    ensures Counts(Next(s, e))
  {
    match e
    case TimerFires =>
    case SensorStep(tick) => SensorCounts(s, tick);
    case ProcessorStep(tick) => ProcessorCounts(s, tick);
    case LoggerStep => LoggerCounts(s);
    case WatchdogStep => WatchdogCounts(s);
    case DiagnosticsStep(command) => DiagnosticsCounts(s, command);
  }

  /** Nothing has happened or been counted. */
  predicate Untouched(s: State) {
    && |s.signals| == |s.samples| == |s.frames| == |s.printed| == |s.h.made| == 0
    && s.stats.samples == s.stats.frames == s.stats.sensorDrops == s.stats.telemetryDrops == s.stats.faults == 0
    && s.stats.warnings == s.stats.sensorBeats == s.stats.processorBeats == s.stats.loggerBeats == 0
    && s.h.accepted == s.h.taken == s.h.invalidTaken == s.h.sent == s.h.cleared == s.h.clearedFrames == 0
    && s.h.zeroMade == s.h.zeroAccepted == s.h.zeroTaken == s.h.zeroInvalid == s.h.zeroSent == 0
    && s.h.zeroWarnings == s.h.zeroSensorBeats == s.h.zeroProcessorBeats == s.h.zeroLoggerBeats == 0
    && s.sensor.AwaitKick? && s.processor.AwaitSample? && s.logger.AwaitFrame? && s.watchdog.Waiting?
    && s.diagnostics.Ready?
  }

  lemma InitiallyUntouched()
    ensures Untouched(INITIAL)
  {
  }

  lemma CountsInitially(s: State)
    requires Untouched(s)
    ensures Counts(s)
  {
  }

  lemma {:induction false} CountsHold(es: seq<Event>)
    ensures Counts(Run(es))
    decreases |es|
  {
    if es == [] {
      InitiallyUntouched();
      CountsInitially(Run(es));
    } else {
      CountsHold(es[..|es| - 1]);
      CountsStep(Run(es[..|es| - 1]), es[|es| - 1]);
    }
  }

  /** Without a reset the fault counter is the number of invalid samples taken,
      less the one being handled; and no sample is unaccounted for. */
  lemma WithoutReset(es: seq<Event>)
    requires Run(es).h.resets == 0
    ensures var s := Run(es);
      && s.stats.faults == s.h.invalidTaken - One(FaultInFlight(s.processor))
      && |s.h.made| == s.stats.samples + s.stats.sensorDrops + One(SensorInFlight(s.sensor))
      && s.stats.samples + One(s.sensor.Tally?)
         == s.stats.frames + s.stats.telemetryDrops + One(ProcessorInFlight(s.processor)) + |s.samples|
      && s.stats.frames + One(s.processor.TallyFrame?)
         == |s.printed| + One(LoggerInFlight(s.logger)) + |s.frames|
  {
    CountsHold(es);
  }

  // ---------------------------------------------------------------- the heartbeat

  /** Each beat counter is its task's bit-settings since the counters were zeroed,
      one ahead between the counter and the bit. */
  ghost predicate BeatLaw(s: State) {
    && s.stats.sensorBeats
       == Count(s.signals, Beat(SensorTask)) + One(s.sensor.SetBeat?) - s.h.zeroSensorBeats
    && s.stats.processorBeats
       == Count(s.signals, Beat(ProcessorTask)) + One(s.processor.PSetBeat?) - s.h.zeroProcessorBeats
    && s.stats.loggerBeats
       == Count(s.signals, Beat(OutputTask)) + One(s.logger.LSetBeat?) - s.h.zeroLoggerBeats
  }

  /** The warnings counted since the counters were zeroed, and the one under way,
      are the waits that ended without every bit set. */
  ghost predicate WarningLaw(s: State) {
    s.stats.warnings + One(s.watchdog.Warn?) == Missed(s.signals) - s.h.zeroWarnings
  }

  ghost predicate SignalLaws(s: State) {
    BeatLaw(s) && WarningLaw(s)
  }

  /** A task's step leaves the beats and warnings, or sets one bit. */
  lemma MissedSnoc(signals: seq<Signal>, e: Signal)
    ensures Missed(signals + [e]) == Missed(signals) + One(e == WaitEnds && Bits(signals) != ALL)
  {
    CountSnoc(signals, e);
    HealthySnoc(signals, e);
  }

  lemma SensorSignals(s: State, tick: U32)
    requires SignalLaws(s)
    ensures SignalLaws(SensorNext(s, tick))
  {
    SensorSignalsOnly(s, tick);
    if s.sensor.SetBeat? {
      CountSnoc(s.signals, Beat(SensorTask));
      MissedSnoc(s.signals, Beat(SensorTask));
    }
  }

  lemma SensorSignalsOnly(s: State, tick: U32)
    ensures var n := SensorNext(s, tick);
      && n.h.(made := s.h.made, accepted := s.h.accepted) == s.h
      && n.processor == s.processor && n.logger == s.logger && n.watchdog == s.watchdog
      && n.signals == s.signals + (if s.sensor.SetBeat? then [Beat(SensorTask)] else [])
      && n.stats.processorBeats == s.stats.processorBeats && n.stats.loggerBeats == s.stats.loggerBeats
      && n.stats.warnings == s.stats.warnings
      && n.stats.sensorBeats == s.stats.sensorBeats + One(s.sensor.CountBeat?)
      && (n.sensor.SetBeat? <==> s.sensor.CountBeat?)
  {
    assert s.signals + [] == s.signals;
  }

  lemma ProcessorSignals(s: State, tick: U32)
    requires SignalLaws(s)
    ensures SignalLaws(ProcessorNext(s, tick))
  {
    ProcessorSignalsOnly(s, tick);
    if s.processor.PSetBeat? {
      CountSnoc(s.signals, Beat(ProcessorTask));
      MissedSnoc(s.signals, Beat(ProcessorTask));
    }
  }

  lemma ProcessorSignalsOnly(s: State, tick: U32)
    ensures var n := ProcessorNext(s, tick);
      && n.h.(taken := s.h.taken, invalidTaken := s.h.invalidTaken, sent := s.h.sent) == s.h
      && n.sensor == s.sensor && n.logger == s.logger && n.watchdog == s.watchdog
      && n.signals == s.signals + (if s.processor.PSetBeat? then [Beat(ProcessorTask)] else [])
      && n.stats.sensorBeats == s.stats.sensorBeats && n.stats.loggerBeats == s.stats.loggerBeats
      && n.stats.warnings == s.stats.warnings
      && n.stats.processorBeats == s.stats.processorBeats + One(s.processor.PCountBeat?)
      && (n.processor.PSetBeat? <==> s.processor.PCountBeat?)
  {
    assert s.signals + [] == s.signals;
  }

  lemma LoggerSignals(s: State)
    requires SignalLaws(s)
    ensures SignalLaws(LoggerNext(s))
  {
    LoggerSignalsOnly(s);
    if s.logger.LSetBeat? {
      CountSnoc(s.signals, Beat(OutputTask));
      MissedSnoc(s.signals, Beat(OutputTask));
    }
  }

  lemma LoggerSignalsOnly(s: State)
    ensures var n := LoggerNext(s);
      && n.h == s.h && n.sensor == s.sensor && n.processor == s.processor && n.watchdog == s.watchdog
      && n.signals == s.signals + (if s.logger.LSetBeat? then [Beat(OutputTask)] else [])
      && n.stats.(loggerBeats := s.stats.loggerBeats) == s.stats
      && n.stats.loggerBeats == s.stats.loggerBeats + One(s.logger.LCountBeat?)
      && (n.logger.LSetBeat? <==> s.logger.LCountBeat?)
  {
    assert s.signals + [] == s.signals;
  }

  lemma WatchdogSignals(s: State)
    requires SignalLaws(s)
    ensures SignalLaws(WatchdogNext(s))
  {
    CountSnoc(s.signals, WaitEnds);
    MissedSnoc(s.signals, WaitEnds);
    WatchdogSignalsOnly(s);
  }

  lemma WatchdogSignalsOnly(s: State)
    ensures var n := WatchdogNext(s);
      && n.h == s.h && n.stats.(warnings := s.stats.warnings) == s.stats
      && n.sensor == s.sensor && n.processor == s.processor && n.logger == s.logger
      && (if s.watchdog.Waiting? then
            n.signals == s.signals + [WaitEnds] && n.stats == s.stats
            && (n.watchdog.Warn? <==> Bits(s.signals) != ALL)
          else
            n.signals == s.signals && n.stats.warnings == s.stats.warnings + 1 && n.watchdog.Waiting?)
  {
  }

  lemma DiagnosticsSignals(s: State, command: Command)
    requires SignalLaws(s)
    ensures SignalLaws(DiagnosticsNext(s, command))
  {
    if s.diagnostics.Ready? && command.Reset? {
      ResetSignals(s);
    } else {
      DiagnosticsSignalsOnly(s, command);
      BitsClearedOrNot(s.signals, DiagnosticsNext(s, command).signals);
    }
  }

  lemma BitsClearedOrNot(before: seq<Signal>, after: seq<Signal>)
    requires after == before || after == before + [ClearBits]
    ensures Missed(after) == Missed(before)
    ensures forall t :: Count(after, Beat(t)) == Count(before, Beat(t))
  {
    if after != before {
      CountSnoc(before, ClearBits);
      MissedSnoc(before, ClearBits);
    }
  }

  lemma ResetSignals(s: State)
    requires s.diagnostics.Ready?
    ensures SignalLaws(DiagnosticsNext(s, Reset))
  {
  }

  lemma DiagnosticsSignalsOnly(s: State, command: Command)
    requires !(s.diagnostics.Ready? && command.Reset?)
    ensures var n := DiagnosticsNext(s, command);
      && n.h.(cleared := s.h.cleared, clearedFrames := s.h.clearedFrames) == s.h
      && n.stats.(mode := s.stats.mode) == s.stats
      && n.sensor == s.sensor && n.processor == s.processor && n.logger == s.logger && n.watchdog == s.watchdog
      && (n.signals == s.signals || n.signals == s.signals + [ClearBits])
  {
  }

  lemma SignalsStep(s: State, e: Event)
    requires SignalLaws(s)
    ensures SignalLaws(Next(s, e))
  {
    match e
    case TimerFires =>
    case SensorStep(tick) => SensorSignals(s, tick);
    case ProcessorStep(tick) => ProcessorSignals(s, tick);
    case LoggerStep => LoggerSignals(s);
    case WatchdogStep => WatchdogSignals(s);
    case DiagnosticsStep(command) => DiagnosticsSignals(s, command);
  }

  lemma SignalsInitially(s: State)
    requires Untouched(s)
    ensures SignalLaws(s)
  {
  }

  /** In every run, whatever the faults and the resets. */
  lemma {:induction false} SignalsHold(es: seq<Event>)
    ensures SignalLaws(Run(es))
    decreases |es|
  {
    if es == [] {
      InitiallyUntouched();
      SignalsInitially(Run(es));
    } else {
      SignalsHold(es[..|es| - 1]);
      SignalsStep(Run(es[..|es| - 1]), es[|es| - 1]);
    }
  }

  /** Without a reset the watchdog never reports more healthy rounds than any
      task's beat counter shows, and its warnings are the other waits. */
  lemma HealthyWithinBeats(es: seq<Event>)
    requires Run(es).h.resets == 0
    ensures var s := Run(es);
      && HealthyCount(s.signals) <= s.stats.sensorBeats
      && HealthyCount(s.signals) <= s.stats.processorBeats
      && HealthyCount(s.signals) <= s.stats.loggerBeats
      && s.stats.warnings + One(s.watchdog.Warn?) + HealthyCount(s.signals) == Count(s.signals, WaitEnds)
  {
    SignalsHold(es);
    CountsHold(es);
    HealthyBounded(Run(es).signals, SensorTask);
    HealthyBounded(Run(es).signals, ProcessorTask);
    HealthyBounded(Run(es).signals, OutputTask);
  }
}
