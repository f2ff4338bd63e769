/** The STM32 application as the source has it: statistics, queues and event bits
    updated in place by tasks that take turns in any order. */
module FirmwareApp {
  import opened CTypes
  import opened DivMod
  import opened FirmwareData
  import opened FirmwareTasks
  import opened Heartbeat
  import FirmwareLog

  lemma NextNumber(made: nat, number: U32)
    requires number == ToU32(made)
    ensures ToU32(number + 1) == ToU32(made + 1)
  {
    var q := made / TWO_TO_32;
    assert made == number + TWO_TO_32 * q;
    ModOfSum(number + 1, q, TWO_TO_32);
  }

  /** What the event bits are after a history of signals. */
  ghost predicate BitsAre(bits: set<Task>, signals: seq<Signal>) {
    bits == Bits(signals)
  }

  lemma BitsAfter(bits: set<Task>, signals: seq<Signal>, e: Signal)
    requires BitsAre(bits, signals)
    ensures e.Beat? ==> BitsAre(bits + {e.task}, signals + [e])
    ensures e.WaitEnds? ==> BitsAre(if bits == ALL then {} else bits, signals + [e])
    ensures e.ClearBits? ==> BitsAre({}, signals + [e])
  {
    assert (signals + [e])[..|signals|] == signals;
  }

  class App {
    var sensor: SensorPc
    var processor: ProcessorPc
    var logger: LoggerPc
    var watchdog: WatchdogPc
    var diagnostics: DiagnosticsPc
    var kick: bool
    var number: U32
    var bits: set<Task>
    var samples: seq<SensorSample>
    var frames: seq<TelemetryFrame>
    var stats: Stats
    ghost var printed: seq<TelemetryFrame>
    ghost var signals: seq<Signal>
    ghost var h: History

    /** The event bits and the sensor task's number are what the history says. */
    ghost predicate Valid()
      reads this`bits, this`signals, this`number, this`h
    {
      BitsAre(bits, signals) && number == ToU32(|h.made|)
    }

    /** The state of the machine this object is in. */
    ghost function View(): State
      reads this
    {
      State(sensor, processor, logger, watchdog, diagnostics, kick, samples, frames, stats, printed, signals, h)
    }

    constructor ()
      ensures Valid() && View() == INITIAL
    {
      sensor, processor, logger, watchdog, diagnostics := AwaitKick, AwaitSample, AwaitFrame, Waiting, Ready;
      kick, number, bits, samples, frames, stats := false, 0, {}, [], [], NO_STATS;
      printed, signals, h := [], [], INITIAL.h;
    }

    /** `xQueueSend` without waiting. */
    method SendSample(x: SensorSample) returns (sent: bool)
      modifies this`samples
      ensures Fifo.Outcome(samples, Fifo.Pushed(sent)) == Fifo.Apply(QUEUE_LENGTH, old(samples), Fifo.Push(x))
    {
      sent := |samples| < QUEUE_LENGTH;
      if sent {
        samples := samples + [x];
      }
    }

    method SendToLogger(f: TelemetryFrame) returns (sent: bool)
      modifies this`frames
      ensures Fifo.Outcome(frames, Fifo.Pushed(sent)) == Fifo.Apply(QUEUE_LENGTH, old(frames), Fifo.Push(f))
    {
      sent := |frames| < QUEUE_LENGTH;
      if sent {
        frames := frames + [f];
      }
    }

    /** `xQueueReceive`, when it does not have to wait. */
    method ReceiveSample() returns (x: SensorSample)
      requires samples != []
      modifies this`samples
      ensures [x] + samples == old(samples)
    {
      x := samples[0];
      samples := samples[1..];
    }

    method ReceiveFrame() returns (f: TelemetryFrame)
      requires frames != []
      modifies this`frames
      ensures [f] + frames == old(frames)
    {
      f := frames[0];
      frames := frames[1..];
    }

    /** `xEventGroupSetBits`. */
    method SetBit(t: Task)
      requires Valid()
      modifies this`bits, this`signals
      ensures Valid() && signals == old(signals) + [Beat(t)]
    {
      BitsAfter(bits, signals, Beat(t));
      bits := bits + {t};
      signals := signals + [Beat(t)];
    }

    /** `prvMakeSample( ++sequence )`. */
    method MakeNext(tick: U32) returns (x: SensorSample)
      requires Valid()
      modifies this`number, this`h
      ensures Valid() && h == old(h).(made := old(h).made + [x])
      ensures x == MakeSample(ToU32(|h.made|), stats.mode, tick)
    {
      NextNumber(|h.made|, number);
      number := ToU32(number + 1);
      x := MakeSample(number, stats.mode, tick);
      h := h.(made := h.made + [x]);
    }

    method SensorReports(ghost tick: U32)
      requires Valid() && sensor.SetBeat?
      modifies this
      ensures Valid() && View() == SensorNext(old(View()), tick)
    {
      sensor := ReadMode;
      SetBit(SensorTask);
    }

    method RunSensor(tick: U32)
      requires Valid()
      modifies this
      ensures Valid() && View() == SensorNext(old(View()), tick)
    {
      match sensor
      case AwaitKick =>
        if kick {
          kick := false;
          sensor := CountBeat;
        }
      case CountBeat =>
        stats := stats.(sensorBeats := stats.sensorBeats + 1);
        sensor := SetBeat;
      case SetBeat =>
        SensorReports(tick);
      case ReadMode =>
        sensor := Make(if stats.mode == Overflow then Burst(0) else Single);
      case Make(r) =>
        var x := MakeNext(tick);
        sensor := Send(r, x);
      case Send(r, x) =>
        var sent := SendSample(x);
        h := h.(accepted := h.accepted + One(sent));
        sensor := if sent then Tally(r) else Drop(r);
      case Drop(r) =>
        stats := stats.(sensorDrops := stats.sensorDrops + 1);
        sensor := AfterRound(r);
      case Tally(r) =>
        stats := stats.(samples := stats.samples + 1);
        sensor := AfterRound(r);
    }

    method ProcessorReports(ghost tick: U32)
      requires Valid() && processor.PSetBeat?
      modifies this
      ensures Valid() && View() == ProcessorNext(old(View()), tick)
    {
      var x := processor.x;
      processor := if x.valid then Judge(x) else CountFault(x);
      SetBit(ProcessorTask);
    }

    method RunProcessor(tick: U32)
      requires Valid()
      modifies this
      ensures Valid() && View() == ProcessorNext(old(View()), tick)
    {
      match processor
      case AwaitSample =>
        if samples != [] {
          var x := ReceiveSample();
          h := h.(taken := h.taken + 1, invalidTaken := h.invalidTaken + One(!x.valid));
          processor := PCountBeat(x);
        }
      case PCountBeat(x) =>
        stats := stats.(processorBeats := stats.processorBeats + 1);
        processor := PSetBeat(x);
      case PSetBeat(_) =>
        ProcessorReports(tick);
      case CountFault(x) =>
        stats := stats.(faults := stats.faults + 1);
        processor := Judge(x);
      case Judge(x) =>
        processor := if stats.mode == Stall && x.sequence % 6 == 0 then StallLine(x) else Handle(x);
      case StallLine(x) =>
        processor := Handle(x);
      case Handle(x) =>
        processor := SendFrame(ProcessSample(x, tick));
      case SendFrame(f) =>
        var sent := SendToLogger(f);
        h := h.(sent := h.sent + One(sent));
        processor := if sent then TallyFrame else DropFrame;
      case DropFrame =>
        stats := stats.(telemetryDrops := stats.telemetryDrops + 1);
        processor := AwaitSample;
      case TallyFrame =>
        stats := stats.(frames := stats.frames + 1);
        processor := AwaitSample;
    }

    method LoggerReports()
      requires Valid() && logger.LSetBeat?
      modifies this
      ensures Valid() && View() == LoggerNext(old(View()))
    {
      logger := Print(logger.f);
      SetBit(OutputTask);
    }

    method RunLogger()
      requires Valid()
      modifies this
      ensures Valid() && View() == LoggerNext(old(View()))
    {
      match logger
      case AwaitFrame =>
        if frames != [] {
          var f := ReceiveFrame();
          logger := LCountBeat(f);
        }
      case LCountBeat(f) =>
        stats := stats.(loggerBeats := stats.loggerBeats + 1);
        logger := LSetBeat(f);
      case LSetBeat(_) =>
        LoggerReports();
      case Print(f) =>
        printed := printed + [f];
        logger := AwaitFrame;
    }

    /** The wait for all bits, which clears them when it has seen them all. */
    method RunWatchdog()
      requires Valid()
      modifies this
      ensures Valid() && View() == WatchdogNext(old(View()))
    {
      match watchdog
      case Waiting =>
        BitsAfter(bits, signals, WaitEnds);
        watchdog := if bits == ALL then Waiting else Warn;
        if bits == ALL {
          bits := {};
        }
        signals := signals + [WaitEnds];
      case Warn =>
        stats := stats.(warnings := stats.warnings + 1);
        watchdog := Waiting;
    }

    /** The setting of the fault mode, or the locked part of `prvResetStats`. */
    method Obey(command: Command)
      requires Valid()
      modifies this`stats, this`diagnostics, this`h
      ensures Valid() && View() == Obeyed(old(View()), command)
    {
      match command
      case SetFault(mode) =>
        stats := stats.(mode := mode);
      case Reset =>
        h := Zeroed(View());
        stats := NO_STATS;
        diagnostics := ClearSamples;
    }

    method DropBits()
      requires Valid()
      modifies this`bits, this`signals
      ensures Valid() && signals == old(signals) + [ClearBits]
    {
      BitsAfter(bits, signals, ClearBits);
      bits := {};
      signals := signals + [ClearBits];
    }

    /** `xEventGroupClearBits` for all bits. */
    method ResetBits(ghost command: Command)
      requires Valid() && diagnostics.ClearBeats?
      modifies this
      ensures Valid() && View() == DiagnosticsNext(old(View()), command)
    {
      diagnostics := Ready;
      DropBits();
    }

    /** The setting of the fault mode, or `prvResetStats` in its four parts. */
    method RunDiagnostics(command: Command)
      requires Valid()
      modifies this
      ensures Valid() && View() == DiagnosticsNext(old(View()), command)
    {
      match diagnostics
      case Ready =>
        Obey(command);
      case ClearSamples =>
        h := h.(cleared := h.cleared + |samples|);
        samples := [];
        diagnostics := ClearFrames;
      case ClearFrames =>
        h := h.(clearedFrames := h.clearedFrames + |frames|);
        frames := [];
        diagnostics := ClearBeats;
      case ClearBeats =>
        ResetBits(command);
    }

    method Step(e: Event)
      requires Valid()
      modifies this
      ensures Valid() && View() == Next(old(View()), e)
    {
      match e
      case TimerFires => kick := true;
      case SensorStep(tick) => RunSensor(tick);
      case ProcessorStep(tick) => RunProcessor(tick);
      case LoggerStep => RunLogger();
      case WatchdogStep => RunWatchdog();
      case DiagnosticsStep(command) => RunDiagnostics(command);
    }
  }

  /** A whole run of the application: it ends in the state of the machine, so all
      that holds of the machine's runs holds of the object. */
  method Simulate(schedule: seq<Event>) returns (app: App)
    ensures fresh(app) && app.Valid() && app.View() == Run(schedule)
    ensures AllGood(app.View()) && Counts(app.View()) && SignalLaws(app.View())
    ensures FirmwareLog.LogLaw(app.View())
  {
    app := new App();
    for i := 0 to |schedule|
      invariant fresh(app) && app.Valid()
      invariant app.View() == Run(schedule[..i])
    {
      assert schedule[..i + 1][..i] == schedule[..i];
      app.Step(schedule[i]);
    }
    assert schedule[..|schedule|] == schedule;
    FramesAlwaysGood(schedule);
    CountsHold(schedule);
    SignalsHold(schedule);
    FirmwareLog.LogLawHolds(schedule);
  }
}
