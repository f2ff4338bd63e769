/** What reaches the log of the STM32 build: in every run, whatever the
    interleaving, the faults and the resets, a subsequence of the samples made.
    Unlike the host's, its numbering goes on across a reset. */
module FirmwareLog {
  import opened CTypes
  import opened FirmwareData
  import opened FirmwareTasks
  import opened Ordered
  import opened Subsequences
  import TelemetryLine
  import LogReader

  // ---------------------------------------------------------------- the pipeline as one line

  /** A sample on its way, before and after it has become a frame. */
  datatype Item = Raw(x: SensorSample) | Cooked(f: TelemetryFrame)

  function Samples(q: seq<SensorSample>): (r: seq<Item>)
    ensures |r| == |q|
  {
    seq(|q|, i requires 0 <= i < |q| => Raw(q[i]))
  }

  function Frames(q: seq<TelemetryFrame>): (r: seq<Item>)
    ensures |r| == |q|
  {
    seq(|q|, i requires 0 <= i < |q| => Cooked(q[i]))
  }

  function InSensor(pc: SensorPc): seq<Item> {
    if pc.Send? then [Raw(pc.x)] else []
  }

  function InProcessor(pc: ProcessorPc): seq<Item> {
    match pc
    case PCountBeat(x) => [Raw(x)]
    case PSetBeat(x) => [Raw(x)]
    case CountFault(x) => [Raw(x)]
    case Judge(x) => [Raw(x)]
    case StallLine(x) => [Raw(x)]
    case Handle(x) => [Raw(x)]
    case SendFrame(f) => [Cooked(f)]
    case _ => []
  }

  function InLogger(pc: LoggerPc): seq<Item> {
    match pc
    case LCountBeat(f) => [Cooked(f)]
    case LSetBeat(f) => [Cooked(f)]
    case Print(f) => [Cooked(f)]
    case AwaitFrame => []
  }

  /** From the log up to the processor. */
  function Output(s: State): seq<Item> {
    Frames(s.printed) + InLogger(s.logger) + Frames(s.frames)
  }

  /** From the processor back to the sensor. */
  function Input(s: State): seq<Item> {
    Samples(s.samples) + InSensor(s.sensor)
  }

  /** Everything in the pipeline, oldest first. */
  function Line(s: State): seq<Item> {
    Output(s) + InProcessor(s.processor) + Input(s)
  }

  /** The item is the sample, or the frame the processor computes from it. */
  function Stems(): (SensorSample, Item) -> bool {
    (x: SensorSample, item: Item) => match item
                                     case Raw(y) => y == x
                                     case Cooked(f) => f == ProcessSample(x, f.tick)
  }

  lemma Cooks(x: SensorSample, tick: U32)
    ensures forall y :: Stems()(y, Raw(x)) ==> Stems()(y, Cooked(ProcessSample(x, tick)))
  {
    assert ProcessSample(x, tick).tick == tick;
  }

  /** The samples made are numbered 1, 2, 3, ... on 32 bits, and each is good. */
  predicate Numbered(made: seq<SensorSample>) {
    forall i :: 0 <= i < |made| ==> made[i].sequence == ToU32(i + 1) && GoodSample(made[i])
  }

  ghost predicate LogLaw(s: State) {
    Numbered(s.h.made) && Subsequence(s.h.made, Line(s), Stems())
  }

  // ---------------------------------------------------------------- one step

  lemma SensorLogs(s: State, tick: U32)
    requires LogLaw(s)
    ensures LogLaw(SensorNext(s, tick))
  {
    SensorLeavesFront(s, tick);
    match s.sensor
    case Make(r) => SensorMakes(s, tick);
    case Send(r, x) => SensorSends(s, tick);
    case _ => SensorIdles(s, tick);
  }

  lemma SensorLeavesFront(s: State, tick: U32)
    ensures Output(SensorNext(s, tick)) == Output(s) && SensorNext(s, tick).processor == s.processor
  {
  }

  lemma SensorMakes(s: State, tick: U32)
    requires LogLaw(s) && s.sensor.Make?
    ensures LogLaw(SensorNext(s, tick))
  {
    var x := MakeSample(ToU32(|s.h.made| + 1), s.stats.mode, tick);
    MakeSampleGood(ToU32(|s.h.made| + 1), s.stats.mode, tick);
    Append(s.h.made, Line(s), Stems(), x, Raw(x));
    assert Line(SensorNext(s, tick)) == Line(s) + [Raw(x)];
  }

  lemma SensorSends(s: State, tick: U32)
    requires LogLaw(s) && s.sensor.Send?
    ensures LogLaw(SensorNext(s, tick))
  {
    SensorLeavesFront(s, tick);
    var x, n := s.sensor.x, SensorNext(s, tick);
    var front := Output(s) + InProcessor(s.processor);
    if |s.samples| < QUEUE_LENGTH {
      assert Samples(s.samples + [x]) == Samples(s.samples) + [Raw(x)];
      assert Line(n) == Line(s);
    } else {
      assert Line(s) == front + Samples(s.samples) + InSensor(s.sensor) + [];
      Lose(s.h.made, front + Samples(s.samples), InSensor(s.sensor), [], Stems());
      assert Line(n) == front + Samples(s.samples) + [];
    }
  }

  lemma SensorIdles(s: State, tick: U32)
    requires !s.sensor.Make? && !s.sensor.Send?
    ensures Line(SensorNext(s, tick)) == Line(s) && SensorNext(s, tick).h.made == s.h.made
  {
  }

  lemma ProcessorLogs(s: State, tick: U32)
    requires LogLaw(s)
    ensures LogLaw(ProcessorNext(s, tick))
  {
    ProcessorLeaves(s, tick);
    match s.processor
    case AwaitSample => ProcessorTakes(s, tick);
    case Handle(x) => ProcessorComputes(s, tick);
    case SendFrame(f) => ProcessorSends(s, tick);
    case _ => ProcessorCarries(s, tick);
  }

  lemma ProcessorTakes(s: State, tick: U32)
    requires s.processor.AwaitSample?
    ensures Line(ProcessorNext(s, tick)) == Line(s)
  {
    if s.samples != [] {
      var x, out, rest := Raw(s.samples[0]), Output(s), Samples(s.samples[1..]);
      var last := InSensor(s.sensor);
      assert Samples(s.samples) == [x] + rest;
      Shift(out, x, rest, last);
    }
  }

  lemma ProcessorComputes(s: State, tick: U32)
    requires LogLaw(s) && s.processor.Handle?
    ensures LogLaw(ProcessorNext(s, tick))
  {
    var x, n := s.processor.x, ProcessorNext(s, tick);
    var f := ProcessSample(x, tick);
    Cooks(x, tick);
    Become(s.h.made, Output(s), Raw(x), Cooked(f), Input(s), Stems());
    assert Line(n) == Output(s) + [Cooked(f)] + Input(s);
  }

  lemma ProcessorSends(s: State, tick: U32)
    requires LogLaw(s) && s.processor.SendFrame?
    ensures LogLaw(ProcessorNext(s, tick))
  {
    var f, n := s.processor.f, ProcessorNext(s, tick);
    if |s.frames| < QUEUE_LENGTH {
      var front, rest := Frames(s.printed) + InLogger(s.logger), Frames(s.frames);
      assert Frames(s.frames + [f]) == rest + [Cooked(f)];
      assert front + (rest + [Cooked(f)]) + [] + Input(s) == front + rest + [Cooked(f)] + Input(s);
      assert Line(n) == Line(s);
    } else {
      Lose(s.h.made, Output(s), InProcessor(s.processor), Input(s), Stems());
      assert Line(n) == Output(s) + Input(s);
    }
  }

  lemma ProcessorCarries(s: State, tick: U32)
    requires !s.processor.AwaitSample? && !s.processor.Handle? && !s.processor.SendFrame?
    ensures Line(ProcessorNext(s, tick)) == Line(s)
  {
  }

  lemma LoggerLogs(s: State)
    requires LogLaw(s)
    ensures LogLaw(LoggerNext(s))
  {
    LoggerMoves(s);
    assert LoggerNext(s).h == s.h;
  }

  lemma LoggerMoves(s: State)
    ensures Line(LoggerNext(s)) == Line(s)
  {
    match s.logger
    case AwaitFrame =>
      if s.frames != [] {
        assert Frames(s.frames) == [Cooked(s.frames[0])] + Frames(s.frames[1..]);
        assert Output(LoggerNext(s)) == Output(s);
      }
    case Print(f) =>
      assert Frames(s.printed + [f]) == Frames(s.printed) + [Cooked(f)];
      assert Output(LoggerNext(s)) == Output(s);
    case _ =>
  }

  /** Resetting a queue takes a stretch out of the line; nothing else the
      diagnostics task does touches it. */
  lemma DiagnosticsLogs(s: State, command: Command)
    requires LogLaw(s)
    ensures LogLaw(DiagnosticsNext(s, command))
  {
    var n := DiagnosticsNext(s, command);
    assert n.h.made == s.h.made;
    match s.diagnostics
    case ClearSamples => SamplesReset(s, n);
    case ClearFrames => FramesReset(s, n);
    case _ =>
      assert Line(n) == Line(s);
  }

  lemma SamplesReset(s: State, n: State)
    requires LogLaw(s) && n.h.made == s.h.made
    requires n.samples == [] && Output(n) == Output(s)
    requires n.processor == s.processor && n.sensor == s.sensor
    ensures LogLaw(n)
  {
    var front := Output(s) + InProcessor(s.processor);
    assert Line(s) == front + Samples(s.samples) + InSensor(s.sensor);
    Lose(s.h.made, front, Samples(s.samples), InSensor(s.sensor), Stems());
    assert Line(n) == front + InSensor(s.sensor);
  }

  lemma FramesReset(s: State, n: State)
    requires LogLaw(s) && n.h.made == s.h.made
    requires n.frames == [] && n.printed == s.printed && n.logger == s.logger
    requires n.processor == s.processor && Input(n) == Input(s)
    ensures LogLaw(n)
  {
    var front := Frames(s.printed) + InLogger(s.logger);
    var back := InProcessor(s.processor) + Input(s);
    Regroup(Frames(s.printed), InLogger(s.logger), Frames(s.frames), InProcessor(s.processor), Input(s));
    Lose(s.h.made, front, Frames(s.frames), back, Stems());
    Regroup(Frames(s.printed), InLogger(s.logger), [], InProcessor(s.processor), Input(s));
    assert Line(n) == front + back;
  }

  lemma WatchdogLogs(s: State)
    ensures Line(WatchdogNext(s)) == Line(s) && WatchdogNext(s).h == s.h
  {
  }

  lemma LogStep(s: State, e: Event)
    requires LogLaw(s)
    ensures LogLaw(Next(s, e))
  {
    match e
    case TimerFires => assert Line(Next(s, e)) == Line(s);
    case SensorStep(tick) => SensorLogs(s, tick);
    case ProcessorStep(tick) => ProcessorLogs(s, tick);
    case LoggerStep => LoggerLogs(s);
    case WatchdogStep => WatchdogLogs(s);
    case DiagnosticsStep(command) => DiagnosticsLogs(s, command);
  }

  lemma LogInitially()
    ensures LogLaw(INITIAL)
  {
    assert Line(INITIAL) == [];
    NoItems(INITIAL.h.made, Stems());
  }

  lemma {:induction false} LogLawHolds(es: seq<Event>)
    ensures LogLaw(Run(es))
    decreases |es|
  {
    if es == [] {
      LogInitially();
    } else {
      LogLawHolds(es[..|es| - 1]);
      LogStep(Run(es[..|es| - 1]), es[|es| - 1]);
    }
  }

  // ---------------------------------------------------------------- the log

  /** The frame is what the processor computes from the sample. */
  function Derives(): (SensorSample, TelemetryFrame) -> bool {
    (x: SensorSample, f: TelemetryFrame) => f == ProcessSample(x, f.tick)
  }

  /** In every run, across faults, resets and the wrap of the numbering, the log is
      a subsequence of the samples made, which are good and numbered as made: each
      printed frame is computed from one sample, made later than that of the frame
      before. */
  lemma LogIsSubsequence(es: seq<Event>) returns (at: seq<nat>)
    ensures Places(Run(es).h.made, Run(es).printed, Derives(), at)
    ensures Numbered(Run(es).h.made)
  {
    LogLawHolds(es);
    at := LogPlaces(Run(es));
  }

  lemma LogPlaces(s: State) returns (at: seq<nat>)
    requires LogLaw(s)
    ensures Places(s.h.made, s.printed, Derives(), at)
  {
    var front := Frames(s.printed);
    var rest := InLogger(s.logger) + Frames(s.frames) + InProcessor(s.processor) + Input(s);
    Regroup(front, InLogger(s.logger), Frames(s.frames), InProcessor(s.processor), Input(s));
    at := Start(s.h.made, front, rest, Stems());
    ItemsAreFrames(s.h.made, s.printed, at);
  }

  lemma ItemsAreFrames(made: seq<SensorSample>, log: seq<TelemetryFrame>, at: seq<nat>)
    requires Places(made, Frames(log), Stems(), at)
    ensures Places(made, log, Derives(), at)
  {
    forall i | 0 <= i < |log|
      ensures at[i] >= 1 && Derives()(made[at[i] - 1], log[i])
    {
      assert Stems()(made[at[i] - 1], Frames(log)[i]);
    }
  }

  /** Until the 32-bit numbering wraps, the printed numbers strictly increase. */
  lemma LogInOrder(es: seq<Event>)
    requires |Run(es).h.made| < TWO_TO_32
    ensures var printed := Run(es).printed;
      forall i, j :: 0 <= i < j < |printed| ==> printed[i].sequence < printed[j].sequence
  {
    var at := LogIsSubsequence(es);
    NumbersArePlaces(Run(es).h.made, Run(es).printed, at);
  }

  lemma NumbersArePlaces(made: seq<SensorSample>, log: seq<TelemetryFrame>, at: seq<nat>)
    requires |made| < TWO_TO_32 && Numbered(made) && Places(made, log, Derives(), at)
    ensures forall i, j :: 0 <= i < j < |log| ==> log[i].sequence < log[j].sequence
  {
    forall i | 0 <= i < |log|
      ensures log[i].sequence == at[i]
    {
      PlaceIsNumber(made, log[i], at[i]);
    }
  }

  lemma PlaceIsNumber(made: seq<SensorSample>, f: TelemetryFrame, place: nat)
    requires Numbered(made) && 1 <= place <= |made| < TWO_TO_32
    requires Derives()(made[place - 1], f)
    ensures f.sequence == place
  {
    assert made[place - 1].sequence == ToU32(place);
  }

  /** In every run each printed line reads back as its frame: exactly, but for the
      sign of a horizontal acceleration strictly between -100 and 0. */
  lemma PrintedLinesReadBack(es: seq<Event>, f: TelemetryFrame)
    requires f in Run(es).printed
    ensures LogReader.ReadLine(TelemetryLine.Line(f)) == Some(LogReader.Reading(
      f.sequence, f.payload.temperature,
      LogReader.Seen(f.payload.ax), LogReader.Seen(f.payload.ay), f.payload.az,
      f.speed, f.rpm, f.throttle, f.valid, f.tick))
  {
    FramesAlwaysGood(es);
    assert GoodFrame(f);
    GoodFrameInRange(f);
    if f.valid {
      NominalPayloadRange(f.sequence);
    }
    LogReader.ReadsBack(f);
  }
}
