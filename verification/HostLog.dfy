/** What reaches the log of the host simulator: in every run, whatever the
    interleaving, the faults and the resets, a subsequence of the samples made. */
module HostLog {
  import opened HostTime
  import opened HostModel
  import opened HostFrames
  import opened HostCounts
  import opened HostSamples
  import opened Ordered
  import opened Subsequences

  // ---------------------------------------------------------------- the pipeline as one line

  /** A sample on its way, before and after it has become a frame. */
  datatype Item = Raw(x: SensorSample) | Cooked(f: TelemetryFrame)

  function Samples(q: seq<SensorSample>): (r: seq<Item>)
    ensures |r| == |q|
  {
    seq(|q|, i requires 0 <= i < |q| => Raw(q[i]))
  }

  function Frames(q: seq<TelemetryFrame>): (r: seq<Item>)
    ensures |r| == |q|
  {
    seq(|q|, i requires 0 <= i < |q| => Cooked(q[i]))
  }

  /** What a thread carries between two queues. */
  function InSensor(pc: SensorPc): seq<Item> {
    match pc
    case SPushWait(_, x) => [Raw(x)]
    case SPushHeld(_, x) => [Raw(x)]
    case _ => []
  }

  function InProcessor(pc: ProcessorPc): seq<Item> {
    match pc
    case PModeWait(x) => [Raw(x)]
    case PModeHeld(x) => [Raw(x)]
    case PLogWait(x) => [Raw(x)]
    case PLogHeld(x) => [Raw(x)]
    case PProcess(x) => [Raw(x)]
    case PPushWait(f) => [Cooked(f)]
    case PPushHeld(f) => [Cooked(f)]
    case _ => []
  }

  function InLogger(pc: LoggerPc): seq<Item> {
    match pc
    case LPrintWait(f) => [Cooked(f)]
    case LPrintHeld(f) => [Cooked(f)]
    case _ => []
  }

  /** From the log up to the processor. */
  function Output(s: State): seq<Item> {
    Frames(s.logged.printed) + InLogger(s.logger) + Frames(s.frames)
  }

  /** From the processor back to the sensor. */
  function Input(s: State): seq<Item> {
    Samples(s.samples) + InSensor(s.sensor)
  }

  /** Everything in the pipeline, oldest first. */
  function Line(s: State): seq<Item> {
    Output(s) + InProcessor(s.processor) + Input(s)
  }

  // ---------------------------------------------------------------- what an item stems from

  /** The item is the sample, or the frame the processor computes from it. */
  function Stems(m: Maths): (SensorSample, Item) -> bool {
    (x: SensorSample, item: Item) => match item
                 case Raw(y) => y == x
                 case Cooked(f) => f == ProcessSample(m, x, f.timestamp)
  }

  lemma Cooks(m: Maths, x: SensorSample, now: Timespec)
    ensures forall y :: Stems(m)(y, Raw(x)) ==> Stems(m)(y, Cooked(ProcessSample(m, x, now)))
  {
    assert ProcessSample(m, x, now).timestamp == now;
  }

  /** The samples made are numbered 1, 2, 3, ... */
  predicate Numbered(made: seq<SensorSample>) {
    forall i :: 0 <= i < |made| ==> made[i].sequence == i + 1
  }

  ghost predicate LogLaw(m: Maths, s: State) {
    && (s.past.resets == 0 ==> Numbered(s.made.samples))
    && Subsequence(s.made.samples, Line(s), Stems(m))
  }

  // ---------------------------------------------------------------- one step

  /** The sensor passes its sample on to the queue, or drops it. */
  predicate PassesOn(s: State, n: State) {
    && n.made.samples == s.made.samples
    && (Input(n) == Input(s) || Input(n) == Samples(s.samples))
  }

  lemma SensorPasses(m: Maths, s: State, now: Timespec)
    requires SensorWants(s.sensor) == Nothing && !s.sensor.SMakeHeld?
    ensures PassesOn(s, SensorWork(m, s, now))
  {
    SamplingPasses(m, s, now);
  }

  lemma SamplingPasses(m: Maths, s: State, now: Timespec)
    requires SensorWants(s.sensor) == Nothing && !s.sensor.SMakeHeld?
    ensures PassesOn(s, SensorSampling(m, s, now))
  {
    SensorTallyFrame(s);
    SensorTallyCarriesNothing(s);
    match s.sensor
    case SPushHeld(r, x) =>
      assert Samples(s.samples + [x]) == Samples(s.samples) + [Raw(x)];
    case _ =>
  }

  lemma SensorTallyCarriesNothing(s: State)
    requires SensorWants(s.sensor) == Nothing
    ensures InSensor(SensorTally(s).sensor) == InSensor(s.sensor)
  {
  }

  lemma SensorLogs(m: Maths, s: State, now: Timespec)
    requires LogLaw(m, s) && SensorWants(s.sensor) == Nothing
    requires s.past.resets == 0 && s.sensor.SMakeHeld? ==> s.sensor.number == |s.made.samples| + 1
    ensures LogLaw(m, SensorWork(m, s, now))
  {
    SensorFrame(m, s, now);
    if s.sensor.SMakeHeld? {
      SensorMakes(m, s, now);
    } else {
      SensorPasses(m, s, now);
      SensorDrops(m, s, SensorWork(m, s, now));
    }
  }

  lemma SensorMakes(m: Maths, s: State, now: Timespec)
    requires LogLaw(m, s) && s.sensor.SMakeHeld?
    requires s.past.resets == 0 ==> s.sensor.number == |s.made.samples| + 1
    ensures LogLaw(m, SensorWork(m, s, now))
  {
    var made, x := s.made.samples, MakeSample(m, s.sensor.number, s.fault, s.sensor.at);
    assert x.sequence == s.sensor.number && x.timestamp == s.sensor.at;
    Append(made, Line(s), Stems(m), x, Raw(x));
    assert Line(SensorWork(m, s, now)) == Line(s) + [Raw(x)];
  }

  lemma SensorDrops(m: Maths, s: State, n: State)
    requires LogLaw(m, s) && SensorLeaves(s, n) && PassesOn(s, n)
    ensures LogLaw(m, n)
  {
    assert Output(n) == Output(s);
    if Input(n) != Input(s) {
      var front := Output(s) + InProcessor(s.processor) + Samples(s.samples);
      assert Line(s) == front + InSensor(s.sensor) + [];
      Lose(s.made.samples, front, InSensor(s.sensor), [], Stems(m));
      assert Line(n) == front + [];
    }
  }

  /** The processor moves its item along, or drops it. */
  predicate MovesOn(s: State, n: State) {
    || Line(n) == Line(s)
    || (Output(n) == Output(s) && Input(n) == Input(s) && InProcessor(n.processor) == [])
  }

  lemma ProcessorPops(m: Maths, s: State, now: Timespec, late: bool)
    requires s.processor.PPopHeld?
    ensures Line(ProcessorWork(m, s, now, late)) == Line(s)
  {
    if s.samples != [] {
      var x, out, rest := Raw(s.samples[0]), Output(s), Samples(s.samples[1..]);
      var last := InSensor(s.sensor);
      assert Samples(s.samples) == [x] + rest;
      Shift(out, x, rest, last);
    }
  }

  lemma ProcessorPushes(m: Maths, s: State, now: Timespec)
    requires s.processor.PPushHeld?
    ensures MovesOn(s, ProcessorHandling(m, s, now))
  {
    var f := s.processor.f;
    if |s.frames| < QUEUE_LENGTH {
      var front, rest := Frames(s.logged.printed) + InLogger(s.logger), Frames(s.frames);
      assert Frames(s.frames + [f]) == rest + [Cooked(f)];
      assert front + (rest + [Cooked(f)]) + [] + Input(s) == front + rest + [Cooked(f)] + Input(s);
    }
  }

  lemma ProcessorMoves(m: Maths, s: State, now: Timespec, late: bool)
    requires ProcessorWants(s.processor) == Nothing && !s.processor.PProcess?
    ensures MovesOn(s, ProcessorWork(m, s, now, late))
  {
    ProcessorFrame(m, s, now, late);
    if s.processor.PPopHeld? {
      ProcessorPops(m, s, now, late);
    } else {
      HandlingMoves(m, s, now);
    }
  }

  lemma HandlingMoves(m: Maths, s: State, now: Timespec)
    requires ProcessorWants(s.processor) == Nothing && !s.processor.PProcess?
    ensures MovesOn(s, ProcessorHandling(m, s, now))
  {
    if s.processor.PPushHeld? {
      ProcessorPushes(m, s, now);
    } else {
      ProcessorHandlingFrame(m, s, now);
      ProcessorCarries(m, s, now);
    }
  }

  lemma ProcessorCarries(m: Maths, s: State, now: Timespec)
    requires ProcessorWants(s.processor) == Nothing && !s.processor.PProcess? && !s.processor.PPushHeld?
    ensures ProcessorHandling(m, s, now).frames == s.frames
    ensures InProcessor(ProcessorHandling(m, s, now).processor) == InProcessor(s.processor)
  {
    ProcessorTallyFrame(s);
    ProcessorTallyCarriesNothing(s);
  }

  lemma ProcessorTallyCarriesNothing(s: State)
    requires ProcessorWants(s.processor) == Nothing
    ensures InProcessor(ProcessorTally(s).processor) == InProcessor(s.processor)
  {
  }

  lemma ProcessorLogs(m: Maths, s: State, now: Timespec, late: bool)
    requires LogLaw(m, s) && ProcessorWants(s.processor) == Nothing
    ensures LogLaw(m, ProcessorWork(m, s, now, late))
  {
    ProcessorFrame(m, s, now, late);
    var n := ProcessorWork(m, s, now, late);
    if s.processor.PProcess? {
      var x, f := s.processor.x, ProcessSample(m, s.processor.x, now);
      Cooks(m, x, now);
      Become(s.made.samples, Output(s), Raw(x), Cooked(f), Input(s), Stems(m));
      assert Line(n) == Output(s) + [Cooked(f)] + Input(s);
    } else {
      ProcessorMoves(m, s, now, late);
      if Line(n) != Line(s) {
        Lose(s.made.samples, Output(s), InProcessor(s.processor), Input(s), Stems(m));
        assert Line(n) == Output(s) + Input(s);
      }
    }
  }

  lemma LoggerMoves(s: State, now: Timespec, late: bool)
    requires LoggerWants(s.logger) == Nothing
    ensures Output(LoggerWork(s, now, late)) == Output(s)
  {
    match s.logger
    case LPopHeld =>
      if s.frames != [] {
        var f := s.frames[0];
        assert Frames(s.frames) == [Cooked(f)] + Frames(s.frames[1..]);
      }
    case LPrintHeld(f) =>
      assert Frames(s.logged.printed + [f]) == Frames(s.logged.printed) + [Cooked(f)];
    case _ =>
  }

  lemma LoggerLogs(m: Maths, s: State, now: Timespec, late: bool)
    requires LogLaw(m, s) && LoggerWants(s.logger) == Nothing
    ensures LogLaw(m, LoggerWork(s, now, late))
  {
    LoggerFrame(s, now, late);
    LoggerMoves(s, now, late);
    assert Line(LoggerWork(s, now, late)) == Line(s);
  }

  /** All the control thread does to the pipeline is to clear its queues. */
  predicate ClearsOnly(s: State, n: State) {
    && OthersStay(s, n, ControlThread) && n.logged == s.logged && n.made == s.made
    && n.past.resets >= s.past.resets
    && n.samples == (if s.control.CClearHeld? then [] else s.samples)
    && n.frames == (if s.control.CClear2Held? then [] else s.frames)
  }

  lemma ControlClearsOnly(s: State, command: Command)
    ensures ClearsOnly(s, ControlWork(s, command))
  {
    SnapshotClearsOnly(s);
  }

  lemma SnapshotClearsOnly(s: State)
    ensures ClearsOnly(s, ControlSnapshot(s))
  {
    ResetClearsOnly(s);
  }

  lemma ResetClearsOnly(s: State)
    ensures ClearsOnly(s, ControlReset(s))
  {
    ClearClearsOnly(s);
  }

  lemma ClearClearsOnly(s: State)
    ensures ClearsOnly(s, ControlClear(s))
  {
  }

  lemma ControlLogs(m: Maths, s: State, n: State)
    requires LogLaw(m, s) && ClearsOnly(s, n)
    ensures LogLaw(m, n)
  {
    var made := s.made.samples;
    if s.control.CClearHeld? {
      var front := Output(s) + InProcessor(s.processor);
      assert Line(s) == front + Samples(s.samples) + InSensor(s.sensor);
      Lose(made, front, Samples(s.samples), InSensor(s.sensor), Stems(m));
      assert Line(n) == front + InSensor(s.sensor);
    } else if s.control.CClear2Held? {
      var front := Frames(s.logged.printed) + InLogger(s.logger);
      var back := InProcessor(s.processor) + Input(s);
      assert Line(s) == front + Frames(s.frames) + back;
      Lose(made, front, Frames(s.frames), back, Stems(m));
      assert Line(n) == front + back;
    } else {
      assert Line(n) == Line(s);
    }
  }

  lemma GrantCarries(s: State, t: Thread, l: Lock)
    requires WantedBy(s, t) == Wants(l)
    ensures Line(Grant(s, t, l)) == Line(s)
  {
    GrantFrame(s, t, l);
    GrantPcCarries(s, t, l);
  }

  lemma GrantPcCarries(s: State, t: Thread, l: Lock)
    requires WantedBy(s, t) == Wants(l)
    ensures var n := Grant(s, t, l);
      && InSensor(n.sensor) == InSensor(s.sensor)
      && InProcessor(n.processor) == InProcessor(s.processor)
      && InLogger(n.logger) == InLogger(s.logger)
  {
  }

  lemma LogStep(m: Maths, s: State, e: Event)
    requires Counts(s) && LogLaw(m, s)
    ensures LogLaw(m, Next(m, s, e))
  {
    match WantedBy(s, Mover(e))
    case Wants(l) =>
      GrantFrame(s, Mover(e), l);
      GrantCarries(s, Mover(e), l);
    case Nothing =>
      match e
      case SensorStep(now) => SensorLogs(m, s, now);
      case ProcessorStep(now, late) => ProcessorLogs(m, s, now, late);
      case LoggerStep(now, late) => LoggerLogs(m, s, now, late);
      case WatchdogStep(now) => WatchdogFrame(s, now);
      case ControlStep(command) =>
        ControlClearsOnly(s, command);
        ControlLogs(m, s, ControlWork(s, command));
  }

  lemma {:induction false} LogLawHolds(m: Maths, es: seq<Event>)
    ensures LogLaw(m, Run(m, es))
    decreases |es|
  {
    if es == [] {
      assert Line(INITIAL) == [];
      NoItems([], Stems(m));
    } else {
      var front := es[..|es| - 1];
      LogLawHolds(m, front);
      CountsHold(m, front);
      LogStep(m, Run(m, front), es[|es| - 1]);
    }
  }

  // ---------------------------------------------------------------- the log

  /** The frame is what the processor computes from the sample. */
  function Derives(m: Maths): (SensorSample, TelemetryFrame) -> bool {
    (x: SensorSample, f: TelemetryFrame) => f == ProcessSample(m, x, f.timestamp)
  }

  /** In every run, whatever the faults and the resets, the log is a subsequence
      of the samples made: each logged frame is what the processor computes from
      one sample, made later than the sample of the frame logged before. Each of
      these samples was made at a moment of the run, under the fault mode of that
      moment. */
  lemma LogIsSubsequence(m: Maths, es: seq<Event>) returns (at: seq<nat>)
    ensures Places(Run(m, es).made.samples, Run(m, es).logged.printed, Derives(m), at)
    ensures forall i :: 0 <= i < |Run(m, es).made.samples| ==> MadeSometime(m, es, i)
  {
    LogLawHolds(m, es);
    at := LogPlaces(m, Run(m, es));
    forall i | 0 <= i < |Run(m, es).made.samples|
      ensures MadeSometime(m, es, i)
    {
      var k := SamplesUnderTheirMode(m, es, i);
    }
  }

  lemma LogPlaces(m: Maths, s: State) returns (at: seq<nat>)
    requires LogLaw(m, s)
    ensures Places(s.made.samples, s.logged.printed, Derives(m), at)
  {
    var front := Frames(s.logged.printed);
    var rest := InLogger(s.logger) + Frames(s.frames) + InProcessor(s.processor) + Input(s);
    Regroup(front, InLogger(s.logger), Frames(s.frames), InProcessor(s.processor), Input(s));
    at := Start(s.made.samples, front, rest, Stems(m));
    ItemsAreFrames(m, s.made.samples, s.logged.printed, at);
  }

  lemma ItemsAreFrames(m: Maths, made: seq<SensorSample>, log: seq<TelemetryFrame>, at: seq<nat>)
    requires Places(made, Frames(log), Stems(m), at)
    ensures Places(made, log, Derives(m), at)
  {
    forall i | 0 <= i < |log|
      ensures at[i] >= 1 && Derives(m)(made[at[i] - 1], log[i])
    {
      assert Stems(m)(made[at[i] - 1], Frames(log)[i]);
    }
  }

  /** Logged numbers strictly increase, each belonging to the one sample made with
      that number. */
  ghost predicate InOrder(m: Maths, made: seq<SensorSample>, log: seq<TelemetryFrame>) {
    && (forall i, j :: 0 <= i < j < |log| ==> log[i].sequence < log[j].sequence)
    && forall f :: f in log ==>
         1 <= f.sequence <= |made| && f == ProcessSample(m, made[f.sequence - 1], f.timestamp)
  }

  /** In every run without a reset the samples are numbered as they are made, so
      the log is in the order of its numbers. */
  lemma LogInOrder(m: Maths, es: seq<Event>)
    requires Run(m, es).past.resets == 0
    ensures Numbered(Run(m, es).made.samples)
    ensures InOrder(m, Run(m, es).made.samples, Run(m, es).logged.printed)
  {
    LogLawHolds(m, es);
    var at := LogIsSubsequence(m, es);
    NumbersArePlaces(m, Run(m, es).made.samples, Run(m, es).logged.printed, at);
  }

  lemma NumbersArePlaces(m: Maths, made: seq<SensorSample>, log: seq<TelemetryFrame>, at: seq<nat>)
    requires Numbered(made) && Places(made, log, Derives(m), at)
    ensures InOrder(m, made, log)
  {
    forall i | 0 <= i < |log|
      ensures log[i].sequence == at[i]
    {
      assert Derives(m)(made[at[i] - 1], log[i]);
      assert made[at[i] - 1].sequence == at[i];
    }
  }
}
