/** The tasks of the lm3s build as a machine of atomic steps: a timer kicks the
    sensor task, a length-10 queue paired with a binary semaphore hands samples to
    the processing task, a second queue hands frames to the telemetry task, and a
    monitor waits for everyone's heartbeat. Queue, semaphore and event-group calls
    are atomic; any interleaving of the tasks' steps is a run. */
module Lm3sTasks {
  import opened CTypes
  import opened Lm3sData
  import opened Heartbeat

  const QUEUE_LENGTH := 10

  /** Where `sensor_task` is: waiting for the timer, about to build a sample, to
      send it, to give the semaphore, to set its heartbeat bit. */
  datatype SensorPc = AwaitKick | Build | Send(data: SensorData) | Give | SensorBeat

  /** Where `processing_task` is. `Missed` is the branch taken when the zero-wait
      receive finds the queue empty. */
  datatype ProcessorPc =
    | AwaitReady | Receive | Missed
    | Compute(data: SensorData) | SendFrame(frame: TelemetryData) | ProcessorBeat

  datatype OutputPc = AwaitFrame | Print(frame: TelemetryData) | OutputBeat

  datatype State = State(
    sensor: SensorPc, processor: ProcessorPc, output: OutputPc,
    kick: bool, ready: bool,
    samples: seq<SensorData>, frames: seq<TelemetryData>,
    fault: Fault, rng: U32, speed: int,
    drops: nat, lostGives: nat, misses: nat,
    accepted: seq<SensorData>, processed: seq<SensorData>,
    computed: seq<TelemetryData>, sent: seq<TelemetryData>, printed: seq<TelemetryData>,
    signals: seq<Signal>)

  /** The timer fires, the operator changes the fault, a task takes a step (the
      sensor reads the clock when it builds a sample), or the monitor's wait ends. */
  datatype Event =
    | TimerFires | SetFault(fault: Fault)
    | SensorStep(now: U32) | ProcessorStep | OutputStep | MonitorStep

  const INITIAL := State(AwaitKick, AwaitReady, AwaitFrame, false, false, [], [], NoFault, 0xDEADBEEF, 0,
                         0, 0, 0, [], [], [], [], [], [])

  function SensorNext(s: State, now: U32): State {
    match s.sensor
    case AwaitKick => if s.kick then s.(kick := false, sensor := Build) else s
    case Build =>
      s.(sensor := Send(Sample(s.fault, now, s.rng)), rng := RngAfter(s.fault, s.rng))
    case Send(data) =>
      if |s.samples| < QUEUE_LENGTH then
        s.(sensor := Give, samples := s.samples + [data], accepted := s.accepted + [data])
      else s.(sensor := Give, drops := s.drops + 1)
    case Give =>
      if s.ready then s.(sensor := SensorBeat, lostGives := s.lostGives + 1)
      else s.(sensor := SensorBeat, ready := true)
    case SensorBeat => s.(sensor := AwaitKick, signals := s.signals + [Beat(SensorTask)])
  }

  function ProcessorNext(s: State): State {
    match s.processor
    case AwaitReady => if s.ready then s.(processor := Receive, ready := false) else s
    case Receive =>
      if s.samples == [] then s.(processor := Missed, misses := s.misses + 1)
      else s.(processor := Compute(s.samples[0]), samples := s.samples[1..])
    case Missed => s.(processor := AwaitReady, signals := s.signals + [Beat(ProcessorTask)])
    case Compute(data) =>
      var speed := SpeedAfter(s.speed, data);
      var frame := Frame(data, speed, s.fault);
      s.(processor := SendFrame(frame), speed := speed,
         processed := s.processed + [data], computed := s.computed + [frame])
    case SendFrame(frame) =>
      if |s.frames| < QUEUE_LENGTH then
        s.(processor := ProcessorBeat, frames := s.frames + [frame], sent := s.sent + [frame])
      else s.(processor := ProcessorBeat)
    case ProcessorBeat => s.(processor := AwaitReady, signals := s.signals + [Beat(ProcessorTask)])
  }

  function OutputNext(s: State): State {
    match s.output
    case AwaitFrame =>
      if s.frames == [] then s else s.(output := Print(s.frames[0]), frames := s.frames[1..])
    case Print(frame) => s.(output := OutputBeat, printed := s.printed + [frame])
    case OutputBeat => s.(output := AwaitFrame, signals := s.signals + [Beat(OutputTask)])
  }

  /** One step; a task that has to wait stays where it is. */
  function Next(s: State, e: Event): State {
    match e
    case TimerFires => s.(kick := true)
    case SetFault(f) => s.(fault := f)
    case SensorStep(now) => SensorNext(s, now)
    case ProcessorStep => ProcessorNext(s)
    case OutputStep => OutputNext(s)
    case MonitorStep => s.(signals := s.signals + [WaitEnds])
  }

  function Run(es: seq<Event>): State {
    if es == [] then INITIAL else Next(Run(es[..|es| - 1]), es[|es| - 1])
  }

  // ---------------------------------------------------------------- the handshake

  /** Wake-ups lost beyond the samples dropped are exactly the samples queued
      beyond the wake-ups under way; and there are never more wake-ups under way
      than samples queued for them. */
  ghost predicate Handshake(s: State) {
    && s.lostGives - s.drops
       == |s.samples| - One(s.ready) - One(s.sensor.Give?) - One(s.processor.Receive?)
    && One(s.ready) + One(s.sensor.Give?) + One(s.processor.Receive?) <= |s.samples| <= QUEUE_LENGTH
    && s.misses == 0 && !s.processor.Missed?
  }

  lemma {:induction false} HandshakeHolds(es: seq<Event>)
    ensures Handshake(Run(es))
    decreases |es|
  {
    if es != [] {
      HandshakeHolds(es[..|es| - 1]);
      HandshakeStep(Run(es[..|es| - 1]), es[|es| - 1]);
    }
  }

  lemma HandshakeStep(s: State, e: Event)
    requires Handshake(s)
    ensures Handshake(Next(s, e))
  {
    match e
    case SensorStep(now) => SensorHandshake(s, now);
    case ProcessorStep =>
    case OutputStep =>
    case _ =>
  }

  lemma SensorHandshake(s: State, now: U32)
    requires Handshake(s)
    ensures Handshake(SensorNext(s, now))
  {
    match s.sensor
    case Build =>
      var t := SensorNext(s, now);
      assert t.samples == s.samples && t.lostGives == s.lostGives && t.drops == s.drops;
    case _ =>
  }

  /** In every run: a sample is never dropped without a wake-up having been lost
      first, the queue holds at least the samples whose wake-ups were lost, the
      receive after a wake-up always finds a sample, and when no wake-up is under
      way the samples left sleeping in the queue are exactly the surplus. */
  lemma HandshakeConsequences(es: seq<Event>)
    ensures var s := Run(es);
      && s.drops <= s.lostGives
      && s.lostGives - s.drops <= |s.samples|
      && s.misses == 0
      && (s.processor.Receive? ==> s.samples != [])
      && (!s.ready && !s.sensor.Give? && !s.processor.Receive? ==> |s.samples| == s.lostGives - s.drops)
  {
    HandshakeHolds(es);
  }

  /** A backlog never clears: between two moments, the surplus of lost wake-ups
      over drops falls only by the drops made on a full queue. */
  lemma {:induction false} BacklogNeverClears(es: seq<Event>, more: seq<Event>)
    ensures var s, t := Run(es), Run(es + more);
      && s.lostGives <= t.lostGives && s.drops <= t.drops
      && |t.samples| >= s.lostGives - s.drops - (t.drops - s.drops)
    decreases |more|
  {
    HandshakeHolds(es + more);
    if more == [] {
      assert es + more == es;
    } else {
      var n := |more| - 1;
      BacklogNeverClears(es, more[..n]);
      RunExtends(es, more);
      CountersGrow(Run(es + more[..n]), more[n]);
    }
  }

  lemma RunExtends(es: seq<Event>, more: seq<Event>)
    requires more != []
    ensures Run(es + more) == Next(Run(es + more[..|more| - 1]), more[|more| - 1])
  {
    assert (es + more)[..|es + more| - 1] == es + more[..|more| - 1];
  }

  lemma CountersGrow(s: State, e: Event)
    ensures s.lostGives <= Next(s, e).lostGives && s.drops <= Next(s, e).drops
  {
  }

  // ---------------------------------------------------------------- the data

  ghost predicate AllProducible(ds: seq<SensorData>) {
    forall d :: d in ds ==> Producible(d)
  }

  ghost predicate AllInRange(fs: seq<TelemetryData>) {
    forall f :: f in fs ==> FrameInRange(f)
  }

  /** Every sample anywhere is one the sensor can produce, every frame anywhere is
      in range, and the accumulator is what the samples processed so far make it. */
  ghost predicate DataInRange(s: State) {
    && AllProducible(s.samples) && AllProducible(s.processed)
    && AllInRange(s.frames) && AllInRange(s.printed)
    && (s.sensor.Send? ==> Producible(s.sensor.data))
    && (s.processor.Compute? ==> Producible(s.processor.data))
    && (s.processor.SendFrame? ==> FrameInRange(s.processor.frame))
    && (s.output.Print? ==> FrameInRange(s.output.frame))
    && s.speed == SpeedRun(0, s.processed)
  }

  lemma {:induction false} DataStaysInRange(es: seq<Event>)
    ensures DataInRange(Run(es))
    decreases |es|
  {
    if es != [] {
      var s := Run(es[..|es| - 1]);
      DataStaysInRange(es[..|es| - 1]);
      match es[|es| - 1]
      case SensorStep(now) => SensorKeepsRange(s, now);
      case ProcessorStep => ProcessorKeepsRange(s);
      case OutputStep => OutputKeepsRange(s);
      case _ =>
    }
  }

  lemma SensorKeepsRange(s: State, now: U32)
    requires DataInRange(s)
    ensures DataInRange(SensorNext(s, now))
  {
    SampleRange(s.fault, now, s.rng);
  }

  lemma ProcessorKeepsRange(s: State)
    requires DataInRange(s)
    ensures DataInRange(ProcessorNext(s))
  {
    SpeedRunBounded(0, s.processed);
    match s.processor
    case Compute(data) =>
      var speed := SpeedAfter(s.speed, data);
      SpeedRunSplit(0, s.processed, [data]);
      assert SpeedRun(s.speed, [data]) == speed;
      FrameRange(data, speed, s.fault);
    case _ =>
  }

  lemma OutputKeepsRange(s: State)
    requires DataInRange(s)
    ensures DataInRange(OutputNext(s))
  {
  }

  /** In every run every printed frame is in range and the accumulator inside
      0..2000; eighty failed samples in a row have brought it to zero. */
  lemma PrintedFramesInRange(es: seq<Event>)
    ensures AllInRange(Run(es).printed) && 0 <= Run(es).speed <= 2000
    ensures var done := Run(es).processed;
      |done| >= 80 && (forall d :: d in done[|done| - 80..] ==> Sentinel(d)) ==> Run(es).speed == 0
  {
    DataStaysInRange(es);
    var done := Run(es).processed;
    SpeedRunBounded(0, done);
    if |done| >= 80 && (forall d :: d in done[|done| - 80..] ==> Sentinel(d)) {
      FailureStopsWithin80(0, done[..|done| - 80], done[|done| - 80..]);
      assert done[..|done| - 80] + done[|done| - 80..] == done;
    }
  }

  // ---------------------------------------------------------------- the heartbeat

  /** Each task reports in once a round: as often as it has finished its work. */
  ghost predicate BeatsFollowWork(s: State) {
    && Count(s.signals, Beat(OutputTask)) + One(s.output.OutputBeat?) == |s.printed|
    && Count(s.signals, Beat(ProcessorTask)) + One(s.processor.SendFrame? || s.processor.ProcessorBeat?)
       == |s.processed|
    && s.misses == 0 && !s.processor.Missed?
  }

  lemma {:induction false} BeatsCountWork(es: seq<Event>)
    ensures BeatsFollowWork(Run(es))
    decreases |es|
  {
    if es != [] {
      BeatsCountWork(es[..|es| - 1]);
      HandshakeHolds(es[..|es| - 1]);
      BeatsStep(Run(es[..|es| - 1]), es[|es| - 1]);
    }
  }

  lemma BeatsStep(s: State, e: Event)
    requires BeatsFollowWork(s) && Handshake(s)
    ensures BeatsFollowWork(Next(s, e))
  {
    match e
    case TimerFires =>
    case SetFault(_) =>
    case SensorStep(now) => SensorBeats(s, now);
    case ProcessorStep => ProcessorBeats(s);
    case OutputStep => OutputBeats(s);
    case MonitorStep => CountSnoc(s.signals, WaitEnds);
  }

  lemma ProcessorBeats(s: State)
    requires BeatsFollowWork(s) && Handshake(s)
    ensures BeatsFollowWork(ProcessorNext(s))
  {
    ProcessorLeaves(s);
    if s.processor.ProcessorBeat? {
      CountSnoc(s.signals, Beat(ProcessorTask));
    }
  }

  lemma ProcessorLeaves(s: State)
    requires Handshake(s)
    ensures var n := ProcessorNext(s);
      && n.output == s.output && n.printed == s.printed && n.misses == s.misses && !n.processor.Missed?
      && n.signals == s.signals + (if s.processor.ProcessorBeat? then [Beat(ProcessorTask)] else [])
      && |n.processed| == |s.processed| + One(s.processor.Compute?)
      && (n.processor.SendFrame? || n.processor.ProcessorBeat?
          <==> s.processor.Compute? || s.processor.SendFrame?)
  {
    assert s.signals + [] == s.signals;
  }

  lemma OutputBeats(s: State)
    requires BeatsFollowWork(s)
    ensures BeatsFollowWork(OutputNext(s))
  {
    if s.output.OutputBeat? {
      CountSnoc(s.signals, Beat(OutputTask));
    }
  }

  lemma SensorBeats(s: State, now: U32)
    requires BeatsFollowWork(s)
    ensures BeatsFollowWork(SensorNext(s, now))
  {
    SensorLeaves(s, now);
    if s.sensor.SensorBeat? {
      CountSnoc(s.signals, Beat(SensorTask));
    }
  }

  lemma SensorLeaves(s: State, now: U32)
    ensures var t := SensorNext(s, now);
      && t.processor == s.processor && t.output == s.output && t.misses == s.misses
      && t.processed == s.processed && t.printed == s.printed
      && (!s.sensor.SensorBeat? ==> t.signals == s.signals)
  {
  }

  /** The monitor never reports more healthy rounds than there are frames printed
      or samples processed. */
  lemma HealthyMeansWork(es: seq<Event>)
    ensures HealthyCount(Run(es).signals) <= |Run(es).printed|
    ensures HealthyCount(Run(es).signals) <= |Run(es).processed|
  {
    BeatsCountWork(es);
    HealthyBounded(Run(es).signals, OutputTask);
    HealthyBounded(Run(es).signals, ProcessorTask);
  }
}
