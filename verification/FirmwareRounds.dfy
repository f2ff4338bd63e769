/** What the tasks of the STM32 build do in each of their rounds, told from the run
    alone: how many samples a kick brings, under which mode each is made, which are
    stalled, what a reset does, and what a printed frame shows. */
module FirmwareRounds {
  import opened CTypes
  import opened FirmwareData
  import opened FirmwareTasks
  import opened Heartbeat
  import opened Ordered
  import FirmwareLog

  /** Everything the steps of a run show under a mark, in order. */
  ghost function Trace<T>(es: seq<Event>, mark: (State, Event) -> seq<T>): seq<T> {
    if es == [] then []
    else
      var front := es[..|es| - 1];
      Trace(front, mark) + mark(Run(front), es[|es| - 1])
  }

  // ---------------------------------------------------------------- the fault mode

  function Accepted(s: State, e: Event): seq<Command> {
    if e.DiagnosticsStep? && s.diagnostics.Ready? then [e.command] else []
  }

  /** The mode set last; a reset sets none. */
  function AskedMode(commands: seq<Command>): FaultMode {
    if commands == [] then NoFault
    else if commands[|commands| - 1].SetFault? then commands[|commands| - 1].mode
    else NoFault
  }

  lemma ModeStep(s: State, e: Event, commands: seq<Command>)
    requires s.stats.mode == AskedMode(commands)
    ensures Next(s, e).stats.mode == AskedMode(commands + Accepted(s, e))
  {
    assert commands + [] == commands;
  }

  /** In every run the fault mode is the one set last, or none after a reset. */
  lemma {:induction false} ModeIsAsked(es: seq<Event>)
    ensures Run(es).stats.mode == AskedMode(Trace(es, Accepted))
    decreases |es|
  {
    if es != [] {
      var front := es[..|es| - 1];
      ModeIsAsked(front);
      ModeStep(Run(front), es[|es| - 1], Trace(front, Accepted));
    }
  }

  // ---------------------------------------------------------------- samples of a round

  /** The sensor takes a kick of the timer. */
  function KickTaken(s: State, e: Event): seq<bool> {
    if e.SensorStep? && s.sensor.AwaitKick? && s.kick then [true] else []
  }

  function ModeRead(s: State, e: Event): seq<FaultMode> {
    if e.SensorStep? && s.sensor.ReadMode? then [s.stats.mode] else []
  }

  /** An overflow burst makes three samples, any other round one. */
  function Demand(modes: seq<FaultMode>): nat {
    if modes == [] then 0
    else Demand(modes[..|modes| - 1]) + if modes[|modes| - 1] == Overflow then 3 else 1
  }

  lemma DemandSnoc(modes: seq<FaultMode>, mode: FaultMode)
    ensures Demand(modes + [mode]) == Demand(modes) + if mode == Overflow then 3 else 1
  {
    assert (modes + [mode])[..|modes|] == modes;
  }

  function LeftAfter(r: Round): int {
    if r.Burst? then 2 - r.i else 0
  }

  /** The samples the round under way has still to make. */
  function Owed(pc: SensorPc): int {
    match pc
    case Make(r) => LeftAfter(r) + 1
    case Send(r, _) => LeftAfter(r)
    case Drop(r) => LeftAfter(r)
    case Tally(r) => LeftAfter(r)
    case _ => 0
  }

  predicate InRound(pc: SensorPc) {
    match pc
    case Make(r) => LeftAfter(r) >= 0
    case Send(r, _) => LeftAfter(r) >= 0
    case Drop(r) => LeftAfter(r) >= 0
    case Tally(r) => LeftAfter(r) >= 0
    case _ => true
  }

  /** Each round takes a kick, reports in, reads the mode and makes the samples it
      calls for. */
  ghost predicate RoundsLaw(s: State, kicks: seq<bool>, modes: seq<FaultMode>) {
    && InRound(s.sensor)
    && |s.h.made| + Owed(s.sensor) == Demand(modes)
    && Count(s.signals, Beat(SensorTask)) == |modes| + One(s.sensor.ReadMode?)
    && |kicks| == |modes| + One(s.sensor.CountBeat? || s.sensor.SetBeat? || s.sensor.ReadMode?)
  }

  /** What the law speaks of is as it was. */
  predicate SensorSide(s: State, n: State) {
    && n.sensor == s.sensor && n.h.made == s.h.made
    && Count(n.signals, Beat(SensorTask)) == Count(s.signals, Beat(SensorTask))
  }

  lemma OthersLeaveSensor(s: State, e: Event)
    requires !e.SensorStep?
    ensures SensorSide(s, Next(s, e))
  {
    match e
    case TimerFires =>
    case ProcessorStep(tick) =>
      ProcessorSignalsOnly(s, tick);
      CountSnoc(s.signals, Beat(ProcessorTask));
    case LoggerStep =>
      LoggerSignalsOnly(s);
      CountSnoc(s.signals, Beat(OutputTask));
    case WatchdogStep =>
      WatchdogSignalsOnly(s);
      CountSnoc(s.signals, WaitEnds);
    case DiagnosticsStep(command) => DiagnosticsLeavesSensor(s, command);
  }

  lemma DiagnosticsLeavesSensor(s: State, command: Command)
    ensures SensorSide(s, DiagnosticsNext(s, command))
  {
    CountSnoc(s.signals, ClearBits);
  }

  lemma SensorRounds(s: State, tick: U32, kicks: seq<bool>, modes: seq<FaultMode>)
    requires RoundsLaw(s, kicks, modes)
    ensures var e := SensorStep(tick);
      RoundsLaw(SensorNext(s, tick), kicks + KickTaken(s, e), modes + ModeRead(s, e))
  {
    assert kicks + [] == kicks && modes + [] == modes;
    if s.sensor.ReadMode? {
      DemandSnoc(modes, s.stats.mode);
    } else if s.sensor.SetBeat? {
      CountSnoc(s.signals, Beat(SensorTask));
    }
  }

  lemma RoundsStep(s: State, e: Event, kicks: seq<bool>, modes: seq<FaultMode>)
    requires RoundsLaw(s, kicks, modes)
    ensures RoundsLaw(Next(s, e), kicks + KickTaken(s, e), modes + ModeRead(s, e))
  {
    assert kicks + [] == kicks && modes + [] == modes;
    if e.SensorStep? {
      SensorRounds(s, e.tick, kicks, modes);
    } else {
      OthersLeaveSensor(s, e);
    }
  }

  lemma {:induction false} RoundsHold(es: seq<Event>)
    ensures RoundsLaw(Run(es), Trace(es, KickTaken), Trace(es, ModeRead))
    decreases |es|
  {
    if es != [] {
      var front := es[..|es| - 1];
      RoundsHold(front);
      RoundsStep(Run(front), es[|es| - 1], Trace(front, KickTaken), Trace(front, ModeRead));
    }
  }

  /** Whenever the sensor waits for its next kick, it has reported in once for each
      kick it took, and made three samples for each overflow it read and one for
      every other mode. */
  lemma KicksBringTheirSamples(es: seq<Event>)
    requires Run(es).sensor.AwaitKick?
    ensures |Run(es).h.made| == Demand(Trace(es, ModeRead))
    ensures |Trace(es, KickTaken)| == |Trace(es, ModeRead)| == Count(Run(es).signals, Beat(SensorTask))
  {
    RoundsHold(es);
  }

  // ---------------------------------------------------------------- the moment of a sample

  /** At event k the sensor makes sample number i of the run, counting from zero. */
  ghost predicate MakesSample(es: seq<Event>, k: nat, i: nat) {
    && k < |es| && es[k].SensorStep?
    && Run(es[..k]).sensor.Make? && |Run(es[..k]).h.made| == i
  }

  /** What a sample shows that was made under this mode. */
  predicate MadeUnder(x: SensorSample, mode: FaultMode) {
    && (x.valid <==> mode != SensorFault)
    && if x.valid then PayloadOfNumber(x.payload, x.sequence) else x.payload == Payload(1550, 420, 420, 420)
  }

  lemma MakeUnder(number: U32, mode: FaultMode, tick: U32)
    ensures MadeUnder(MakeSample(number, mode, tick), mode)
  {
    NominalPayloadOfNumber(number);
  }

  predicate SampleAdded(s: State, n: State, tick: U32) {
    && |n.h.made| == |s.h.made| + 1 && n.h.made[..|s.h.made|] == s.h.made
    && var x := n.h.made[|s.h.made|];
    && x.sequence == (|s.h.made| + 1) % 0x1_0000_0000 && x.tick == tick && MadeUnder(x, s.stats.mode)
  }

  lemma SamplesStep(s: State, e: Event)
    ensures if e.SensorStep? && s.sensor.Make? then SampleAdded(s, Next(s, e), e.tick)
            else Next(s, e).h.made == s.h.made
  {
    if e.SensorStep? {
      MakeUnder(ToU32(|s.h.made| + 1), s.stats.mode, e.tick);
    } else {
      OthersLeaveSensor(s, e);
    }
  }

  /** In every run each sample was made at a moment of its own: it has the next
      number, and is a failed sensor's exactly if the mode of that moment, which is
      the one set last, was a sensor fault. */
  lemma {:induction false} SamplesUnderTheirMode(es: seq<Event>, i: nat) returns (k: nat)
    requires i < |Run(es).h.made|
    ensures MakesSample(es, k, i)
    ensures var x, s := Run(es).h.made[i], Run(es[..k]);
      && x.sequence == (i + 1) % 0x1_0000_0000 && MadeUnder(x, s.stats.mode)
      && s.stats.mode == AskedMode(Trace(es[..k], Accepted))
    decreases |es|
  {
    var n := |es| - 1;
    var front := es[..n];
    SamplesStep(Run(front), es[n]);
    if i < |Run(front).h.made| {
      k := SamplesUnderTheirMode(front, i);
      assert front[..k] == es[..k];
      assert Run(es).h.made[i] == Run(front).h.made[i];
    } else {
      k := n;
      ModeIsAsked(front);
    }
  }

  /** In every run each printed frame shows a sample made at some moment of the run:
      it is valid exactly if the mode was then no sensor fault, its payload is that of
      its number or the sentinel, and its other values follow from the accelerations
      it shows. */
  lemma PrintedFramesUnderTheirMode(es: seq<Event>, j: nat) returns (i: nat, k: nat, mag: nat)
    requires j < |Run(es).printed|
    ensures MakesSample(es, k, i)
    ensures var f, mode := Run(es).printed[j], Run(es[..k]).stats.mode;
      && f.sequence == (i + 1) % 0x1_0000_0000
      && (f.valid <==> mode != SensorFault)
      && (if f.valid then PayloadOfNumber(f.payload, f.sequence) else f.payload == Payload(1550, 420, 420, 420))
      && FiguresOf(f, mag)
  {
    var at := FirmwareLog.LogIsSubsequence(es);
    i := at[j] - 1;
    var x, f := Run(es).h.made[i], Run(es).printed[j];
    assert FirmwareLog.Derives()(x, f);
    k := SamplesUnderTheirMode(es, i);
    FramesAlwaysGood(es);
    assert f in Run(es).printed;
    mag := GoodFrameFigures(f);
  }

  // ---------------------------------------------------------------- stalls

  datatype Judgement = Judgement(mode: FaultMode, number: U32)

  function SampleJudged(s: State, e: Event): seq<Judgement> {
    if e.ProcessorStep? && s.processor.Judge? then [Judgement(s.stats.mode, s.processor.x.sequence)] else []
  }

  /** The number in the line about a forced stall. */
  function StallNoted(s: State, e: Event): seq<U32> {
    if e.ProcessorStep? && s.processor.StallLine? then [s.processor.x.sequence] else []
  }

  function Stalled(judged: seq<Judgement>): seq<U32> {
    if judged == [] then []
    else
      var c := judged[|judged| - 1];
      Stalled(judged[..|judged| - 1]) + if c.mode == Stall && c.number % 6 == 0 then [c.number] else []
  }

  lemma StalledSnoc(judged: seq<Judgement>, c: Judgement)
    ensures Stalled(judged + [c]) == Stalled(judged) + if c.mode == Stall && c.number % 6 == 0 then [c.number] else []
  {
    assert (judged + [c])[..|judged|] == judged;
  }

  predicate Unjudged(pc: ProcessorPc) {
    pc.PCountBeat? || pc.PSetBeat? || pc.CountFault? || pc.Judge?
  }

  function StallDue(pc: ProcessorPc): seq<U32> {
    if pc.StallLine? then [pc.x.sequence] else []
  }

  ghost predicate StallLaw(s: State, judged: seq<Judgement>, noted: seq<U32>) {
    && |judged| + One(Unjudged(s.processor)) == s.h.taken
    && Stalled(judged) == noted + StallDue(s.processor)
  }

  lemma OthersLeaveProcessor(s: State, e: Event)
    requires !e.ProcessorStep?
    ensures Next(s, e).processor == s.processor && Next(s, e).h.taken == s.h.taken
  {
    match e
    case SensorStep(tick) => SensorSignalsOnly(s, tick);
    case LoggerStep => LoggerSignalsOnly(s);
    case WatchdogStep => WatchdogSignalsOnly(s);
    case _ =>
  }

  lemma ProcessorStalls(s: State, tick: U32, judged: seq<Judgement>, noted: seq<U32>)
    requires StallLaw(s, judged, noted)
    ensures var e := ProcessorStep(tick);
      StallLaw(ProcessorNext(s, tick), judged + SampleJudged(s, e), noted + StallNoted(s, e))
  {
    assert judged + [] == judged && noted + [] == noted;
    if s.processor.Judge? {
      StalledSnoc(judged, Judgement(s.stats.mode, s.processor.x.sequence));
    }
  }

  lemma StallStep(s: State, e: Event, judged: seq<Judgement>, noted: seq<U32>)
    requires StallLaw(s, judged, noted)
    ensures StallLaw(Next(s, e), judged + SampleJudged(s, e), noted + StallNoted(s, e))
  {
    assert judged + [] == judged && noted + [] == noted;
    if e.ProcessorStep? {
      ProcessorStalls(s, e.tick, judged, noted);
    } else {
      OthersLeaveProcessor(s, e);
    }
  }

  /** In every run each sample taken is judged once, and the stalls announced are, in
      order, the samples judged under a stall whose number is divisible by six. */
  lemma {:induction false} StallsInjected(es: seq<Event>)
    ensures StallLaw(Run(es), Trace(es, SampleJudged), Trace(es, StallNoted))
    decreases |es|
  {
    if es != [] {
      var front := es[..|es| - 1];
      StallsInjected(front);
      StallStep(Run(front), es[|es| - 1], Trace(front, SampleJudged), Trace(front, StallNoted));
    }
  }

  // ---------------------------------------------------------------- full queues

  /** In every run neither queue holds more than six items; a sample is dropped,
      changing nothing, exactly when six are queued, and otherwise joins the end. */
  lemma SamplesDroppedIffFull(es: seq<Event>, tick: U32)
    requires Run(es).sensor.Send?
    ensures |Run(es).samples| <= 6
    ensures var s, n := Run(es), Run(es + [SensorStep(tick)]);
      if |s.samples| == 6 then n.sensor == Drop(s.sensor.r) && n.samples == s.samples
      else n.sensor == Tally(s.sensor.r) && n.samples == s.samples + [s.sensor.x]
  {
    CountsHold(es);
    assert (es + [SensorStep(tick)])[..|es|] == es;
  }

  lemma FramesDroppedIffFull(es: seq<Event>, tick: U32)
    requires Run(es).processor.SendFrame?
    ensures |Run(es).frames| <= 6
    ensures var s, n := Run(es), Run(es + [ProcessorStep(tick)]);
      if |s.frames| == 6 then n.processor == DropFrame && n.frames == s.frames
      else n.processor == TallyFrame && n.frames == s.frames + [s.processor.f]
  {
    CountsHold(es);
    assert (es + [ProcessorStep(tick)])[..|es|] == es;
  }

  // ---------------------------------------------------------------- resets

  /** The reset accepted at event `a` is under way after the run, or has just ended. */
  ghost predicate Resetting(es: seq<Event>, a: nat) {
    && a < |es| && es[a] == DiagnosticsStep(Reset) && Run(es[..a]).diagnostics.Ready?
    && forall k :: a < k < |es| ==> !Run(es[..k]).diagnostics.Ready?
  }

  function PartsDone(pc: DiagnosticsPc): nat {
    match pc
    case ClearSamples => 1
    case ClearFrames => 2
    case ClearBeats => 3
    case Ready => 4
  }

  /** What each part of a reset brings about. */
  ghost predicate PartDone(part: nat, s: State) {
    match part
    case 0 => s.stats == Stats(0, 0, 0, 0, 0, 0, 0, 0, 0, NoFault)
    case 1 => s.samples == []
    case 2 => s.frames == []
    case _ => Bits(s.signals) == {}
  }

  ghost predicate Trail(es: seq<Event>, a: nat, at: seq<nat>) {
    && |at| == PartsDone(Run(es).diagnostics) && Moments(at, a, |es|)
    && forall i :: 0 <= i < |at| ==> PartDone(i, Run(es[..at[i]]))
  }

  lemma ResetStep(s: State, e: Event)
    requires !s.diagnostics.Ready?
    ensures var before, after := PartsDone(s.diagnostics), PartsDone(Next(s, e).diagnostics);
      after == before || (after == before + 1 && PartDone(before, Next(s, e)))
  {
    match e
    case TimerFires =>
    case SensorStep(tick) => SensorLeaves(s, tick);
    case ProcessorStep(tick) => ProcessorLeaves(s, tick);
    case LoggerStep =>
    case WatchdogStep => WatchdogLeaves(s);
    case DiagnosticsStep(command) =>
      assert (s.signals + [ClearBits])[..|s.signals|] == s.signals;
  }

  lemma TrailGrows(es: seq<Event>, a: nat, at: seq<nat>) returns (more: seq<nat>)
    requires es != [] && a < |es| - 1
    requires Trail(es[..|es| - 1], a, at) && !Run(es[..|es| - 1]).diagnostics.Ready?
    ensures Trail(es, a, more)
  {
    var front := es[..|es| - 1];
    ResetStep(Run(front), es[|es| - 1]);
    more := at;
    if PartsDone(Run(es).diagnostics) != |at| {
      more := at + [|es|];
      MomentJoins(at, a, |front|);
    }
    forall i | 0 <= i < |more|
      ensures PartDone(i, Run(es[..more[i]]))
    {
      if i < |at| {
        assert es[..at[i]] == front[..at[i]];
      } else {
        assert es[..|es|] == es;
      }
    }
  }

  lemma {:induction false} ResetsDoTheirParts(es: seq<Event>, a: nat) returns (at: seq<nat>)
    requires Resetting(es, a)
    ensures Trail(es, a, at)
    decreases |es|
  {
    var front := es[..|es| - 1];
    if a + 1 == |es| {
      assert front == es[..a];
      at := [|es|];
      assert es[..|es|] == es;
    } else {
      assert front[..a] == es[..a];
      forall k | a < k < |front|
        ensures !Run(front[..k]).diagnostics.Ready?
      {
        assert front[..k] == es[..k];
      }
      at := ResetsDoTheirParts(front, a);
      at := TrailGrows(es, a, at);
    }
  }

  /** Between the call of a reset and its return all statistics were zero and the mode
      cleared, then one queue was empty, then the other, then every bit was clear. */
  lemma ResetDoesEverything(es: seq<Event>, a: nat) returns (at: seq<nat>)
    requires Resetting(es, a) && Run(es).diagnostics.Ready?
    ensures |at| == 4 && a < at[0] < at[1] < at[2] < at[3] <= |es|
    ensures Run(es[..at[0]]).stats == Stats(0, 0, 0, 0, 0, 0, 0, 0, 0, NoFault)
    ensures Run(es[..at[1]]).samples == [] && Run(es[..at[2]]).frames == []
    ensures Bits(Run(es[..at[3]]).signals) == {}
  {
    at := ResetsDoTheirParts(es, a);
    assert PartDone(0, Run(es[..at[0]])) && PartDone(1, Run(es[..at[1]]));
    assert PartDone(2, Run(es[..at[2]])) && PartDone(3, Run(es[..at[3]]));
  }

  // ---------------------------------------------------------------- the time of a frame

  /** The frame was computed at event c, and shows the tick of that event. */
  ghost predicate ComputedAt(es: seq<Event>, c: nat, f: TelemetryFrame) {
    && c < |es| && es[c] == ProcessorStep(f.tick)
    && Run(es[..c]).processor.Handle? && Run(es[..c]).processor.x.sequence == f.sequence
  }

  /** The frame is somewhere between the processor and the log. */
  predicate Around(s: State, f: TelemetryFrame) {
    || f in s.printed || f in s.frames
    || (s.processor.SendFrame? && s.processor.f == f)
    || (s.logger.LCountBeat? && s.logger.f == f)
    || (s.logger.LSetBeat? && s.logger.f == f)
    || (s.logger.Print? && s.logger.f == f)
  }

  lemma LoggerBringsNone(s: State, f: TelemetryFrame)
    requires Around(LoggerNext(s), f)
    ensures Around(s, f)
  {
  }

  lemma ProcessorBringsOne(s: State, tick: U32, f: TelemetryFrame)
    requires Around(ProcessorNext(s, tick), f) && !Around(s, f)
    ensures s.processor.Handle? && f.tick == tick && f.sequence == s.processor.x.sequence
  {
  }

  lemma DiagnosticsBringsNone(s: State, command: Command, f: TelemetryFrame)
    requires Around(DiagnosticsNext(s, command), f)
    ensures Around(s, f)
  {
  }

  /** Only the processor brings in a frame, as it computes it. */
  lemma FrameArrives(s: State, e: Event, f: TelemetryFrame)
    requires Around(Next(s, e), f) && !Around(s, f)
    ensures e.ProcessorStep? && s.processor.Handle? && f.tick == e.tick && f.sequence == s.processor.x.sequence
  {
    match e
    case TimerFires =>
    case SensorStep(tick) => SensorLeavesFrames(s, tick);
    case ProcessorStep(tick) => ProcessorBringsOne(s, tick, f);
    case LoggerStep => LoggerBringsNone(s, f);
    case WatchdogStep => WatchdogLeaves(s);
    case DiagnosticsStep(command) => DiagnosticsBringsNone(s, command, f);
  }

  /** In every run each frame, printed or on its way, shows the tick at which it was
      computed from the sample of its number. */
  lemma {:induction false} FramesShowTheirTime(es: seq<Event>, f: TelemetryFrame) returns (c: nat)
    requires Around(Run(es), f)
    ensures ComputedAt(es, c, f)
    decreases |es|
  {
    var n := |es| - 1;
    if es == [] {
      InitiallyUntouched();
      assert false;
    }
    var front := es[..n];
    if Around(Run(front), f) {
      c := FramesShowTheirTime(front, f);
      assert front[..c] == es[..c];
    } else {
      FrameArrives(Run(front), es[n], f);
      c := n;
    }
  }
}
