/** What the lm3s tasks do in a run, told from the run alone: when and under which
    fault each sample is built and each frame computed, and what a printed frame
    shows of it. */
module Lm3sRounds {
  import opened CTypes
  import opened Lm3sData
  import opened Lm3sTasks
  import opened Subsequences
  import opened Heartbeat
  import Lm3sFlow

  /** Everything the steps of a run show under a mark, in order. */
  ghost function Trace<T>(es: seq<Event>, mark: (State, Event) -> seq<T>): seq<T> {
    if es == [] then []
    else
      var front := es[..|es| - 1];
      Trace(front, mark) + mark(Run(front), es[|es| - 1])
  }

  // ---------------------------------------------------------------- the fault

  /** The fault set last. */
  function FaultSet(es: seq<Event>): Fault {
    if es == [] then NoFault
    else if es[|es| - 1].SetFault? then es[|es| - 1].fault
    else FaultSet(es[..|es| - 1])
  }

  lemma TasksKeepFault(s: State, e: Event)
    requires !e.SetFault?
    ensures Next(s, e).fault == s.fault
  {
  }

  lemma {:induction false} FaultIsSet(es: seq<Event>)
    ensures Run(es).fault == FaultSet(es)
    decreases |es|
  {
    if es != [] {
      var front := es[..|es| - 1];
      FaultIsSet(front);
      if !es[|es| - 1].SetFault? {
        TasksKeepFault(Run(front), es[|es| - 1]);
      }
    }
  }

  // ---------------------------------------------------------------- the moment of a sample

  /** A sample is built, under this fault. */
  function Built(s: State, e: Event): seq<Fault> {
    if e.SensorStep? && s.sensor.Build? then [s.fault] else []
  }

  /** A sample is offered to the queue. */
  function Offered(s: State, e: Event): seq<SensorData> {
    if e.SensorStep? && s.sensor.Send? then [s.sensor.data] else []
  }

  /** How many of the samples built drew on the generator. */
  function Drawing(built: seq<Fault>): nat {
    if built == [] then 0
    else Drawing(built[..|built| - 1]) + One(built[|built| - 1] != SensorFailure)
  }

  lemma DrawingSnoc(built: seq<Fault>, fault: Fault)
    ensures Drawing(built + [fault]) == Drawing(built) + One(fault != SensorFailure)
  {
    assert (built + [fault])[..|built|] == built;
  }

  lemma {:induction false} IterateTwice(j: nat, k: nat, x: U32)
    ensures Lcg.Iterate(j, Lcg.Iterate(k, x)) == Lcg.Iterate(j + k, x)
    decreases j
  {
    if j > 0 {
      IterateTwice(j - 1, k, x);
    }
  }

  /** The generator has taken three steps from its seed for each sample built without
      a sensor failure; every sample built is offered once. */
  ghost predicate BuildLaw(s: State, built: seq<Fault>, offered: seq<SensorData>) {
    && s.rng == Lcg.Iterate(3 * Drawing(built), 0xDEADBEEF)
    && |built| == |offered| + One(s.sensor.Send?)
  }

  lemma OthersLeaveSensor(s: State, e: Event)
    requires !e.SensorStep?
    ensures var n := Next(s, e);
      n.sensor == s.sensor && n.rng == s.rng && n.accepted == s.accepted && n.drops == s.drops
  {
  }

  lemma SensorBuilds(s: State, now: U32, built: seq<Fault>, offered: seq<SensorData>)
    requires BuildLaw(s, built, offered)
    ensures var e := SensorStep(now);
      BuildLaw(SensorNext(s, now), built + Built(s, e), offered + Offered(s, e))
  {
    assert built + [] == built && offered + [] == offered;
    if s.sensor.Build? {
      DrawingSnoc(built, s.fault);
      if s.fault != SensorFailure {
        IterateTwice(3, 3 * Drawing(built), 0xDEADBEEF);
      }
    }
  }

  lemma BuildStep(s: State, e: Event, built: seq<Fault>, offered: seq<SensorData>)
    requires BuildLaw(s, built, offered)
    ensures BuildLaw(Next(s, e), built + Built(s, e), offered + Offered(s, e))
  {
    assert built + [] == built && offered + [] == offered;
    if e.SensorStep? {
      SensorBuilds(s, e.now, built, offered);
    } else {
      OthersLeaveSensor(s, e);
    }
  }

  /** In every run. */
  lemma {:induction false} BuildsHold(es: seq<Event>)
    ensures BuildLaw(Run(es), Trace(es, Built), Trace(es, Offered))
    decreases |es|
  {
    if es != [] {
      var front := es[..|es| - 1];
      BuildsHold(front);
      BuildStep(Run(front), es[|es| - 1], Trace(front, Built), Trace(front, Offered));
    }
  }

  /** At event k the sensor task builds sample number i of the run, counting from
      zero. */
  ghost predicate BuildsSample(es: seq<Event>, k: nat, i: nat) {
    k < |es| && es[k].SensorStep? && Run(es[..k]).sensor.Build? && |Trace(es[..k], Built)| == i
  }

  /** What a sample shows that was built at this time, under this fault, with the
      generator in this state. */
  predicate BuiltUnder(d: SensorData, fault: Fault, now: U32, rng: U32) {
    && d.timestamp == now
    && if fault == SensorFailure then d.temperature == 1550 && d.ax == 420 && d.ay == 420 && d.az == 420
       else
         var first := Lcg.Generated(rng);
         var second := Lcg.Generated(first);
         var third := Lcg.Generated(second);
         && d.temperature == (if Phase(now) < 32 then 200 + 19 * Phase(now) else 800 - 19 * (Phase(now) - 32))
         && Spread(d.ax, first % 0x1_0000, -100, 200)
         && Spread(d.ay, second % 0x1_0000, -100, 200)
         && Spread(d.az, third % 0x1_0000, 960, 40)
  }

  lemma SampleUnder(fault: Fault, now: U32, rng: U32)
    ensures BuiltUnder(Sample(fault, now, rng), fault, now, rng)
  {
    if fault != SensorFailure {
      SampleTemperature(fault, now, rng);
      NoiseSpread(fault, now, rng);
      SampleRange(fault, now, rng);
    }
  }

  /** The sample was built at event k: with the clock reading of that event, the
      fault set last before it, and the generator as the samples before have left
      it. */
  ghost predicate BuiltAt(es: seq<Event>, k: nat, i: nat, d: SensorData) {
    && BuildsSample(es, k, i)
    && BuiltUnder(d, FaultSet(es[..k]), es[k].now,
                  Lcg.Iterate(3 * Drawing(Trace(es[..k], Built)), 0xDEADBEEF))
  }

  lemma BuiltAtExtends(es: seq<Event>, e: Event, k: nat, i: nat, d: SensorData)
    requires BuiltAt(es, k, i, d)
    ensures BuiltAt(es + [e], k, i, d)
  {
    assert (es + [e])[..k] == es[..k];
  }

  /** The sample the sensor task carries to the queue is the one it built last. */
  lemma {:induction false} CarriedWasBuilt(es: seq<Event>) returns (k: nat)
    requires Run(es).sensor.Send?
    ensures BuiltAt(es, k, |Trace(es, Offered)|, Run(es).sensor.data)
    decreases |es|
  {
    var n := |es| - 1;
    var front, e := es[..n], es[n];
    var s := Run(front);
    assert es == front + [e];
    BuildsHold(front);
    if e.SensorStep? {
      assert s.sensor.Build?;
      k := n;
      FaultIsSet(front);
      SampleUnder(s.fault, e.now, s.rng);
      assert Trace(es, Offered) == Trace(front, Offered);
    } else {
      OthersLeaveSensor(s, e);
      k := CarriedWasBuilt(front);
      BuiltAtExtends(front, e, k, |Trace(front, Offered)|, s.sensor.data);
      assert Trace(es, Offered) == Trace(front, Offered);
    }
  }

  /** In every run each sample offered to the queue was built at a moment of its own,
      in the order they are offered. */
  lemma {:induction false} OfferedWasBuilt(es: seq<Event>, i: nat) returns (k: nat)
    requires i < |Trace(es, Offered)|
    ensures BuiltAt(es, k, i, Trace(es, Offered)[i])
    decreases |es|
  {
    var n := |es| - 1;
    var front, e := es[..n], es[n];
    assert es == front + [e];
    if i < |Trace(front, Offered)| {
      k := OfferedWasBuilt(front, i);
      BuiltAtExtends(front, e, k, i, Trace(front, Offered)[i]);
    } else {
      k := CarriedWasBuilt(front);
      BuiltAtExtends(front, e, k, i, Run(front).sensor.data);
    }
  }

  // ---------------------------------------------------------------- what the queue accepts

  function SameSample(): (SensorData, SensorData) -> bool {
    (c: SensorData, d: SensorData) => c == d
  }

  /** The samples accepted are those offered, less the drops, in order. */
  ghost predicate AcceptLaw(s: State, offered: seq<SensorData>) {
    && Subsequence(offered, s.accepted, SameSample())
    && |offered| == |s.accepted| + s.drops
  }

  lemma SensorOffers(s: State, now: U32, offered: seq<SensorData>)
    requires AcceptLaw(s, offered)
    ensures AcceptLaw(SensorNext(s, now), offered + Offered(s, SensorStep(now)))
  {
    assert offered + [] == offered;
    if s.sensor.Send? {
      var d := s.sensor.data;
      Append(offered, s.accepted, SameSample(), d, d);
      assert s.accepted + [d] + [] == s.accepted + [d];
      Lose(offered + [d], s.accepted, [d], [], SameSample());
      assert s.accepted + [] == s.accepted;
    }
  }

  lemma {:induction false} AcceptedWereOffered(es: seq<Event>)
    ensures AcceptLaw(Run(es), Trace(es, Offered))
    decreases |es|
  {
    if es == [] {
      NoItems([], SameSample());
    } else {
      var front, e := es[..|es| - 1], es[|es| - 1];
      var s, offered := Run(front), Trace(front, Offered);
      AcceptedWereOffered(front);
      assert offered + [] == offered;
      if e.SensorStep? {
        SensorOffers(s, e.now, offered);
      } else {
        OthersLeaveSensor(s, e);
      }
    }
  }

  /** In every run a sample is dropped, changing nothing, exactly when ten are queued,
      and otherwise joins the end of the queue. */
  lemma SamplesDroppedIffFull(es: seq<Event>, now: U32)
    requires Run(es).sensor.Send?
    ensures |Run(es).samples| <= 10
    ensures var s, n := Run(es), Run(es + [SensorStep(now)]);
      if |s.samples| == 10 then n.drops == s.drops + 1 && n.samples == s.samples
      else n.drops == s.drops && n.samples == s.samples + [s.sensor.data]
  {
    HandshakeHolds(es);
    assert (es + [SensorStep(now)])[..|es|] == es;
  }

  lemma FramesStep(s: State, e: Event)
    requires |s.frames| <= 10
    ensures |Next(s, e).frames| <= 10
  {
    match e
    case SensorStep(now) => SensorLeavesOutput(s, now);
    case _ =>
  }

  lemma SensorLeavesOutput(s: State, now: U32)
    ensures var n := SensorNext(s, now);
      n.frames == s.frames && n.processor == s.processor && n.output == s.output
  {
  }

  lemma {:induction false} AtMostTenFrames(es: seq<Event>)
    ensures |Run(es).frames| <= 10
    decreases |es|
  {
    if es != [] {
      AtMostTenFrames(es[..|es| - 1]);
      FramesStep(Run(es[..|es| - 1]), es[|es| - 1]);
    }
  }

  /** The same of frames, which are dropped without being counted. */
  lemma FramesDroppedIffFull(es: seq<Event>)
    requires Run(es).processor.SendFrame?
    ensures |Run(es).frames| <= 10
    ensures var s, n := Run(es), Run(es + [ProcessorStep]);
      && n.processor.ProcessorBeat?
      && n.frames == if |s.frames| == 10 then s.frames else s.frames + [s.processor.frame]
  {
    AtMostTenFrames(es);
    assert (es + [ProcessorStep])[..|es|] == es;
  }

  // ---------------------------------------------------------------- the sensor's rounds

  function KickTaken(s: State, e: Event): seq<bool> {
    if e.SensorStep? && s.sensor.AwaitKick? && s.kick then [true] else []
  }

  /** Each kick taken brings one sample, and each sample one report. */
  ghost predicate RoundsLaw(s: State, kicks: seq<bool>, built: seq<Fault>) {
    && |kicks| == |built| + One(s.sensor.Build?)
    && |built| == Count(s.signals, Beat(SensorTask)) + One(s.sensor.Send? || s.sensor.Give? || s.sensor.SensorBeat?)
  }

  lemma SensorRounds(s: State, now: U32, kicks: seq<bool>, built: seq<Fault>)
    requires RoundsLaw(s, kicks, built)
    ensures var e := SensorStep(now);
      RoundsLaw(SensorNext(s, now), kicks + KickTaken(s, e), built + Built(s, e))
  {
    assert kicks + [] == kicks && built + [] == built;
    CountSnoc(s.signals, Beat(SensorTask));
  }

  lemma ProcessorReports(s: State)
    ensures ProcessorNext(s).sensor == s.sensor
    ensures Count(ProcessorNext(s).signals, Beat(SensorTask)) == Count(s.signals, Beat(SensorTask))
  {
    CountSnoc(s.signals, Beat(ProcessorTask));
  }

  lemma OutputReports(s: State)
    ensures OutputNext(s).sensor == s.sensor
    ensures Count(OutputNext(s).signals, Beat(SensorTask)) == Count(s.signals, Beat(SensorTask))
  {
    CountSnoc(s.signals, Beat(OutputTask));
  }

  lemma OthersReport(s: State, e: Event)
    requires !e.SensorStep?
    ensures Next(s, e).sensor == s.sensor
    ensures Count(Next(s, e).signals, Beat(SensorTask)) == Count(s.signals, Beat(SensorTask))
  {
    match e
    case ProcessorStep => ProcessorReports(s);
    case OutputStep => OutputReports(s);
    case MonitorStep => CountSnoc(s.signals, WaitEnds);
    case _ =>
  }

  /** In every run. */
  lemma {:induction false} RoundsHold(es: seq<Event>)
    ensures RoundsLaw(Run(es), Trace(es, KickTaken), Trace(es, Built))
    decreases |es|
  {
    if es != [] {
      var front, e := es[..|es| - 1], es[|es| - 1];
      var s, kicks, built := Run(front), Trace(front, KickTaken), Trace(front, Built);
      RoundsHold(front);
      assert kicks + [] == kicks && built + [] == built;
      if e.SensorStep? {
        SensorRounds(s, e.now, kicks, built);
      } else {
        OthersReport(s, e);
      }
    }
  }

  // ---------------------------------------------------------------- the moment of a frame

  /** At event k the processing task computes frame number i of the run. */
  ghost predicate ComputesFrame(es: seq<Event>, k: nat, i: nat) {
    k < |es| && es[k].ProcessorStep? && Run(es[..k]).processor.Compute? && |Run(es[..k]).computed| == i
  }

  /** The frame shows its sample, valid up to 75.0 degrees while no sensor failure is
      set, and with the engine speed and throttle of this magnitude. */
  predicate ComputedUnder(f: TelemetryData, d: SensorData, fault: Fault, mag: nat) {
    && f.sensor == d && MagnitudeOf(d, mag) && FiguresOf(f, mag)
    && (f.valid <==> d.temperature <= 750 && fault != SensorFailure)
  }

  lemma ComputedStays(s: State, e: Event)
    ensures var n := Next(s, e);
      if e.ProcessorStep? && s.processor.Compute? then
        && n.processed == s.processed + [s.processor.data]
        && n.computed == s.computed + [Frame(s.processor.data, SpeedAfter(s.speed, s.processor.data), s.fault)]
      else n.processed == s.processed && n.computed == s.computed
  {
    match e
    case SensorStep(now) => SensorLeaves(s, now);
    case _ =>
  }

  /** In every run each frame was computed at a moment of its own, from the sample of
      its place and under the fault set last before. */
  lemma {:induction false} FramesUnderTheirFault(es: seq<Event>, i: nat) returns (k: nat, mag: nat)
    requires i < |Run(es).computed|
    ensures i < |Run(es).processed|
    ensures ComputesFrame(es, k, i)
    ensures ComputedUnder(Run(es).computed[i], Run(es).processed[i], FaultSet(es[..k]), mag)
    decreases |es|
  {
    var n := |es| - 1;
    var front, e := es[..n], es[n];
    var s := Run(front);
    ComputedStays(s, e);
    Lm3sFlow.FlowHolds(front);
    if i < |s.computed| {
      k, mag := FramesUnderTheirFault(front, i);
      assert front[..k] == es[..k];
    } else {
      k := n;
      FaultIsSet(front);
      DataStaysInRange(front);
      SpeedRunBounded(0, s.processed);
      mag := FrameFigures(s.processor.data, SpeedAfter(s.speed, s.processor.data), s.fault);
    }
  }

  lemma SpeedAtPlace(processed: seq<SensorData>, f: TelemetryData, i: nat)
    requires Lm3sFlow.ComputedFrom(processed, i, f)
    ensures f.speed == SpeedRun(0, processed[..i + 1])
    ensures SpeedRun(0, processed[..i + 1]) == SpeedAfter(SpeedRun(0, processed[..i]), processed[i])
  {
    SpeedRunBounded(0, processed[..i + 1]);
    SmallFits(SpeedRun(0, processed[..i + 1]));
    SpeedRunSplit(0, processed[..i], [processed[i]]);
    assert processed[..i] + [processed[i]] == processed[..i + 1];
    var before := SpeedRun(0, processed[..i]);
    assert SpeedRun(before, [processed[i]]) == SpeedAfter(before, processed[i]);
  }

  /** In every run the speed of each frame computed is that of the frame before, or
      zero for the first, changed by a tenth of what the magnitude of its own sample
      exceeds 980 by, and kept between 0 and 2000. */
  lemma SpeedsFollow(es: seq<Event>, i: nat) returns (mag: nat, delta: int)
    requires i < |Run(es).computed|
    ensures i < |Run(es).processed|
    ensures MagnitudeOf(Run(es).processed[i], mag) && TenthOf(delta, mag - 980)
    ensures var frames := Run(es).computed;
      var moved := (if i == 0 then 0 else frames[i - 1].speed) + delta;
      frames[i].speed == if moved < 0 then 0 else if moved > 2000 then 2000 else moved
  {
    Lm3sFlow.FlowHolds(es);
    var s := Run(es);
    SpeedAtPlace(s.processed, s.computed[i], i);
    if i > 0 {
      assert Lm3sFlow.ComputedFrom(s.processed, i - 1, s.computed[i - 1]);
      SpeedAtPlace(s.processed, s.computed[i - 1], i - 1);
    }
    mag, delta := SpeedFigures(SpeedRun(0, s.processed[..i]), s.processed[i]);
  }

  // ---------------------------------------------------------------- what is printed

  /** In every run each printed frame shows a sample built at some moment of the run,
      with the readings of that moment's clock, fault and generator, computed at a
      later one and valid by that one's fault. */
  lemma PrintedFramesTellTheRun(es: seq<Event>, j: nat) returns (i: nat, k: nat, c: nat, mag: nat)
    requires j < |Run(es).printed|
    ensures BuiltAt(es, k, i, Run(es).printed[j].sensor)
    ensures c < |es| && es[c].ProcessorStep? && Run(es[..c]).processor.Compute?
    ensures ComputedUnder(Run(es).printed[j], Run(es).printed[j].sensor, FaultSet(es[..c]), mag)
  {
    var p := PrintedWasComputed(es, j);
    c, mag := FramesUnderTheirFault(es, p);
    i := ProcessedWasOffered(es, p);
    k := OfferedWasBuilt(es, i);
  }

  lemma PrintedWasComputed(es: seq<Event>, j: nat) returns (p: nat)
    requires j < |Run(es).printed|
    ensures p < |Run(es).computed| && Run(es).computed[p] == Run(es).printed[j]
  {
    Lm3sFlow.FlowHolds(es);
    p := PrintedAmongComputed(Run(es), j);
  }

  lemma PrintedAmongComputed(s: State, j: nat) returns (p: nat)
    requires j < |s.printed| && s.sent == s.printed + Lm3sFlow.InOutput(s.output) + s.frames
    requires Lm3sFlow.SomeOf(s.computed, s.sent + Lm3sFlow.Sending(s.processor))
    ensures p < |s.computed| && s.computed[p] == s.printed[j]
  {
    var rest := Lm3sFlow.InOutput(s.output) + s.frames + Lm3sFlow.Sending(s.processor);
    assert s.sent + Lm3sFlow.Sending(s.processor) == s.printed + rest;
    var at := Start(s.computed, s.printed, rest, Lm3sFlow.Same());
    p := at[j] - 1;
    assert Lm3sFlow.Same()(s.computed[p], s.printed[j]);
  }

  lemma ProcessedWasOffered(es: seq<Event>, p: nat) returns (i: nat)
    requires p < |Run(es).processed|
    ensures i < |Trace(es, Offered)| && Trace(es, Offered)[i] == Run(es).processed[p]
  {
    Lm3sFlow.FlowHolds(es);
    AcceptedWereOffered(es);
    var s, offered := Run(es), Trace(es, Offered);
    assert s.accepted[p] == s.processed[p];
    var at: seq<nat> :| Places(offered, s.accepted, SameSample(), at);
    i := at[p] - 1;
    assert SameSample()(offered[i], s.accepted[p]);
  }
}
