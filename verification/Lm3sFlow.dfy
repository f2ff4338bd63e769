/** What flows through the lm3s build: nothing is reordered or made up, and the
    speed printed accounts for every sample processed before. */
module Lm3sFlow {
  import opened CTypes
  import opened Lm3sData
  import opened Lm3sTasks
  import opened Ordered
  import opened Subsequences

  function InProcessor(pc: ProcessorPc): seq<SensorData> {
    if pc.Compute? then [pc.data] else []
  }

  function InOutput(pc: OutputPc): seq<TelemetryData> {
    if pc.Print? then [pc.frame] else []
  }

  /** The samples accepted by the queue are those processed, under way and
      waiting; the frames likewise. */
  ghost predicate InLine(s: State) {
    && s.accepted == s.processed + InProcessor(s.processor) + s.samples
    && s.sent == s.printed + InOutput(s.output) + s.frames
  }

  lemma InLineStep(s: State, e: Event)
    requires InLine(s)
    ensures InLine(Next(s, e))
  {
    match e
    case SensorStep(now) => SensorInLine(s, now);
    case ProcessorStep => ProcessorInLine(s);
    case OutputStep => OutputInLine(s);
    case _ =>
  }

  lemma SensorInLine(s: State, now: U32)
    requires InLine(s)
    ensures InLine(SensorNext(s, now))
  {
    match s.sensor
    case Send(data) =>
      assert s.processed + InProcessor(s.processor) + (s.samples + [data]) == s.accepted + [data];
    case _ =>
  }

  lemma ProcessorInLine(s: State)
    requires InLine(s)
    ensures InLine(ProcessorNext(s))
  {
    match s.processor
    case Receive =>
      if s.samples != [] {
        assert s.processed + [s.samples[0]] + s.samples[1..] == s.processed + [] + s.samples;
      }
    case SendFrame(frame) =>
      assert s.printed + InOutput(s.output) + (s.frames + [frame]) == s.sent + [frame];
    case _ =>
  }

  lemma OutputInLine(s: State)
    requires InLine(s)
    ensures InLine(OutputNext(s))
  {
    match s.output
    case AwaitFrame =>
      if s.frames != [] {
        assert s.printed + [s.frames[0]] + s.frames[1..] == s.printed + [] + s.frames;
      }
    case _ =>
  }

  ghost predicate FrameFor(f: TelemetryData, d: SensorData, speed: int) {
    exists fault :: f == Frame(d, speed, fault)
  }

  /** The frame computed from the sample at k of those processed, its speed the
      result of all samples up to that one. */
  ghost predicate ComputedFrom(processed: seq<SensorData>, k: nat, f: TelemetryData) {
    k < |processed| && FrameFor(f, processed[k], SpeedRun(0, processed[..k + 1]))
  }

  ghost predicate AllComputed(processed: seq<SensorData>, computed: seq<TelemetryData>) {
    && |computed| == |processed|
    && forall k :: 0 <= k < |computed| ==> ComputedFrom(processed, k, computed[k])
  }

  function Same(): (TelemetryData, TelemetryData) -> bool {
    (f: TelemetryData, g: TelemetryData) => f == g
  }

  /** These are some of the frames computed, in order. */
  ghost predicate SomeOf(computed: seq<TelemetryData>, fs: seq<TelemetryData>) {
    Subsequence(computed, fs, Same())
  }

  function Sending(pc: ProcessorPc): seq<TelemetryData> {
    if pc.SendFrame? then [pc.frame] else []
  }

  ghost predicate Frames(s: State) {
    && AllComputed(s.processed, s.computed)
    && s.speed == SpeedRun(0, s.processed)
    && SomeOf(s.computed, s.sent + Sending(s.processor))
  }

  lemma OneMoreComputed(processed: seq<SensorData>, computed: seq<TelemetryData>, data: SensorData, fault: Fault)
    requires AllComputed(processed, computed)
    ensures var speed := SpeedAfter(SpeedRun(0, processed), data);
      && SpeedRun(0, processed + [data]) == speed
      && AllComputed(processed + [data], computed + [Frame(data, speed, fault)])
  {
    var speed := SpeedAfter(SpeedRun(0, processed), data);
    var after, frames := processed + [data], computed + [Frame(data, speed, fault)];
    SpeedRunSplit(0, processed, [data]);
    assert SpeedRun(SpeedRun(0, processed), [data]) == speed;
    forall k | 0 <= k < |frames|
      ensures ComputedFrom(after, k, frames[k])
    {
      if k < |computed| {
        assert ComputedFrom(processed, k, computed[k]);
        assert after[..k + 1] == processed[..k + 1];
      } else {
        assert after[..k + 1] == after;
        assert FrameFor(frames[k], data, speed);
      }
    }
  }

  lemma ProcessorFrames(s: State)
    requires Frames(s)
    ensures Frames(ProcessorNext(s))
  {
    var n := ProcessorNext(s);
    match s.processor
    case Compute(data) =>
      OneMoreComputed(s.processed, s.computed, data, s.fault);
      var f := Frame(data, SpeedAfter(s.speed, data), s.fault);
      assert s.sent + [] == s.sent;
      Append(s.computed, s.sent, Same(), f, f);
    case SendFrame(f) =>
      if |s.frames| < QUEUE_LENGTH {
        assert n.sent + [] == s.sent + [f];
      } else {
        assert s.sent + [f] + [] == s.sent + [f];
        Lose(s.computed, s.sent, [f], [], Same());
        assert n.sent + [] == s.sent;
      }
    case _ =>
      assert Sending(n.processor) == [];
  }

  lemma SensorKeepsFrames(s: State, now: U32)
    requires Frames(s)
    ensures Frames(SensorNext(s, now))
  {
    SensorLeavesFrames(s, now);
  }

  lemma SensorLeavesFrames(s: State, now: U32)
    ensures var n := SensorNext(s, now);
      && n.processor == s.processor && n.processed == s.processed && n.computed == s.computed
      && n.sent == s.sent && n.speed == s.speed
  {
  }

  lemma FramesStep(s: State, e: Event)
    requires Frames(s)
    ensures Frames(Next(s, e))
  {
    match e
    case SensorStep(now) => SensorKeepsFrames(s, now);
    case ProcessorStep => ProcessorFrames(s);
    case _ =>
  }

  lemma FlowInitially()
    ensures InLine(INITIAL) && Frames(INITIAL)
  {
    assert INITIAL.sent + Sending(INITIAL.processor) == [];
    NoItems(INITIAL.computed, Same());
  }

  /** Accepted samples stay in line and printed frames among those computed. */
  lemma {:induction false} FlowHolds(es: seq<Event>)
    ensures InLine(Run(es)) && Frames(Run(es))
    decreases |es|
  {
    if es == [] {
      FlowInitially();
    } else {
      FlowHolds(es[..|es| - 1]);
      InLineStep(Run(es[..|es| - 1]), es[|es| - 1]);
      FramesStep(Run(es[..|es| - 1]), es[|es| - 1]);
    }
  }

  /** In every run the frames printed are, in order, frames computed from the
      samples processed, which are the first of those the queue accepted; frames
      may be missing, but the speed each shows accounts for every sample before. */
  lemma PrintedFrames(es: seq<Event>) returns (at: seq<nat>)
    ensures var s := Run(es);
      && s.processed <= s.accepted
      && |at| == |s.printed| && Increasing(at)
      && forall i :: 0 <= i < |at| ==> at[i] >= 1 && ComputedFrom(s.processed, at[i] - 1, s.printed[i])
  {
    FlowHolds(es);
    at := PlacesOfPrinted(Run(es));
  }

  lemma PlacesOfPrinted(s: State) returns (at: seq<nat>)
    requires InLine(s) && Frames(s)
    ensures s.processed <= s.accepted
    ensures |at| == |s.printed| && Increasing(at)
    ensures forall i :: 0 <= i < |at| ==> at[i] >= 1 && ComputedFrom(s.processed, at[i] - 1, s.printed[i])
  {
    var rest := InOutput(s.output) + s.frames + Sending(s.processor);
    assert s.sent + Sending(s.processor) == s.printed + rest;
    at := Start(s.computed, s.printed, rest, Same());
    forall i | 0 <= i < |at|
      ensures at[i] >= 1 && ComputedFrom(s.processed, at[i] - 1, s.printed[i])
    {
      assert Same()(s.computed[at[i] - 1], s.printed[i]);
    }
  }
}
