/** What each sample of a host run is: made at a moment of the run, under the fault
    mode of that moment, with the values its number calls for. */
module HostSamples {
  import opened HostTime
  import opened HostModel
  import opened HostFrames
  import opened HostRounds
  import opened HostCommands

  // ---------------------------------------------------------------- the moment of a sample

  /** At event k the sensor holds the mutex and makes sample number i of the run,
      counting from zero. */
  ghost predicate MakesSample(m: Maths, es: seq<Event>, k: nat, i: nat) {
    && k < |es| && es[k].SensorStep?
    && Run(m, es[..k]).sensor.SMakeHeld? && |Run(m, es[..k]).made.samples| == i
  }

  /** Sample number i was made at event k: with the number the sensor then carried
      and under the fault mode of that moment, which is the one asked for last. */
  ghost predicate MadeAt(m: Maths, es: seq<Event>, k: nat, i: nat) {
    && MakesSample(m, es, k, i) && i < |Run(m, es).made.samples|
    && var x, s := Run(m, es).made.samples[i], Run(m, es[..k]);
    && x.sequence == s.sensor.number && x.timestamp == s.sensor.at && MadeUnder(m, x, s.fault)
    && FaultLaw(s, Trace(m, es[..k], Accepted))
  }

  ghost predicate MadeSometime(m: Maths, es: seq<Event>, i: nat) {
    exists k :: MadeAt(m, es, k, i)
  }

  /** The sample is one of a working sensor, its values those of its number. */
  ghost predicate Working(m: Maths, x: SensorSample) {
    var sixth := x.sequence as real / 6.0;
    && x.faultCode == 0
    && x.temperature - 72.0 == 8.0 * m.sin(sixth)
    && x.ax - 0.3 == 0.2 * m.sin(sixth * 1.3)
    && x.ay + 0.1 == 0.15 * m.sin(sixth * 0.9)
    && x.az - 9.8 == 0.2 * m.sin(sixth * 1.7)
  }

  ghost predicate Failing(x: SensorSample) {
    x.faultCode == 1 && x.temperature == 155.0 && x.ax == 4.2 && x.ay == 4.2 && x.az == 4.2
  }

  /** What the sample shows if it was made under this fault mode. */
  ghost predicate MadeUnder(m: Maths, x: SensorSample, mode: FaultMode) {
    && x.speed - 60.0 == 20.0 * m.sin(x.sequence as real / 6.0 * 0.5)
    && (if mode == SensorFailure then Failing(x) else Working(m, x))
  }

  /** Only the sensor, at that one step, adds a sample, and it makes it under the
      fault mode of the moment with the number it carries. */
  ghost predicate SampleAdded(m: Maths, s: State, n: State)
    requires s.sensor.SMakeHeld?
  {
    && |n.made.samples| == |s.made.samples| + 1 && n.made.samples[..|s.made.samples|] == s.made.samples
    && var x := n.made.samples[|s.made.samples|];
    && x.sequence == s.sensor.number && x.timestamp == s.sensor.at && MadeUnder(m, x, s.fault)
  }

  lemma SensorAdds(m: Maths, s: State, now: Timespec)
    requires s.sensor.SMakeHeld?
    ensures SampleAdded(m, s, SensorWork(m, s, now))
  {
    var x := SensorWork(m, s, now).made.samples[|s.made.samples|];
    assert x == MakeSample(m, s.sensor.number, s.fault, s.sensor.at);
  }

  lemma SensorAddsNothing(m: Maths, s: State, now: Timespec)
    requires !s.sensor.SMakeHeld?
    ensures SensorWork(m, s, now).made.samples == s.made.samples
  {
    SensorTallyFrame(s);
  }

  lemma SamplesStep(m: Maths, s: State, e: Event)
    ensures var n := Next(m, s, e);
      if e.SensorStep? && s.sensor.SMakeHeld? then SampleAdded(m, s, n) else n.made.samples == s.made.samples
  {
    if e.SensorStep? {
      match WantedBy(s, SensorThread)
      case Wants(l) => GrantFrame(s, SensorThread, l);
      case Nothing =>
        if s.sensor.SMakeHeld? {
          SensorAdds(m, s, e.now);
        } else {
          SensorAddsNothing(m, s, e.now);
        }
    } else {
      OthersLeaveSensor(m, s, e);
    }
  }

  /** In every run each sample was made at a moment of its own: it has the number
      the sensor then carried, and is a failed sensor's sample exactly if the fault
      mode of that moment was a sensor failure, otherwise a working sensor's with
      the values of its number. That mode is the one the operator asked for last. */
  lemma {:induction false} SamplesUnderTheirMode(m: Maths, es: seq<Event>, i: nat) returns (k: nat)
    requires i < |Run(m, es).made.samples|
    ensures MadeAt(m, es, k, i)
    decreases |es|
  {
    var n := |es| - 1;
    var front := es[..n];
    SamplesStep(m, Run(m, front), es[n]);
    if i < |Run(m, front).made.samples| {
      k := SamplesUnderTheirMode(m, front, i);
      assert front[..k] == es[..k];
      assert Run(m, es).made.samples[i] == Run(m, front).made.samples[i];
    } else {
      k := n;
      FaultIsAsked(m, front);
    }
  }
}
