/** The values the host simulator generates and computes, over exact arithmetic. */
module HostValues {
  import opened HostTime
  import opened HostModel
  import opened HostSamples
  import HostLog

  ghost predicate IsSine(sin: real -> real) {
    forall x :: -1.0 <= sin(x) <= 1.0
  }

  ghost predicate IsRoot(sqrt: real -> real) {
    forall x :: x >= 0.0 ==> sqrt(x) >= 0.0 && sqrt(x) * sqrt(x) == x
  }

  predicate NominalSample(s: SensorSample) {
    && 64.0 <= s.temperature <= 80.0
    && 0.1 <= s.ax <= 0.5 && -0.25 <= s.ay <= 0.05 && 9.6 <= s.az <= 10.0
    && 40.0 <= s.speed <= 80.0 && s.faultCode == 0
  }

  predicate FailedSample(s: SensorSample) {
    && s.temperature == 155.0 && s.ax == 4.2 && s.ay == 4.2 && s.az == 4.2
    && 40.0 <= s.speed <= 80.0 && s.faultCode == 1
  }

  /** A sample is in range, or the sentinel of a sensor failure. */
  lemma SampleValues(m: Maths, number: nat, mode: FaultMode, at: Timespec)
    requires IsSine(m.sin)
    ensures var s := MakeSample(m, number, mode, at);
      if mode == SensorFailure then FailedSample(s) else NominalSample(s)
  {
    var phase := number as real / 6.0;
    assert -1.0 <= m.sin(phase) <= 1.0;
    assert -1.0 <= m.sin(phase * 1.3) <= 1.0;
    assert -1.0 <= m.sin(phase * 0.9) <= 1.0;
    assert -1.0 <= m.sin(phase * 1.7) <= 1.0;
    assert -1.0 <= m.sin(phase * 0.5) <= 1.0;
  }

  lemma Product(a: real, b: real)
    ensures a > 0.0 && b > 0.0 ==> a * b > 0.0
    ensures a >= 0.0 && b >= 0.0 ==> a * b >= 0.0
  {
  }

  lemma SquareBounds(x: real, lo: real, hi: real)
    requires 0.0 <= lo <= x <= hi
    ensures lo * lo <= x * x <= hi * hi
  {
    Product(x - lo, x + lo);
    assert (x - lo) * (x + lo) == x * x - lo * lo;
    Product(hi - x, hi + x);
    assert (hi - x) * (hi + x) == hi * hi - x * x;
  }

  lemma LargerSquare(a: real, b: real)
    requires 0.0 <= a < b
    ensures a * a < b * b
  {
    Product(b - a, b + a);
    assert (b - a) * (b + a) == b * b - a * a;
  }

  lemma RootBounds(r: real, lo: real, hi: real)
    requires 0.0 <= lo <= hi && 0.0 <= r
    requires lo * lo <= r * r <= hi * hi
    ensures lo <= r <= hi
  {
    if r < lo {
      LargerSquare(r, lo);
    } else if r > hi {
      LargerSquare(hi, r);
    }
  }

  lemma MagnitudeValues(s: SensorSample, mag: real)
    requires mag >= 0.0 && mag * mag == s.ax * s.ax + s.ay * s.ay + s.az * s.az
    ensures NominalSample(s) ==> 9.6 <= mag <= 10.02
    ensures FailedSample(s) ==> 7.27 <= mag <= 7.28
  {
    if NominalSample(s) {
      NominalMagnitude(s.ax, if s.ay < 0.0 then -s.ay else s.ay, s.az, mag);
    } else if FailedSample(s) {
      SquareBounds(s.ax, 4.2, 4.2);
      SquareBounds(s.ay, 4.2, 4.2);
      SquareBounds(s.az, 4.2, 4.2);
      RootBounds(mag, 7.27, 7.28);
    }
  }

  lemma NominalMagnitude(x: real, y: real, z: real, mag: real)
    requires 0.1 <= x <= 0.5 && 0.0 <= y <= 0.25 && 9.6 <= z <= 10.0
    requires mag >= 0.0 && mag * mag == x * x + y * y + z * z
    ensures 9.6 <= mag <= 10.02
  {
    SquareBounds(x, 0.1, 0.5);
    SquareBounds(y, 0.0, 0.25);
    SquareBounds(z, 9.6, 10.0);
    var square := mag * mag;
    assert square <= 0.5 * 0.5 + 0.25 * 0.25 + 10.0 * 10.0;
    assert 0.5 * 0.5 + 0.25 * 0.25 + 10.0 * 10.0 <= 10.02 * 10.02;
    RootBounds(mag, 9.6, 10.02);
  }

  /** The engine speed follows the sample; the throttle's upper clamp fires for
      every sample the simulator makes, so every frame shows 100 percent. */
  lemma FrameValues(m: Maths, s: SensorSample, at: Timespec)
    requires IsRoot(m.sqrt) && (NominalSample(s) || FailedSample(s))
    ensures var f := ProcessSample(m, s, at);
      && f.throttle == 100.0
      && (NominalSample(s) ==> 3020.0 <= f.rpm <= 3352.5)
      && (FailedSample(s) ==> 4321.0 <= f.rpm <= 4322.5)
      && f.sequence == s.sequence && f.temperature == s.temperature && f.faultCode == s.faultCode
      && f.ax == s.ax && f.ay == s.ay && f.az == s.az && f.speed == s.speed
  {
    SquareNonNegative(s.ax);
    SquareNonNegative(s.ay);
    SquareNonNegative(s.az);
    var square := SquaredMagnitude(s);
    assert square >= 0.0;
    var mag := m.sqrt(square);
    MagnitudeValues(s, mag);
    FrameFromValues(s, mag, at);
  }

  lemma FrameFromValues(s: SensorSample, mag: real, at: Timespec)
    requires (NominalSample(s) && 9.6 <= mag <= 10.02) || (FailedSample(s) && 7.27 <= mag <= 7.28)
    ensures var f := FrameFrom(s, mag, at);
      && f.throttle == 100.0
      && (NominalSample(s) ==> 3020.0 <= f.rpm <= 3352.5)
      && (FailedSample(s) ==> 4321.0 <= f.rpm <= 4322.5)
  {
  }

  /** What a frame of the log shows, its sample made under this fault mode. */
  predicate ShownValues(f: TelemetryFrame, mode: FaultMode) {
    && f.throttle == 100.0
    && 40.0 <= f.speed <= 80.0
    && (if mode == SensorFailure then f.faultCode == 1 && f.temperature == 155.0 && 4321.0 <= f.rpm <= 4322.5
        else f.faultCode == 0 && 64.0 <= f.temperature <= 80.0 && 3020.0 <= f.rpm <= 3352.5)
  }

  // ---------------------------------------------------------------- the log

  /** The throttle before it is limited to 0..100. */
  function RawThrottle(f: TelemetryFrame, mag: real): real {
    12.0 + 14.0 * mag + f.temperature / 6.0
  }

  /** The engine speed and the throttle are those of this magnitude, which is that
      of the acceleration shown. */
  predicate DerivedFrom(f: TelemetryFrame, mag: real) {
    && mag >= 0.0 && mag * mag == f.ax * f.ax + f.ay * f.ay + f.az * f.az
    && f.rpm == 700.0 + 17.5 * f.temperature + 125.0 * mag
    && f.throttle == (if RawThrottle(f, mag) > 100.0 then 100.0
                      else if RawThrottle(f, mag) < 0.0 then 0.0 else RawThrottle(f, mag))
  }

  /** The sample whose fields the frame shows. */
  function ShownSample(f: TelemetryFrame, at: Timespec): SensorSample {
    SensorSample(f.sequence, f.temperature, f.ax, f.ay, f.az, f.speed, f.faultCode, at)
  }

  lemma FrameShowsSample(m: Maths, x: SensorSample, f: TelemetryFrame)
    requires IsRoot(m.sqrt) && f == ProcessSample(m, x, f.timestamp)
    ensures DerivedFrom(f, m.sqrt(SquaredMagnitude(x)))
    ensures x == ShownSample(f, x.timestamp)
  {
    SquareNonNegative(x.ax);
    SquareNonNegative(x.ay);
    SquareNonNegative(x.az);
    var mag := m.sqrt(SquaredMagnitude(x));
    assert mag >= 0.0 && mag * mag == SquaredMagnitude(x);
  }

  /** In every run each logged frame shows a sample made at some moment of the run:
      its fault code is 1 exactly if the fault mode was then a sensor failure, its
      readings are those of its number, and its engine speed and throttle follow from
      the readings it shows. */
  lemma LoggedFramesUnderTheirMode(m: Maths, es: seq<Event>, j: nat) returns (i: nat, k: nat, mag: real)
    requires IsRoot(m.sqrt) && j < |Run(m, es).logged.printed|
    ensures MakesSample(m, es, k, i)
    ensures var f, s := Run(m, es).logged.printed[j], Run(m, es[..k]);
      && f.sequence == s.sensor.number && DerivedFrom(f, mag)
      && (f.faultCode == 1 <==> s.fault == SensorFailure)
      && exists at :: MadeUnder(m, ShownSample(f, at), s.fault)
  {
    var x: SensorSample;
    i, x := LoggedSample(m, es, j);
    k := SamplesUnderTheirMode(m, es, i);
    var f := Run(m, es).logged.printed[j];
    FrameShowsSample(m, x, f);
    mag := m.sqrt(SquaredMagnitude(x));
    assert MadeUnder(m, ShownSample(f, x.timestamp), Run(m, es[..k]).fault);
  }

  lemma LoggedSample(m: Maths, es: seq<Event>, j: nat) returns (i: nat, x: SensorSample)
    requires j < |Run(m, es).logged.printed|
    ensures i < |Run(m, es).made.samples| && x == Run(m, es).made.samples[i]
    ensures var f := Run(m, es).logged.printed[j]; f == ProcessSample(m, x, f.timestamp)
  {
    var at := HostLog.LogIsSubsequence(m, es);
    i := at[j] - 1;
    x := Run(m, es).made.samples[i];
    assert HostLog.Derives(m)(x, Run(m, es).logged.printed[j]);
  }

  /** In every run, whatever the interleaving, the faults and the resets, every
      logged frame shows 100 percent throttle, and the temperature and engine speed
      of a failed sensor exactly if its sample was made under a sensor failure. */
  lemma LoggedValues(m: Maths, es: seq<Event>, j: nat) returns (i: nat, k: nat)
    requires IsSine(m.sin) && IsRoot(m.sqrt) && j < |Run(m, es).logged.printed|
    ensures MakesSample(m, es, k, i)
    ensures ShownValues(Run(m, es).logged.printed[j], Run(m, es[..k]).fault)
  {
    var x: SensorSample;
    i, x := LoggedSample(m, es, j);
    k := SamplesUnderTheirMode(m, es, i);
    MadeUnderInRange(m, x, Run(m, es[..k]).fault);
    FrameValues(m, x, Run(m, es).logged.printed[j].timestamp);
  }

  lemma MadeUnderInRange(m: Maths, x: SensorSample, mode: FaultMode)
    requires IsSine(m.sin) && MadeUnder(m, x, mode)
    ensures if mode == SensorFailure then FailedSample(x) else NominalSample(x)
  {
    var sixth := x.sequence as real / 6.0;
    assert -1.0 <= m.sin(sixth) <= 1.0;
    assert -1.0 <= m.sin(sixth * 1.3) <= 1.0;
    assert -1.0 <= m.sin(sixth * 0.9) <= 1.0;
    assert -1.0 <= m.sin(sixth * 1.7) <= 1.0;
    assert -1.0 <= m.sin(sixth * 0.5) <= 1.0;
  }

  lemma SquareNonNegative(x: real)
    ensures x * x >= 0.0
  {
  }
}
