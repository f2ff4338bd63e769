/** The data path of the lm3s build: what the sensor task produces and what the
    processing task computes from it, in the source's fixed-point integers. */
module Lm3sData {
  import opened CTypes
  import Lcg
  import Isqrt

  type I16 = x: int | -0x8000 <= x < 0x8000

  datatype Fault = NoFault | TaskDelay | QueueOverflow | SensorFailure

  datatype SensorData = SensorData(temperature: I16, ax: I16, ay: I16, az: I16, timestamp: U32)

  datatype TelemetryData = TelemetryData(
    sensor: SensorData, speed: int, rpm: int, throttle: int,
    faultCode: int, valid: bool, timestamp: U32)

  // ---------------------------------------------------------------- sensor task

  function Low16(rng: U32): int {
    rng % TWO_TO_16
  }

  /** Temperature in tenths of a degree: a triangle over 63 phases of 100 ms. */
  function Temperature(now: U32): int {
    var phase := (now / 100) % 63;
    if phase < 32 then 200 + phase * (600 / 31) else 800 - (phase - 32) * (600 / 31)
  }

  /** The sample built at time `now` from generator state `rng`. */
  function Sample(fault: Fault, now: U32, rng: U32): SensorData {
    if fault == SensorFailure then
      SensorData(1550, 420, 420, 420, now)
    else
      var r1 := Lcg.Next(rng);
      var r2 := Lcg.Next(r1);
      NoisySample(now, r1, r2, Lcg.Next(r2))
  }

  /** A working sensor's sample, from three successive generator states. */
  function NoisySample(now: U32, r1: U32, r2: U32, r3: U32): SensorData {
    SensorData(ToI16(Temperature(now)),
               ToI16(Low16(r1) * 200 / 65535 - 100),
               ToI16(Low16(r2) * 200 / 65535 - 100),
               ToI16(980 + Low16(r3) * 40 / 65535 - 20),
               now)
  }

  function RngAfter(fault: Fault, rng: U32): U32 {
    if fault == SensorFailure then rng else Lcg.Iterate(3, rng)
  }

  predicate Nominal(d: SensorData) {
    && 200 <= d.temperature <= 800
    && -100 <= d.ax <= 100
    && -100 <= d.ay <= 100
    && 960 <= d.az <= 1000
  }

  predicate Sentinel(d: SensorData) {
    d.temperature == 1550 && d.ax == 420 && d.ay == 420 && d.az == 420
  }

  predicate Producible(d: SensorData) {
    Nominal(d) || Sentinel(d)
  }

  /** Every sample is nominal or the failure sentinel, whatever the fault, the
      clock and the generator state. */
  lemma SampleRange(fault: Fault, now: U32, rng: U32)
    ensures var d := Sample(fault, now, rng);
      && d.timestamp == now
      && (if fault == SensorFailure then Sentinel(d) else Nominal(d))
  {
    var r1 := Lcg.Next(rng);
    var r2 := Lcg.Next(r1);
    NoisySampleRange(now, r1, r2, Lcg.Next(r2));
  }

  lemma NoisySampleRange(now: U32, r1: U32, r2: U32, r3: U32)
    ensures Nominal(NoisySample(now, r1, r2, r3))
  {
    TemperatureRange(now);
    Scaled(Low16(r1), 200);
    Scaled(Low16(r2), 200);
    Scaled(Low16(r3), 40);
  }

  lemma TemperatureRange(now: U32)
    ensures 200 <= Temperature(now) <= 800
  {
  }

  lemma Scaled(x: int, span: int)
    requires 0 <= x < TWO_TO_16 && (span == 200 || span == 40)
    ensures 0 <= x * span / 65535 <= span
  {
  }

  // ---------------------------------------------------------------- what a sample shows

  /** The hundred-millisecond phase a clock reading falls into. */
  function Phase(now: nat): nat {
    (now / 100) % 63
  }

  lemma PhaseMoves(now: nat)
    ensures Phase(now + 100) == if Phase(now) == 62 then 0 else Phase(now) + 1
    ensures Phase(now + 6300) == Phase(now)
  {
    assert (now + 100) / 100 == now / 100 + 1;
    assert (now + 6300) / 100 == now / 100 + 63;
  }

  lemma SampleTemperature(fault: Fault, now: U32, rng: U32)
    requires fault != SensorFailure
    ensures var phase := Phase(now);
      Sample(fault, now, rng).temperature == if phase < 32 then 200 + 19 * phase else 800 - 19 * (phase - 32)
  {
    assert 600 / 31 == 19;
  }

  /** The temperature of a working sensor is 20.0 degrees in the first of sixty-three
      phases and 80.0 in the thirty-third, rises by 1.9 degrees every 100 ms up to the
      thirty-second and falls by as much from the thirty-third on, and comes again
      after 6.3 seconds. */
  lemma TemperatureTriangle(fault: Fault, now: U32, later: U32, rng: U32, other: U32)
    requires fault != SensorFailure
    ensures var before, after := Sample(fault, now, rng).temperature, Sample(fault, later, other).temperature;
      && (Phase(now) == 0 ==> before == 200)
      && (Phase(now) == 32 ==> before == 800)
      && (later == now + 100 && Phase(now) <= 30 ==> after == before + 19)
      && (later == now + 100 && 32 <= Phase(now) <= 61 ==> after == before - 19)
      && (later == now + 6300 ==> after == before)
  {
    SampleTemperature(fault, now, rng);
    SampleTemperature(fault, later, other);
    PhaseMoves(now);
  }

  /** A value spread evenly over a range: this share of it, rounded down. */
  predicate Spread(value: int, low16: int, least: int, span: int) {
    65535 * (value - least) <= span * low16 < 65535 * (value - least + 1)
  }

  /** The accelerations of a working sensor spread the low halves of three successive
      generator states: over -1.00..1.00 sideways and 9.60..10.00 upward. */
  lemma NoiseSpread(fault: Fault, now: U32, rng: U32)
    requires fault != SensorFailure
    ensures var first := Lcg.Generated(rng);
      var second := Lcg.Generated(first);
      var third := Lcg.Generated(second);
      var d := Sample(fault, now, rng);
      && Spread(d.ax, first % 0x1_0000, -100, 200)
      && Spread(d.ay, second % 0x1_0000, -100, 200)
      && Spread(d.az, third % 0x1_0000, 960, 40)
  {
    var r1 := Lcg.Next(rng);
    var r2 := Lcg.Next(r1);
    Lcg.NextIsGenerated(rng);
    Lcg.NextIsGenerated(r1);
    Lcg.NextIsGenerated(r2);
    SidewaysSpread(Low16(r1));
    SidewaysSpread(Low16(r2));
    UpwardSpread(Low16(Lcg.Next(r2)));
  }

  lemma SidewaysSpread(x: int)
    requires 0 <= x < TWO_TO_16
    ensures Spread(ToI16(x * 200 / 65535 - 100), x, -100, 200)
  {
    Scaled(x, 200);
  }

  lemma UpwardSpread(x: int)
    requires 0 <= x < TWO_TO_16
    ensures Spread(ToI16(980 + x * 40 / 65535 - 20), x, 960, 40)
  {
    Scaled(x, 40);
  }

  /** The static state of `sensor_task`. */
  class SensorTask {
    var rng: U32

    constructor ()
      ensures rng == 0xDEADBEEF
    {
      rng := 0xDEADBEEF;
    }

    method LcgRand() returns (value: U32)
      modifies this
      ensures rng == value == Lcg.Next(old(rng))
    {
      rng := Lcg.Next(rng);
      value := rng;
    }

    method Produce(fault: Fault, now: U32) returns (data: SensorData)
      modifies this
      ensures data == Sample(fault, now, old(rng))
      ensures rng == RngAfter(fault, old(rng))
    {
      if fault == SensorFailure {
        return SensorData(1550, 420, 420, 420, now);
      }
      ghost var start := rng;
      var r1 := LcgRand();
      var r2 := LcgRand();
      var r3 := LcgRand();
      assert Lcg.Iterate(1, start) == r1;
      assert Lcg.Iterate(2, start) == r2;
      data := NoisySample(now, r1, r2, r3);
    }
  }

  // ---------------------------------------------------------------- processing task

  /** The sum of squares, converted to uint32_t as the code does. */
  function MagnitudeSquared(d: SensorData): U32 {
    ToU32(d.ax * d.ax + d.ay * d.ay + d.az * d.az)
  }

  function Magnitude(d: SensorData): nat {
    Isqrt.FloorRoot(MagnitudeSquared(d))
  }

  function Clamp(x: int, lo: int, hi: int): int
    requires lo <= hi
  {
    if x < lo then lo else if x > hi then hi else x
  }

  /** The change of the speed accumulator before clamping. */
  function SpeedDelta(d: SensorData): int {
    Quot(Magnitude(d) - 980, 10)
  }

  function SpeedAfter(speed: int, d: SensorData): int {
    Clamp(speed + SpeedDelta(d), 0, 2000)
  }

  function Frame(d: SensorData, speed: int, fault: Fault): TelemetryData {
    FrameOf(d, Magnitude(d), speed, fault)
  }

  /** The frame, from the magnitude of the acceleration. */
  function FrameOf(d: SensorData, mag: nat, speed: int, fault: Fault): TelemetryData {
    var bad := d.temperature > 750 || fault == SensorFailure;
    TelemetryData(d, ToU16(speed), Rpm(d.temperature, mag), Throttle(d.temperature, mag),
                  if bad then 1 else 0, !bad, d.timestamp)
  }

  lemma SquareOfI16(x: I16)
    ensures 0 <= x * x <= 0x4000_0000
  {
    var a: nat := if x < 0 then 0 - x else x as int;
    assert x * x == a * a;
    Isqrt.SquareMonotone(a, 0x8000);
  }

  lemma SquareWithin(x: int, lo: nat, hi: nat)
    requires lo <= x <= hi
    ensures lo * lo <= x * x <= hi * hi
  {
    Isqrt.SquareMonotone(lo, x);
    Isqrt.SquareMonotone(x, hi);
  }

  lemma SquareAround(x: int, hi: nat)
    requires 0 - hi <= x <= hi
    ensures 0 <= x * x <= hi * hi
  {
    var a: nat := if x < 0 then 0 - x else x as int;
    assert x * x == a * a;
    SquareWithin(a, 0, hi);
  }

  /** Any three int16 values stay inside the domain of the square root; the
      samples the task produces also keep every int32 product and sum in range. */
  lemma MagnitudeDomain(d: SensorData)
    ensures MagnitudeSquared(d) == d.ax * d.ax + d.ay * d.ay + d.az * d.az < TWO_TO_32 - 1
    ensures Producible(d) ==> MagnitudeSquared(d) <= 1_020_000
  {
    SquareOfI16(d.ax);
    SquareOfI16(d.ay);
    SquareOfI16(d.az);
    if Nominal(d) {
      SquareAround(d.ax, 100);
      SquareAround(d.ay, 100);
      SquareAround(d.az, 1000);
    }
  }

  lemma MagnitudeRange(d: SensorData)
    requires Producible(d)
    ensures Nominal(d) ==> 960 <= Magnitude(d) <= 1009
    ensures Sentinel(d) ==> Magnitude(d) == 727
  {
    MagnitudeDomain(d);
    if Nominal(d) {
      SquareAround(d.ax, 100);
      SquareAround(d.ay, 100);
      SquareWithin(d.az, 960, 1000);
      Isqrt.FloorRootBetween(MagnitudeSquared(d), 960, 1009);
    } else {
      Isqrt.FloorRootBetween(MagnitudeSquared(d), 727, 727);
    }
  }

  /** A nominal sample moves the accumulator by at most 2 (0.2 km/h), a failure
      sentinel by exactly -25 before clamping. */
  lemma SpeedDeltaRange(d: SensorData)
    requires Producible(d)
    ensures Nominal(d) ==> -2 <= SpeedDelta(d) <= 2
    ensures Sentinel(d) ==> SpeedDelta(d) == -25
  {
    MagnitudeRange(d);
  }

  /** Every frame computed from a producible sample and a clamped speed: the
      clamp on the throttle and all the unsigned conversions leave the values as
      they are. */
  lemma FrameRange(d: SensorData, speed: int, fault: Fault)
    requires Producible(d) && 0 <= speed <= 2000
    ensures var f := Frame(d, speed, fault);
      && FrameInRange(f)
      && f.sensor == d && f.speed == speed
      && (f.valid <==> d.temperature <= 750 && fault != SensorFailure)
  {
    MagnitudeRange(d);
    FrameOfRange(d, Magnitude(d), speed, fault);
  }

  lemma FrameOfRange(d: SensorData, mag: nat, speed: int, fault: Fault)
    requires (Nominal(d) && 960 <= mag <= 1009) || (Sentinel(d) && mag == 727)
    requires 0 <= speed <= 2000
    ensures var f := FrameOf(d, mag, speed, fault);
      && FrameInRange(f)
      && f.sensor == d && f.speed == speed
      && (f.valid <==> d.temperature <= 750 && fault != SensorFailure)
  {
    DerivedInRange(d, mag);
    SmallFits(speed);
  }

  lemma DerivedInRange(d: SensorData, mag: nat)
    requires (Nominal(d) && 960 <= mag <= 1009) || (Sentinel(d) && mag == 727)
    ensures RpmAndThrottleInRange(d, Rpm(d.temperature, mag), Throttle(d.temperature, mag))
  {
    RpmRange(d.temperature, mag);
    ThrottleRange(d.temperature, mag);
  }

  predicate FrameInRange(f: TelemetryData) {
    && 0 <= f.speed <= 2000
    && f.timestamp == f.sensor.timestamp
    && (f.faultCode == 0 <==> f.valid)
    && RpmAndThrottleInRange(f.sensor, f.rpm, f.throttle)
    && (Sentinel(f.sensor) ==> !f.valid)
  }

  predicate RpmAndThrottleInRange(d: SensorData, rpm: int, throttle: int) {
    if Sentinel(d) then rpm == 980 && throttle == 388
    else Nominal(d) && 746 <= rpm <= 852 && 166 <= throttle <= 267
  }

  function Rpm(temperature: int, mag: nat): int {
    ToU16(ToU32(700 + ToU32(Quot(temperature * 175, 1000)) + ToU32(mag * 125) / 10000))
  }

  function Throttle(temperature: int, mag: nat): int {
    ToU16(Clamp(120 + ToU32(mag * 140) / 10000 + Quot(temperature * 10, 60), 0, 1000))
  }

  lemma RpmRange(t: int, mag: nat)
    requires (200 <= t <= 800 && 960 <= mag <= 1009) || (t == 1550 && mag == 727)
    ensures Rpm(t, mag) == 700 + t * 175 / 1000 + mag * 125 / 10000
    ensures t <= 800 ==> 746 <= Rpm(t, mag) <= 852
    ensures t == 1550 ==> Rpm(t, mag) == 980
  {
    var warm, pull := t * 175 / 1000, mag * 125 / 10000;
    WarmRange(t);
    PullRange(mag);
    SmallFits(warm);
    SmallFits(mag * 125);
    SmallFits(700 + warm + pull);
  }

  lemma WarmRange(t: int)
    requires 200 <= t <= 800 || t == 1550
    ensures Quot(t * 175, 1000) == t * 175 / 1000
    ensures t <= 800 ==> 35 <= t * 175 / 1000 <= 140
    ensures t == 1550 ==> t * 175 / 1000 == 271
  {
  }

  lemma PullRange(mag: nat)
    requires 960 <= mag <= 1009 || mag == 727
    ensures mag >= 960 ==> mag * 125 / 10000 == 12
    ensures mag == 727 ==> mag * 125 / 10000 == 9
  {
  }

  lemma SmallFits(x: nat)
    requires x < TWO_TO_32
    ensures ToU32(x) == x && (x < TWO_TO_16 ==> ToU16(x) == x)
  {
  }

  lemma ThrottleRange(t: int, mag: nat)
    requires (200 <= t <= 800 && 960 <= mag <= 1009) || (t == 1550 && mag == 727)
    ensures Throttle(t, mag) == 120 + mag * 140 / 10000 + t * 10 / 60
    ensures t <= 800 ==> 166 <= Throttle(t, mag) <= 267
    ensures t == 1550 ==> Throttle(t, mag) == 388
  {
    var warm, pull := t * 10 / 60, mag * 140 / 10000;
    assert 33 <= warm <= 258 && 10 <= pull <= 14;
    assert ToU32(mag * 140) == mag * 140;
    assert Clamp(120 + pull + warm, 0, 1000) == 120 + pull + warm;
  }

  // ---------------------------------------------------------------- what a frame shows

  /** The magnitude of the acceleration, rounded down. */
  predicate MagnitudeOf(d: SensorData, mag: nat) {
    mag * mag <= d.ax * d.ax + d.ay * d.ay + d.az * d.az < (mag + 1) * (mag + 1)
  }

  lemma MagnitudeIsRoot(d: SensorData)
    ensures MagnitudeOf(d, Magnitude(d))
  {
    MagnitudeDomain(d);
    Isqrt.FloorRootIsRoot(MagnitudeSquared(d));
  }

  /** What a frame shows of its sample, with this magnitude. */
  predicate FiguresOf(f: TelemetryData, mag: nat) {
    && f.rpm == 700 + f.sensor.temperature * 175 / 1000 + mag * 125 / 10000
    && f.throttle == 120 + mag * 140 / 10000 + f.sensor.temperature * 10 / 60
    && f.timestamp == f.sensor.timestamp
    && f.faultCode == if f.valid then 0 else 1
  }

  /** The engine speed and the throttle follow from the readings the frame shows, and
      it is valid up to 75.0 degrees while no sensor failure is on. */
  lemma FrameFigures(d: SensorData, speed: int, fault: Fault) returns (mag: nat)
    requires Producible(d) && 0 <= speed <= 2000
    ensures var f := Frame(d, speed, fault);
      && f.sensor == d && f.speed == speed && MagnitudeOf(d, mag) && FiguresOf(f, mag)
      && (f.valid <==> d.temperature <= 750 && fault != SensorFailure)
  {
    mag := Magnitude(d);
    MagnitudeIsRoot(d);
    MagnitudeRange(d);
    FrameOfFigures(d, mag, speed, fault);
  }

  lemma FrameOfFigures(d: SensorData, mag: nat, speed: int, fault: Fault)
    requires (Nominal(d) && 960 <= mag <= 1009) || (Sentinel(d) && mag == 727)
    requires 0 <= speed <= 2000
    ensures var f := FrameOf(d, mag, speed, fault);
      && f.sensor == d && f.speed == speed && FiguresOf(f, mag)
      && (f.valid <==> d.temperature <= 750 && fault != SensorFailure)
  {
    RpmRange(d.temperature, mag);
    ThrottleRange(d.temperature, mag);
    assert ToU16(speed) == speed;
  }

  /** A tenth, its fraction cut off. */
  predicate TenthOf(tenth: int, x: int) {
    if x >= 0 then 10 * tenth <= x < 10 * tenth + 10 else 10 * tenth - 10 < x <= 10 * tenth
  }

  /** The accumulator changes by a tenth of what the magnitude exceeds 980 by, and
      stays between 0 and 2000. */
  lemma SpeedFigures(speed: int, d: SensorData) returns (mag: nat, delta: int)
    ensures MagnitudeOf(d, mag) && TenthOf(delta, mag - 980)
    ensures SpeedAfter(speed, d)
      == if speed + delta < 0 then 0 else if speed + delta > 2000 then 2000 else speed + delta
  {
    mag, delta := Magnitude(d), SpeedDelta(d);
    MagnitudeIsRoot(d);
  }

  /** The static state of `processing_task`. */
  class ProcessingTask {
    var speedX10: int

    constructor ()
      ensures speedX10 == 0
    {
      speedX10 := 0;
    }

    method Process(d: SensorData, fault: Fault) returns (telem: TelemetryData)
      modifies this
      ensures speedX10 == SpeedAfter(old(speedX10), d)
      ensures telem == Frame(d, speedX10, fault)
    {
      var squares := ToU32(d.ax * d.ax + d.ay * d.ay + d.az * d.az);
      var root := Isqrt.Isqrt32(squares);
      MagnitudeDomain(d);
      var mag: int := root.value;
      Isqrt.FloorRootIsRoot(squares);
      Isqrt.FloorRootUnique(squares, mag, Magnitude(d));
      var delta := Quot(mag - 980, 10);
      speedX10 := speedX10 + delta;
      if speedX10 < 0 { speedX10 := 0; }
      if speedX10 > 2000 { speedX10 := 2000; }
      var rpm := ToU32(700 + ToU32(Quot(d.temperature * 175, 1000)) + ToU32(mag * 125) / 10000);
      var throttle := 120 + ToU32(mag * 140) / 10000 + Quot(d.temperature * 10, 60);
      if throttle < 0 { throttle := 0; }
      if throttle > 1000 { throttle := 1000; }
      if d.temperature > 750 || fault == SensorFailure {
        telem := TelemetryData(d, ToU16(speedX10), ToU16(rpm), ToU16(throttle), 1, false, d.timestamp);
      } else {
        telem := TelemetryData(d, ToU16(speedX10), ToU16(rpm), ToU16(throttle), 0, true, d.timestamp);
      }
    }
  }

  // ---------------------------------------------------------------- runs of the accumulator

  function SpeedRun(speed: int, ds: seq<SensorData>): int
    decreases |ds|
  {
    if ds == [] then speed else SpeedRun(SpeedAfter(speed, ds[0]), ds[1..])
  }

  /** Whatever the run, the accumulator ends inside 0..2000. */
  lemma {:induction false} SpeedRunBounded(speed: int, ds: seq<SensorData>)
    requires 0 <= speed <= 2000
    ensures 0 <= SpeedRun(speed, ds) <= 2000
    decreases |ds|
  {
    if ds != [] {
      SpeedRunBounded(SpeedAfter(speed, ds[0]), ds[1..]);
    }
  }

  /** Along a run of producible samples the accumulator drifts by at most 2 for
      each nominal sample and 25 for each sentinel. */
  lemma {:induction false} SpeedRunDrift(speed: int, ds: seq<SensorData>)
    requires 0 <= speed <= 2000
    requires forall d :: d in ds ==> Producible(d)
    ensures SpeedRun(speed, ds) <= speed + 2 * Nominals(ds)
    ensures SpeedRun(speed, ds) >= speed - 2 * Nominals(ds) - 25 * (|ds| - Nominals(ds))
    decreases |ds|
  {
    if ds != [] {
      SpeedDeltaRange(ds[0]);
      SpeedRunDrift(SpeedAfter(speed, ds[0]), ds[1..]);
    }
  }

  function Nominals(ds: seq<SensorData>): (n: nat)
    ensures n <= |ds|
  {
    if ds == [] then 0 else (if Nominal(ds[0]) then 1 else 0) + Nominals(ds[1..])
  }

  /** During a sustained sensor failure the accumulator is exactly the starting
      speed less 25 for each sample, stopping at zero. */
  lemma {:induction false} FailureDrains(speed: int, ds: seq<SensorData>)
    requires 0 <= speed <= 2000
    requires forall d :: d in ds ==> Sentinel(d)
    ensures SpeedRun(speed, ds) == Clamp(speed - 25 * |ds|, 0, 2000)
    decreases |ds|
  {
    if ds != [] {
      SpeedDeltaRange(ds[0]);
      FailureDrains(SpeedAfter(speed, ds[0]), ds[1..]);
    }
  }

  /** Eighty failed samples after any history bring the vehicle to rest, and it
      stays at rest for as long as the failure lasts. */
  lemma FailureStopsWithin80(speed: int, before: seq<SensorData>, failed: seq<SensorData>)
    requires 0 <= speed <= 2000
    requires forall d :: d in failed ==> Sentinel(d)
    requires |failed| >= 80
    ensures SpeedRun(speed, before + failed) == 0
  {
    SpeedRunSplit(speed, before, failed);
    SpeedRunBounded(speed, before);
    FailureDrains(SpeedRun(speed, before), failed);
  }

  lemma {:induction false} SpeedRunSplit(speed: int, a: seq<SensorData>, b: seq<SensorData>)
    ensures SpeedRun(speed, a + b) == SpeedRun(SpeedRun(speed, a), b)
    decreases |a|
  {
    if a == [] {
      assert a + b == b;
    } else {
      assert (a + b)[1..] == a[1..] + b;
      SpeedRunSplit(SpeedAfter(speed, a[0]), a[1..], b);
    }
  }
}
