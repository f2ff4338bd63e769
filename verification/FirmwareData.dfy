/** The data path of the STM32 build: samples generated from their sequence
    number, and the frames computed from them. */
module FirmwareData {
  import opened CTypes
  import Lcg

  type I16 = x: int | -0x8000 <= x < 0x8000
  type U16 = x: int | 0 <= x < 0x1_0000

  datatype FaultMode = NoFault | Overflow | SensorFault | Stall

  datatype Payload = Payload(temperature: I16, ax: I16, ay: I16, az: I16)

  datatype SensorSample = SensorSample(sequence: U32, payload: Payload, valid: bool, tick: U32)

  datatype TelemetryFrame = TelemetryFrame(
    sequence: U32, payload: Payload, rpm: U16, throttle: U16, speed: U16, valid: bool, tick: U32)

  // ---------------------------------------------------------------- samples

  function Temperature(number: U32): I16 {
    ToI16(720 + (number % 30 - 15) * 6)
  }

  /** The payload generated for a sequence number when the sensor works. */
  function NominalPayload(number: U32): Payload {
    var lcg1 := Lcg.Next(ToU32(number + 1));
    var lcg2 := Lcg.Next(lcg1);
    var lcg3 := Lcg.Next(lcg2);
    Payload(Temperature(number), Axis(lcg1), Axis(lcg2), Upward(lcg3))
  }

  /** A horizontal axis, from the low byte of the generator. */
  function Axis(x: U32): I16 {
    ToI16(x % 256 - 128)
  }

  /** The vertical axis, from the low six bits. */
  function Upward(x: U32): I16 {
    ToI16(100 + x % 64)
  }

  const SENTINEL := Payload(1550, 420, 420, 420)

  /** `prvMakeSample`, with the fault mode and the tick it reads as parameters. */
  function MakeSample(number: U32, mode: FaultMode, tick: U32): SensorSample {
    if mode == SensorFault then SensorSample(number, SENTINEL, false, tick)
    else SensorSample(number, NominalPayload(number), true, tick)
  }

  predicate NominalRange(p: Payload) {
    && 630 <= p.temperature <= 804
    && -128 <= p.ax <= 127 && -128 <= p.ay <= 127 && 100 <= p.az <= 163
  }

  lemma NominalPayloadRange(number: U32)
    ensures NominalRange(NominalPayload(number))
  {
    var lcg1 := Lcg.Next(ToU32(number + 1));
    var lcg2 := Lcg.Next(lcg1);
    AxisIff(lcg1, lcg2);
    UpwardRange(Lcg.Next(lcg2));
    TemperatureRange(number);
  }

  lemma TemperatureRange(number: U32)
    ensures 630 <= Temperature(number) <= 804
  {
  }

  lemma TemperatureIff(m: U32, n: U32)
    ensures Temperature(m) == Temperature(n) <==> m % 30 == n % 30
  {
  }

  lemma AxisIff(x: U32, y: U32)
    ensures Axis(x) == Axis(y) <==> x % 256 == y % 256
    ensures -128 <= Axis(x) <= 127 && -128 <= Axis(y) <= 127
  {
  }

  lemma UpwardRange(x: U32)
    ensures 100 <= Upward(x) <= 163
  {
  }

  /** The first axis numbers the residues of the sequence modulo 256. */
  lemma FirstAxisIff(m: U32, n: U32)
    ensures NominalPayload(m).ax == NominalPayload(n).ax <==> m % 256 == n % 256
  {
    Lcg.Pow2Of32();
    Lcg.LowBitsStep(8, ToU32(m + 1), ToU32(n + 1));
    LowByteIff(m, n);
    AxisIff(Lcg.Next(ToU32(m + 1)), Lcg.Next(ToU32(n + 1)));
  }

  /** Adding one is a bijection on the low byte, and wrapping at 2^32 does not
      disturb it. */
  lemma LowByteIff(m: U32, n: U32)
    ensures ToU32(m + 1) % 256 == ToU32(n + 1) % 256 <==> m % 256 == n % 256
  {
    LowByteAfterWrap(m);
    LowByteAfterWrap(n);
  }

  lemma LowByteAfterWrap(n: U32)
    ensures ToU32(n + 1) % 256 == (n % 256 + 1) % 256
  {
  }

  lemma OtherAxes(m: U32, n: U32)
    requires m % 256 == n % 256
    ensures NominalPayload(m).ay == NominalPayload(n).ay
    ensures NominalPayload(m).az == NominalPayload(n).az
  {
    Lcg.Pow2Of32();
    LowByteIff(m, n);
    var m1, n1 := Lcg.Next(ToU32(m + 1)), Lcg.Next(ToU32(n + 1));
    Lcg.LowBitsStep(8, ToU32(m + 1), ToU32(n + 1));
    Lcg.LowBitsStep(8, m1, n1);
    Lcg.LowBitsStep(8, Lcg.Next(m1), Lcg.Next(n1));
    LowSixBits(Lcg.Next(Lcg.Next(m1)), Lcg.Next(Lcg.Next(n1)));
  }

  lemma LowSixBits(x: U32, y: U32)
    requires x % 256 == y % 256
    ensures x % 64 == y % 64
  {
    Lcg.ModOfMod(x, 4, 64);
    Lcg.ModOfMod(y, 4, 64);
  }

  /** Two fault-free payloads are equal exactly when their sequence numbers agree
      modulo 3840, the least common multiple of 30 and 256. */
  lemma PayloadEqualIff(m: U32, n: U32)
    ensures NominalPayload(m) == NominalPayload(n) <==> m % 3840 == n % 3840
  {
    TemperatureIff(m, n);
    FirstAxisIff(m, n);
    Residues3840(m, n);
    if m % 256 == n % 256 {
      OtherAxes(m, n);
    }
  }

  lemma Residues3840(m: int, n: int)
    requires m >= 0 && n >= 0
    ensures m % 3840 == n % 3840 <==> m % 30 == n % 30 && m % 256 == n % 256
  {
    Congruent(m, n, 3840);
    Congruent(m, n, 30);
    Congruent(m, n, 256);
    Divisible3840(m - n);
  }

  lemma Divisible3840(d: int)
    ensures d % 3840 == 0 <==> d % 30 == 0 && d % 256 == 0
  {
    if d % 30 == 0 && d % 256 == 0 {
      BothDivide(d, d / 30, d / 256);
    }
    if d % 3840 == 0 {
      PartsDivide(d, d / 3840);
    }
  }

  lemma BothDivide(d: int, p: int, q: int)
    requires d == 30 * p && d == 256 * q
    ensures d % 3840 == 0
  {
    FifteenDivides(p, q);
    var k := q / 15;
    assert d == 3840 * k;
  }

  lemma PartsDivide(d: int, k: int)
    requires d == 3840 * k
    ensures d % 30 == 0 && d % 256 == 0
  {
    assert d == 30 * (128 * k);
    assert d == 256 * (15 * k);
  }

  lemma FifteenDivides(p: int, q: int)
    requires 15 * p == 128 * q
    ensures q % 15 == 0
  {
    assert q == 15 * (2 * p - 17 * q);
  }

  lemma Congruent(m: int, n: int, d: int)
    requires d > 0
    ensures m % d == n % d <==> (m - n) % d == 0
  {
    Lcg.EqualModuloMeansDivides(m, n, d);
  }

  /** So the least period of the fault-free stream is 3840, from any start. */
  lemma LeastPeriod(n: U32, period: nat)
    requires n + period < TWO_TO_32
    ensures NominalPayload(n + period) == NominalPayload(n) <==> period % 3840 == 0
  {
    PayloadEqualIff(n + period, n);
    Congruent(n + period, n, 3840);
  }

  // ---------------------------------------------------------------- frames

  function Abs(x: int): nat {
    if x < 0 then -x else x
  }

  /** `prvAccelMagnitude`. */
  function AccelMagnitude(p: Payload): U16 {
    ToU16((Abs(p.ax) + Abs(p.ay) + Abs(p.az)) / 3)
  }

  function Rpm(temperature: int, mag: U16): U16 {
    ToU16(ToU32(700 + ToU32(temperature) / 2 + mag * 3))
  }

  function Throttle(mag: U16): U16 {
    var t := ToU16(120 + mag / 2);
    if t > 1000 then 1000 else t
  }

  function Speed(mag: U16): U16 {
    var s := ToU16(mag * 2);
    if s > 2500 then 2500 else s
  }

  /** `prvProcessSample`, with the tick it reads as a parameter. */
  function ProcessSample(s: SensorSample, tick: U32): TelemetryFrame {
    var mag := AccelMagnitude(s.payload);
    TelemetryFrame(s.sequence, s.payload, Rpm(s.payload.temperature, mag), Throttle(mag), Speed(mag), s.valid, tick)
  }

  /** A sample as the sensor task makes them. */
  predicate GoodSample(s: SensorSample) {
    if s.valid then s.payload == NominalPayload(s.sequence) else s.payload == SENTINEL
  }

  /** The frame is the one computed from the sample generated with its number. */
  predicate GoodFrame(f: TelemetryFrame) {
    f == ProcessSample(MakeSample(f.sequence, if f.valid then NoFault else SensorFault, 0), f.tick)
  }

  /** What such a frame shows; none of the clamps and conversions has changed a
      value. */
  predicate InRange(f: TelemetryFrame) {
    if f.valid then
      && f.payload == NominalPayload(f.sequence)
      && 1114 <= f.rpm <= 1519 && 136 <= f.throttle <= 189 && 66 <= f.speed <= 278
    else
      f.payload == SENTINEL && f.rpm == 2735 && f.throttle == 330 && f.speed == 840
  }

  lemma MakeSampleGood(number: U32, mode: FaultMode, tick: U32)
    ensures GoodSample(MakeSample(number, mode, tick))
    ensures MakeSample(number, mode, tick).valid <==> mode != SensorFault
  {
  }

  lemma MagnitudeRange(p: Payload)
    ensures NominalRange(p) ==> 33 <= AccelMagnitude(p) <= 139
    ensures p == SENTINEL ==> AccelMagnitude(p) == 420
    ensures AccelMagnitude(p) == (Abs(p.ax) + Abs(p.ay) + Abs(p.az)) / 3
  {
    var sum := Abs(p.ax) + Abs(p.ay) + Abs(p.az);
    ThirdFits(sum);
    if NominalRange(p) {
      assert 100 <= sum <= 419;
    } else if p == SENTINEL {
      assert sum == 1260;
    }
  }

  lemma ThirdFits(sum: nat)
    requires sum <= 98304
    ensures ToU16(sum / 3) == sum / 3
  {
  }

  lemma DerivedRange(temperature: int, mag: U16)
    requires (630 <= temperature <= 804 && 33 <= mag <= 139) || (temperature == 1550 && mag == 420)
    ensures Rpm(temperature, mag) == 700 + temperature / 2 + 3 * mag
    ensures Throttle(mag) == 120 + mag / 2
    ensures Speed(mag) == 2 * mag
  {
    RpmExact(temperature, mag);
    ThrottleAndSpeedExact(mag);
  }

  lemma RpmExact(temperature: int, mag: U16)
    requires 0 <= temperature <= 1550 && mag <= 420
    ensures Rpm(temperature, mag) == 700 + temperature / 2 + 3 * mag
  {
  }

  lemma ThrottleAndSpeedExact(mag: U16)
    requires mag <= 420
    ensures Throttle(mag) == 120 + mag / 2
    ensures Speed(mag) == 2 * mag
  {
  }

  /** A frame computed from a good sample is good. */
  lemma ProcessGood(s: SensorSample, tick: U32)
    requires GoodSample(s)
    ensures GoodFrame(ProcessSample(s, tick))
    ensures ProcessSample(s, tick).sequence == s.sequence && ProcessSample(s, tick).valid == s.valid
  {
  }

  lemma GoodFrameInRange(f: TelemetryFrame)
    requires GoodFrame(f)
    ensures InRange(f)
  {
    if f.valid {
      NominalPayloadRange(f.sequence);
    }
    MagnitudeRange(f.payload);
    DerivedRange(f.payload.temperature, AccelMagnitude(f.payload));
  }

  // ---------------------------------------------------------------- the figures, written out

  /** The payload of a working sensor, in terms of its number: the temperature climbs
      by 0.6 degrees through thirty samples, and the axes are the low bits of three
      successive states of a generator started from the number after it. */
  predicate PayloadOfNumber(p: Payload, number: U32) {
    var first := Lcg.Generated((number + 1) % 0x1_0000_0000);
    var second := Lcg.Generated(first);
    var third := Lcg.Generated(second);
    && p.temperature == 630 + 6 * (number % 30)
    && p.ax + 128 == first % 256
    && p.ay + 128 == second % 256
    && p.az - 100 == third % 64
  }

  lemma NominalPayloadOfNumber(number: U32)
    ensures PayloadOfNumber(NominalPayload(number), number)
  {
    var lcg1 := Lcg.Next(ToU32(number + 1));
    var lcg2 := Lcg.Next(lcg1);
    var lcg3 := Lcg.Next(lcg2);
    Lcg.NextIsGenerated(ToU32(number + 1));
    Lcg.NextIsGenerated(lcg1);
    Lcg.NextIsGenerated(lcg2);
    AxisValue(lcg1);
    AxisValue(lcg2);
    UpwardValue(lcg3);
    TemperatureValue(number);
  }

  lemma AxisValue(x: U32)
    ensures Axis(x) + 128 == x % 256
  {
  }

  lemma UpwardValue(x: U32)
    ensures Upward(x) - 100 == x % 64
  {
  }

  lemma TemperatureValue(number: U32)
    ensures Temperature(number) == 630 + 6 * (number % 30)
  {
  }

  /** The derived values a frame shows for this magnitude, a third of the sum of the
      absolute accelerations it shows. */
  predicate FiguresOf(f: TelemetryFrame, mag: nat) {
    var sum := (if f.payload.ax < 0 then 0 - f.payload.ax else f.payload.ax)
             + (if f.payload.ay < 0 then 0 - f.payload.ay else f.payload.ay)
             + (if f.payload.az < 0 then 0 - f.payload.az else f.payload.az);
    && 3 * mag <= sum < 3 * mag + 3
    && f.rpm == 700 + f.payload.temperature / 2 + 3 * mag
    && f.throttle == 120 + mag / 2
    && f.speed == 2 * mag
  }

  /** A good frame shows the payload of its number, or the sentinel, and the engine
      speed, throttle and speed that follow from the accelerations it shows. */
  lemma GoodFrameFigures(f: TelemetryFrame) returns (mag: nat)
    requires GoodFrame(f)
    ensures FiguresOf(f, mag)
    ensures if f.valid then PayloadOfNumber(f.payload, f.sequence) else f.payload == Payload(1550, 420, 420, 420)
  {
    mag := AccelMagnitude(f.payload);
    if f.valid {
      NominalPayloadRange(f.sequence);
      NominalPayloadOfNumber(f.sequence);
    }
    MagnitudeRange(f.payload);
    DerivedRange(f.payload.temperature, mag);
  }
}
