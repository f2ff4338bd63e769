/** Reading the telemetry lines of the lm3s build back: the label before each value
    says which value of the frame it is. */
module Lm3sReader {
  import opened CTypes
  import opened Format
  import opened LogReader
  import opened Lm3sLine

  // The pattern, from its last group to its first.
  const L_VALID := Group(" valid=", Plain, End)
  const L_FAULT := Group("% fault=0x", Word, L_VALID)
  const L_THROTTLE := Group(" thr=", Dotted, L_FAULT)
  const L_RPM := Group("km/h rpm=", Plain, L_THROTTLE)
  const L_SPEED := Group(" spd=", Dotted, L_RPM)
  const L_AZ := Group(" az=", Signed, L_SPEED)
  const L_AY := Group(" ay=", Signed, L_AZ)
  const L_AX := Group("C ax=", Signed, L_AY)
  const L_TEMP := Group(" temp=", Signed, L_AX)
  const TELEM := Group("[TELEM] ts=", Plain, L_TEMP)

  // The line of a frame as the filled pattern.
  function EndFill(f: Data.TelemetryData): Filled
    requires Representable(f)
  {
    Fill("% fault=0x", Word, HexByte(f.faultCode),
      Fill(" valid=", Plain, Texts.Decimal(if f.valid then 1 else 0), Done("\r\n")))
  }

  function ThrottleFilled(f: Data.TelemetryData): Filled
    requires Representable(f)
  {
    Fill(" thr=", Dotted, Texts.TenthsText(f.throttle), EndFill(f))
  }

  function DerivedFill(f: Data.TelemetryData): Filled
    requires Representable(f)
  {
    Fill(" spd=", Dotted, Texts.TenthsText(f.speed), Fill("km/h rpm=", Plain, Texts.Decimal(f.rpm), ThrottleFilled(f)))
  }

  function SidewaysFill(f: Data.TelemetryData): Filled
    requires Representable(f)
  {
    Fill(" ay=", Signed, Texts.HundredthsText(f.sensor.ay),
      Fill(" az=", Signed, Texts.HundredthsText(f.sensor.az), DerivedFill(f)))
  }

  function AccelFill(f: Data.TelemetryData): Filled
    requires Representable(f)
  {
    Fill("C ax=", Signed, Texts.HundredthsText(f.sensor.ax), SidewaysFill(f))
  }

  function LineFilled(f: Data.TelemetryData): Filled
    requires Representable(f)
  {
    Fill("[TELEM] ts=", Plain, Texts.Decimal(f.timestamp),
      Fill(" temp=", Signed, Texts.TenthsText(f.sensor.temperature), AccelFill(f)))
  }

  // ---------------------------------------------------------------- the pattern matches

  lemma HexDigit(n: nat)
    requires n < 16
    ensures InClass(DigitChar(n, true), Word) && DigitOf(DigitChar(n, true)) == n
  {
  }

  /** Two hexadecimal digits, in upper case, which read back as the number. */
  lemma HexByteReads(n: nat)
    requires n < 256
    ensures HexByte(n) != [] && AllIn(HexByte(n), Word) && NumberIn(HexByte(n), 16) == n
  {
    HexByteDigits(n);
    TwoHexDigits(n / 16, n % 16);
  }

  lemma TwoHexDigits(high: nat, low: nat)
    requires high < 16 && low < 16
    ensures var text := [DigitChar(high, true), DigitChar(low, true)];
      AllIn(text, Word) && NumberIn(text, 16) == 16 * high + low
  {
    HexDigit(high);
    HexDigit(low);
    var text := [DigitChar(high, true), DigitChar(low, true)];
    assert text[..1] == [DigitChar(high, true)];
    assert text[..1][..0] == [];
    assert NumberIn(text[..1], 16) == high;
  }

  lemma HexByteDigits(n: nat)
    requires n < 256
    ensures HexByte(n) == [DigitChar(n / 16, true), DigitChar(n % 16, true)]
  {
    var digits := Digits(n, 16, true);
    if n < 16 {
      assert digits == [DigitChar(n, true)];
      assert Repeat('0', 1) == "0";
      assert DigitChar(0, true) == '0';
    } else {
      assert Digits(n / 16, 16, true) == [DigitChar(n / 16, true)];
      assert digits == [DigitChar(n / 16, true)] + [DigitChar(n % 16, true)];
      assert Repeat('0', 0) + digits == digits;
    }
  }

  lemma EndFits(f: Data.TelemetryData)
    requires Representable(f)
    ensures Fits(EndFill(f))
  {
    HexByteReads(f.faultCode);
    DecimalIsPlain(if f.valid then 1 else 0);
  }

  lemma DerivedFits(f: Data.TelemetryData)
    requires Representable(f)
    ensures Fits(DerivedFill(f))
  {
    EndFits(f);
    FieldClasses(f.speed);
    DecimalIsPlain(f.rpm);
    FieldClasses(f.throttle);
    assert Fits(ThrottleFilled(f));
  }

  lemma AccelFits(f: Data.TelemetryData)
    requires Representable(f)
    ensures Fits(AccelFill(f))
  {
    DerivedFits(f);
    FieldClasses(f.sensor.ax);
    FieldClasses(f.sensor.ay);
    FieldClasses(f.sensor.az);
    assert Fits(SidewaysFill(f));
  }

  lemma LineFits(f: Data.TelemetryData)
    requires Representable(f)
    ensures Fits(LineFilled(f))
  {
    AccelFits(f);
    DecimalIsPlain(f.timestamp);
    FieldClasses(f.sensor.temperature);
  }

  lemma EndFillText(f: Data.TelemetryData)
    requires Representable(f)
    ensures TextOf(ThrottleFilled(f)) == EndText(f)
  {
    var fault := HexByte(f.faultCode) + (" valid=" + (Texts.Decimal(if f.valid then 1 else 0) + "\r\n"));
    assert TextOf(EndFill(f)) == "% fault=0x" + fault;
    assert "%" + (" fault=0x" + fault) == "% fault=0x" + fault;
  }

  lemma FilledText(f: Data.TelemetryData)
    requires Representable(f)
    ensures TextOf(LineFilled(f)) == Line(f)
  {
    EndFillText(f);
    assert TextOf(SidewaysFill(f)) == " ay=" + (Texts.HundredthsText(f.sensor.ay) + MiddleText(f)) by {
      assert TextOf(DerivedFill(f))
          == " spd=" + (Texts.TenthsText(f.speed) + ("km/h rpm=" + (Texts.Decimal(f.rpm) + EndText(f))));
    }
    assert TextOf(AccelFill(f)) == AccelText(f);
  }

  lemma FilledPattern(f: Data.TelemetryData)
    requires Representable(f)
    ensures PatternOf(LineFilled(f)) == TELEM
  {
    assert PatternOf(EndFill(f)) == L_FAULT;
    assert PatternOf(ThrottleFilled(f)) == L_THROTTLE;
    assert PatternOf(DerivedFill(f)) == L_SPEED;
    assert PatternOf(SidewaysFill(f)) == L_AY;
    assert PatternOf(AccelFill(f)) == L_AX;
  }

  /** The values under their labels. */
  function Values(f: Data.TelemetryData): seq<string>
    requires Representable(f)
  {
    [Texts.Decimal(f.timestamp), Texts.TenthsText(f.sensor.temperature),
     Texts.HundredthsText(f.sensor.ax), Texts.HundredthsText(f.sensor.ay), Texts.HundredthsText(f.sensor.az),
     Texts.TenthsText(f.speed), Texts.Decimal(f.rpm), Texts.TenthsText(f.throttle),
     HexByte(f.faultCode), Texts.Decimal(if f.valid then 1 else 0)]
  }

  lemma FilledValues(f: Data.TelemetryData)
    requires Representable(f)
    ensures FieldsOf(LineFilled(f)) == Values(f)
  {
    FieldsOfTwo("[TELEM] ts=", Plain, Texts.Decimal(f.timestamp),
                " temp=", Signed, Texts.TenthsText(f.sensor.temperature), AccelFill(f));
    SidewaysValues(f);
    DerivedValues(f);
  }

  lemma DerivedValues(f: Data.TelemetryData)
    requires Representable(f)
    ensures FieldsOf(DerivedFill(f))
      == [Texts.TenthsText(f.speed), Texts.Decimal(f.rpm), Texts.TenthsText(f.throttle),
          HexByte(f.faultCode), Texts.Decimal(if f.valid then 1 else 0)]
  {
    var valid := Texts.Decimal(if f.valid then 1 else 0);
    FieldsOfTwo("% fault=0x", Word, HexByte(f.faultCode), " valid=", Plain, valid, Done("\r\n"));
    assert FieldsOf(ThrottleFilled(f)) == [Texts.TenthsText(f.throttle)] + FieldsOf(EndFill(f));
    FieldsOfTwo(" spd=", Dotted, Texts.TenthsText(f.speed),
                "km/h rpm=", Plain, Texts.Decimal(f.rpm), ThrottleFilled(f));
  }

  lemma SidewaysValues(f: Data.TelemetryData)
    requires Representable(f)
    ensures FieldsOf(AccelFill(f))
      == [Texts.HundredthsText(f.sensor.ax), Texts.HundredthsText(f.sensor.ay), Texts.HundredthsText(f.sensor.az)]
         + FieldsOf(DerivedFill(f))
  {
    var x, y := Texts.HundredthsText(f.sensor.ax), Texts.HundredthsText(f.sensor.ay);
    var z := Texts.HundredthsText(f.sensor.az);
    FieldsOfTwo(" ay=", Signed, y, " az=", Signed, z, DerivedFill(f));
    assert FieldsOf(AccelFill(f)) == [x] + FieldsOf(SidewaysFill(f));
    Regrouped(x, y, z, FieldsOf(DerivedFill(f)));
  }

  lemma MatchesTelem(f: Data.TelemetryData)
    requires Representable(f)
    ensures Match(TELEM, Line(f)) == Some(Values(f))
  {
    LineFits(f);
    FilledText(f);
    FilledPattern(f);
    FilledValues(f);
    MatchesFilled(LineFilled(f));
  }

  // ---------------------------------------------------------------- the values read

  datatype Telemetry = Telemetry(
    timestamp: nat, temperature: int, ax: int, ay: int, az: int,
    speed: nat, rpm: nat, throttle: nat, faultCode: nat, valid: bool)

  /** Reading a line: decimals in tenths or hundredths, the fault in hexadecimal. */
  function ReadTelemetry(s: string): Option<Telemetry> {
    var m := Match(TELEM, s);
    if m.None? || |m.value| != 10 then None
    else
      var g := m.value;
      Some(Telemetry(ReadUnsigned(g[0]), ReadSigned(g[1]), ReadSigned(g[2]), ReadSigned(g[3]), ReadSigned(g[4]),
                     ReadUnsigned(g[5]), ReadUnsigned(g[6]), ReadUnsigned(g[7]), NumberIn(g[8], 16), g[9] == "1"))
  }

  lemma FlagReads(valid: bool)
    ensures Texts.Decimal(if valid then 1 else 0) == "1" <==> valid
  {
  }

  /** Every line reads back as its frame, but for the sign of a temperature strictly
      between -1.0 and 0 and of accelerations strictly between -1.00 and 0. */
  lemma LineReadsBack(f: Data.TelemetryData)
    requires Representable(f)
    ensures ReadTelemetry(Line(f)) == Some(Telemetry(
      f.timestamp, SeenTenths(f.sensor.temperature),
      Seen(f.sensor.ax), Seen(f.sensor.ay), Seen(f.sensor.az),
      f.speed, f.rpm, f.throttle, f.faultCode, f.valid))
  {
    MatchesTelem(f);
    ReadDecimal(f.timestamp);
    ReadTenths(f.sensor.temperature);
    ReadHundredths(f.sensor.ax);
    ReadHundredths(f.sensor.ay);
    ReadHundredths(f.sensor.az);
    ReadTenths(f.speed);
    ReadDecimal(f.rpm);
    ReadTenths(f.throttle);
    HexByteReads(f.faultCode);
    FlagReads(f.valid);
  }
}
