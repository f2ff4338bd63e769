/** The telemetry line of the lm3s build. */
module Lm3sLine {
  import opened CTypes
  import opened Format
  import opened MiniPrintf
  import Data = Lm3sData
  import Texts = TelemetryLine

  const LINE_SIZE := 200

  // The format string, from its last piece to its first.
  const F_VALID := " valid=" + ("%d" + "\r\n")
  const F_FAULT := " fault=0x" + ("%02X" + F_VALID)
  const F_THROTTLE := " thr=" + ("%u.%u" + ("%%" + F_FAULT))
  const F_RPM := "km/h rpm=" + ("%u" + F_THROTTLE)
  const F_SPEED := " spd=" + ("%u.%u" + F_RPM)
  const F_AZ := " az=" + ("%d.%02d" + F_SPEED)
  const F_AY := " ay=" + ("%d.%02d" + F_AZ)
  const F_AX := "C ax=" + ("%d.%02d" + F_AY)
  const F_TEMP := " temp=" + ("%d.%d" + F_AX)
  const FORMAT := "[TELEM] ts=" + ("%lu" + F_TEMP)

  /** The fields the frame's C types can hold. */
  predicate Representable(f: Data.TelemetryData) {
    && 0 <= f.speed < TWO_TO_16 && 0 <= f.rpm < TWO_TO_16 && 0 <= f.throttle < TWO_TO_16
    && 0 <= f.faultCode < 256
  }

  function FixedArgs(x: int, scale: int): seq<Arg>
    requires scale > 0
  {
    [IntArg(Quot(x, scale)), IntArg(if x < 0 then -Rem(x, scale) else Rem(x, scale))]
  }

  function EndArgs(f: Data.TelemetryData): seq<Arg>
    requires Representable(f)
  {
    Texts.UnsignedTenthsArgs(f.throttle)
    + ([UintArg(f.faultCode)] + ([IntArg(if f.valid then 1 else 0)] + []))
  }

  function MiddleArgs(f: Data.TelemetryData): seq<Arg>
    requires Representable(f)
  {
    FixedArgs(f.sensor.az, 100) + (Texts.UnsignedTenthsArgs(f.speed) + ([UintArg(f.rpm)] + EndArgs(f)))
  }

  function LineArgs(f: Data.TelemetryData): seq<Arg>
    requires Representable(f)
  {
    [UlongArg(f.timestamp)]
    + (FixedArgs(f.sensor.temperature, 10)
       + (FixedArgs(f.sensor.ax, 100) + (FixedArgs(f.sensor.ay, 100) + MiddleArgs(f))))
  }

  function HexByte(n: nat): string {
    Field(Digits(n, 16, true), 2, false, '0')
  }

  function EndText(f: Data.TelemetryData): string
    requires Representable(f)
  {
    " thr=" + (Texts.TenthsText(f.throttle)
               + ("%" + (" fault=0x" + (HexByte(f.faultCode)
                         + (" valid=" + (Texts.Decimal(if f.valid then 1 else 0) + "\r\n"))))))
  }

  function MiddleText(f: Data.TelemetryData): string
    requires Representable(f)
  {
    " az=" + (Texts.HundredthsText(f.sensor.az)
              + (" spd=" + (Texts.TenthsText(f.speed) + ("km/h rpm=" + (Texts.Decimal(f.rpm) + EndText(f))))))
  }

  function AccelText(f: Data.TelemetryData): string
    requires Representable(f)
  {
    "C ax=" + (Texts.HundredthsText(f.sensor.ax) + (" ay=" + (Texts.HundredthsText(f.sensor.ay) + MiddleText(f))))
  }

  function Line(f: Data.TelemetryData): string
    requires Representable(f)
  {
    "[TELEM] ts=" + (Texts.Decimal(f.timestamp)
                     + (" temp=" + (Texts.TenthsText(f.sensor.temperature) + AccelText(f))))
  }

  // ---------------------------------------------------------------- how it is printed

  lemma {:induction false} Literal(text: string, rest: string, args: seq<Arg>)
    requires '%' !in text
    ensures MiniFormat(text + rest, args) == Prepend(text, MiniFormat(rest, args))
    decreases |text|
  {
    var whole := MiniFormat(rest, args);
    if text == [] {
      assert text + rest == rest;
      assert whole.Some? ==> [] + whole.value == whole.value;
    } else {
      assert (text + rest)[1..] == text[1..] + rest;
      Literal(text[1..], rest, args);
      Texts.PrependTwice([text[0]], text[1..], whole);
      assert [text[0]] + text[1..] == text;
    }
  }

  /** A conversion without flags, width or precision. */
  lemma PlainPiece(conv: char, rest: string, arg: Arg, args: seq<Arg>, text: string)
    requires conv in {'d', 'u'}
    requires RenderMini(Spec(false, false, 0, -1, false, conv, rest), [arg] + args) == Some(Piece(text, args))
    ensures MiniFormat(['%', conv] + rest, [arg] + args) == Prepend(text, MiniFormat(rest, args))
  {
    var fmt := ['%', conv] + rest;
    assert fmt[1..] == [conv] + rest;
    assert ([conv] + rest)[1..] == rest;
  }

  lemma IntPiece(rest: string, i: int, args: seq<Arg>)
    requires -TWO_TO_31 < i < TWO_TO_31
    ensures MiniFormat("%d" + rest, [IntArg(i)] + args) == Prepend(Texts.SignedDecimal(i), MiniFormat(rest, args))
  {
    var n := if i < 0 then -i else i;
    assert ([IntArg(i)] + args)[1..] == args;
    assert Repeat(' ', 0 - |Texts.Decimal(n)|) + Texts.Decimal(n) == Texts.Decimal(n);
    PlainPiece('d', rest, IntArg(i), args, Texts.SignedDecimal(i));
  }

  lemma UintPiece(rest: string, n: nat, args: seq<Arg>)
    requires n < TWO_TO_32
    ensures MiniFormat("%u" + rest, [UintArg(n)] + args) == Prepend(Texts.Decimal(n), MiniFormat(rest, args))
  {
    assert ([UintArg(n)] + args)[1..] == args;
    assert Repeat(' ', 0 - |Texts.Decimal(n)|) + Texts.Decimal(n) == Texts.Decimal(n);
    PlainPiece('u', rest, UintArg(n), args, Texts.Decimal(n));
  }

  lemma UlongPiece(rest: string, n: nat, args: seq<Arg>)
    requires n < TWO_TO_32
    ensures MiniFormat("%lu" + rest, [UlongArg(n)] + args) == Prepend(Texts.Decimal(n), MiniFormat(rest, args))
  {
    var fmt := "%lu" + rest;
    assert fmt[1..] == "lu" + rest;
    assert ("lu" + rest)[1..] == "u" + rest;
    assert ("u" + rest)[1..] == rest;
    assert ([UlongArg(n)] + args)[1..] == args;
    assert Repeat(' ', 0 - |Texts.Decimal(n)|) + Texts.Decimal(n) == Texts.Decimal(n);
  }

  /** A conversion with the flags "02". */
  lemma PaddedPiece(conv: char, rest: string, arg: Arg, args: seq<Arg>, text: string)
    requires conv in {'d', 'X'}
    requires RenderMini(Spec(false, true, 2, -1, false, conv, rest), [arg] + args) == Some(Piece(text, args))
    ensures MiniFormat("%02" + ([conv] + rest), [arg] + args) == Prepend(text, MiniFormat(rest, args))
  {
    var fmt := "%02" + ([conv] + rest);
    var tail := [conv] + rest;
    assert fmt[1..] == "02" + tail;
    assert ("02" + tail)[1..] == "2" + tail;
    assert ("2" + tail)[1..] == tail;
    assert ScanNumber(tail, 2) == Scan(2, tail);
    assert ScanNumber("2" + tail, 0) == Scan(2, tail);
    assert tail[1..] == rest;
  }

  lemma TwoDigitPiece(rest: string, n: nat, args: seq<Arg>)
    requires n < 100
    ensures MiniFormat("%02d" + rest, [IntArg(n)] + args) == Prepend(Texts.TwoDigits(n), MiniFormat(rest, args))
  {
    assert ([IntArg(n)] + args)[1..] == args;
    assert "%02d" + rest == "%02" + (['d'] + rest);
    PaddedPiece('d', rest, IntArg(n), args, Texts.TwoDigits(n));
  }

  lemma HexPiece(rest: string, n: nat, args: seq<Arg>)
    requires n < 256
    ensures MiniFormat("%02X" + rest, [UintArg(n)] + args) == Prepend(HexByte(n), MiniFormat(rest, args))
  {
    assert ([UintArg(n)] + args)[1..] == args;
    assert "%02X" + rest == "%02" + (['X'] + rest);
    PaddedPiece('X', rest, UintArg(n), args, HexByte(n));
  }

  lemma PercentParses(rest: string)
    ensures ParseMini("%" + rest) == Some(Spec(false, false, 0, -1, false, '%', rest))
  {
    assert ("%" + rest)[1..] == rest;
  }

  lemma PercentPiece(rest: string, args: seq<Arg>)
    ensures MiniFormat("%%" + rest, args) == Prepend("%", MiniFormat(rest, args))
  {
    PercentParses(rest);
    assert ("%%" + rest)[1..] == "%" + rest;
    assert RenderMini(Spec(false, false, 0, -1, false, '%', rest), args) == Some(Piece("%", args));
  }

  lemma TenthsPiece(rest: string, x: int, args: seq<Arg>)
    requires -0x8000 <= x < 0x8000
    ensures MiniFormat("%d.%d" + rest, FixedArgs(x, 10) + args) == Prepend(Texts.TenthsText(x), MiniFormat(rest, args))
  {
    var part := if x < 0 then -Rem(x, 10) else Rem(x, 10);
    var whole := Texts.SignedDecimal(Quot(x, 10));
    assert "%d.%d" + rest == "%d" + ("." + ("%d" + rest));
    assert FixedArgs(x, 10) + args == [IntArg(Quot(x, 10))] + ([IntArg(part)] + args);
    IntPiece("." + ("%d" + rest), Quot(x, 10), [IntArg(part)] + args);
    Literal(".", "%d" + rest, [IntArg(part)] + args);
    IntPiece(rest, part, args);
    Texts.PrependTwice(".", Texts.Decimal(part), MiniFormat(rest, args));
    Texts.PrependTwice(whole, "." + Texts.Decimal(part), MiniFormat(rest, args));
    assert whole + ("." + Texts.Decimal(part)) == Texts.TenthsText(x);
  }

  lemma HundredthsPiece(rest: string, x: int, args: seq<Arg>)
    requires -0x8000 <= x < 0x8000
    ensures MiniFormat("%d.%02d" + rest, FixedArgs(x, 100) + args)
         == Prepend(Texts.HundredthsText(x), MiniFormat(rest, args))
  {
    var part := if x < 0 then -Rem(x, 100) else Rem(x, 100);
    var whole := Texts.SignedDecimal(Quot(x, 100));
    assert "%d.%02d" + rest == "%d" + ("." + ("%02d" + rest));
    assert FixedArgs(x, 100) + args == [IntArg(Quot(x, 100))] + ([IntArg(part)] + args);
    IntPiece("." + ("%02d" + rest), Quot(x, 100), [IntArg(part)] + args);
    Literal(".", "%02d" + rest, [IntArg(part)] + args);
    TwoDigitPiece(rest, part, args);
    Texts.PrependTwice(".", Texts.TwoDigits(part), MiniFormat(rest, args));
    Texts.PrependTwice(whole, "." + Texts.TwoDigits(part), MiniFormat(rest, args));
    assert whole + ("." + Texts.TwoDigits(part)) == Texts.HundredthsText(x);
  }

  lemma UnsignedTenthsPiece(rest: string, x: nat, args: seq<Arg>)
    requires x < TWO_TO_16
    ensures MiniFormat("%u.%u" + rest, Texts.UnsignedTenthsArgs(x) + args)
         == Prepend(Texts.TenthsText(x), MiniFormat(rest, args))
  {
    assert "%u.%u" + rest == "%u" + ("." + ("%u" + rest));
    assert Texts.UnsignedTenthsArgs(x) + args == [UintArg(x / 10)] + ([UintArg(x % 10)] + args);
    UintPiece("." + ("%u" + rest), x / 10, [UintArg(x % 10)] + args);
    Literal(".", "%u" + rest, [UintArg(x % 10)] + args);
    UintPiece(rest, x % 10, args);
    Texts.PrependTwice(".", Texts.Decimal(x % 10), MiniFormat(rest, args));
    Texts.PrependTwice(Texts.Decimal(x / 10), "." + Texts.Decimal(x % 10), MiniFormat(rest, args));
    assert Texts.Decimal(x / 10) + ("." + Texts.Decimal(x % 10)) == Texts.TenthsText(x);
  }

  lemma PrintsEnd(f: Data.TelemetryData)
    requires Representable(f)
    ensures MiniFormat(F_THROTTLE, EndArgs(f)) == Some(EndText(f))
  {
    var valid := [IntArg(if f.valid then 1 else 0)] + [];
    var fault := [UintArg(f.faultCode)] + valid;
    Literal(" thr=", "%u.%u" + ("%%" + F_FAULT), EndArgs(f));
    UnsignedTenthsPiece("%%" + F_FAULT, f.throttle, fault);
    PercentPiece(F_FAULT, fault);
    Literal(" fault=0x", "%02X" + F_VALID, fault);
    HexPiece(F_VALID, f.faultCode, valid);
    Literal(" valid=", "%d" + "\r\n", valid);
    IntPiece("\r\n", if f.valid then 1 else 0, []);
    Literal("\r\n", "", []);
    assert "\r\n" + "" == "\r\n";
  }

  lemma PrintsMiddle(f: Data.TelemetryData)
    requires Representable(f)
    ensures MiniFormat(F_AZ, MiddleArgs(f)) == Some(MiddleText(f))
  {
    var rpm := [UintArg(f.rpm)] + EndArgs(f);
    var speed := Texts.UnsignedTenthsArgs(f.speed) + rpm;
    Literal(" az=", "%d.%02d" + F_SPEED, MiddleArgs(f));
    HundredthsPiece(F_SPEED, f.sensor.az, speed);
    Literal(" spd=", "%u.%u" + F_RPM, speed);
    UnsignedTenthsPiece(F_RPM, f.speed, rpm);
    Literal("km/h rpm=", "%u" + F_THROTTLE, rpm);
    UintPiece(F_THROTTLE, f.rpm, EndArgs(f));
    PrintsEnd(f);
  }

  lemma PrintsAccel(f: Data.TelemetryData)
    requires Representable(f)
    ensures MiniFormat(F_AX, FixedArgs(f.sensor.ax, 100) + (FixedArgs(f.sensor.ay, 100) + MiddleArgs(f)))
         == Some(AccelText(f))
  {
    var ay := FixedArgs(f.sensor.ay, 100) + MiddleArgs(f);
    Literal("C ax=", "%d.%02d" + F_AY, FixedArgs(f.sensor.ax, 100) + ay);
    HundredthsPiece(F_AY, f.sensor.ax, ay);
    Literal(" ay=", "%d.%02d" + F_AZ, ay);
    HundredthsPiece(F_AZ, f.sensor.ay, MiddleArgs(f));
    PrintsMiddle(f);
  }

  /** What `telemetry_task` prints, for every frame. */
  lemma PrintsLine(f: Data.TelemetryData)
    requires Representable(f)
    ensures MiniFormat(FORMAT, LineArgs(f)) == Some(Line(f))
  {
    var ax := FixedArgs(f.sensor.ax, 100) + (FixedArgs(f.sensor.ay, 100) + MiddleArgs(f));
    var temp := FixedArgs(f.sensor.temperature, 10) + ax;
    Literal("[TELEM] ts=", "%lu" + F_TEMP, LineArgs(f));
    UlongPiece(F_TEMP, f.timestamp, temp);
    Literal(" temp=", "%d.%d" + F_AX, temp);
    TenthsPiece(F_AX, f.sensor.temperature, ax);
    PrintsAccel(f);
  }

  lemma EndFits(f: Data.TelemetryData)
    requires Representable(f)
    ensures |EndText(f)| <= 60
  {
    assert Pow10(1) == 10 && Pow10(3) == 1000;
    Texts.SmallLengths(f.throttle);
    DigitsLength(f.faultCode, 16, true, 3);
    Texts.DecimalLength(if f.valid then 1 else 0, 1);
  }

  /** Every line fits the 200-byte buffer with its terminator. */
  lemma LineFits(f: Data.TelemetryData)
    requires Representable(f)
    ensures |Line(f)| < 200
  {
    assert Pow10(5) == 100_000 && Pow10(10) == 10_000_000_000;
    EndFits(f);
    Texts.DecimalLength(f.timestamp, 10);
    Texts.DecimalLength(f.rpm, 5);
    Texts.SmallLengths(f.sensor.temperature);
    Texts.SmallLengths(f.sensor.ax);
    Texts.SmallLengths(f.sensor.ay);
    Texts.SmallLengths(f.sensor.az);
    Texts.SmallLengths(f.speed);
    assert |MiddleText(f)| <= 4 + 7 + 5 + 7 + 9 + 5 + 60;
  }

  lemma WholeTextStored(buf: seq<char>, before: seq<char>, size: nat, text: string)
    requires size <= |before| && |text| < size < TWO_TO_16
    requires Stored(buf, before, size, text)
    ensures |text| < |buf| && buf[..|text|] == text && buf[|text|] == NUL
    ensures ToI32(|text|) == |text|
  {
    assert text[..|text|] == text;
  }

  /** The body of `telemetry_task`: the whole line is in the buffer and its length
      is returned. */
  method PrintFrame(f: Data.TelemetryData, buf: array<char>) returns (length: int)
    requires buf.Length == 200 && Representable(f)
    modifies buf
    ensures length == |Line(f)| < buf.Length
    ensures buf[..length] == Line(f) && buf[length] == NUL
  {
    PrintsLine(f);
    LineFits(f);
    ghost var before := buf[..];
    length := MiniVsnprintf(buf, LINE_SIZE, FORMAT, LineArgs(f));
    WholeTextStored(buf[..], before, LINE_SIZE, Line(f));
  }
}
