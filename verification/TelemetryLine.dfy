/** The telemetry line of the STM32 build, and the pattern that reads it back
    from a log. */
module TelemetryLine {
  import opened CTypes
  import opened Format
  import opened FirmwareData
  import Console

  // ---------------------------------------------------------------- the line

  // The format string, from its last piece to its first.
  const F_TICK := " tick=" + ("%lu" + "\n")
  const F_VALID := " valid=" + ("%s" + F_TICK)
  const F_THROTTLE := " thr=" + ("%u.%u" + ("%%" + F_VALID))
  const F_RPM := "km/h rpm=" + ("%u" + F_THROTTLE)
  const F_SPEED := " spd=" + ("%u.%u" + F_RPM)
  const F_AZ := " az=" + ("%d.%02d" + F_SPEED)
  const F_AY := " ay=" + ("%d.%02d" + F_AZ)
  const F_AX := "C ax=" + ("%d.%02d" + F_AY)
  const F_TEMP := " temp=" + ("%d.%d" + F_AX)
  const FORMAT := "[telemetry] seq=" + ("%lu" + F_TEMP)

  function YesNo(b: bool): string {
    if b then "yes" else "no"
  }

  function TenthsArgs(x: int): seq<Arg> {
    [IntArg(Quot(x, 10)), IntArg(if x < 0 then Rem(-x, 10) else Rem(x, 10))]
  }

  function HundredthsArgs(x: int): seq<Arg> {
    [IntArg(Quot(x, 100)), IntArg(Abs(Rem(x, 100)))]
  }

  function UnsignedTenthsArgs(x: nat): seq<Arg> {
    [UintArg(x / 10), UintArg(x % 10)]
  }

  // The arguments, in the same order.
  function ValidArgs(f: TelemetryFrame): seq<Arg> {
    [StrArg(Some(YesNo(f.valid)))] + ([UlongArg(f.tick)] + [])
  }

  function SpeedArgs(f: TelemetryFrame): seq<Arg> {
    UnsignedTenthsArgs(f.speed) + ([UintArg(f.rpm)] + (UnsignedTenthsArgs(f.throttle) + ValidArgs(f)))
  }

  function AccelArgs(f: TelemetryFrame): seq<Arg> {
    HundredthsArgs(f.payload.ax)
    + (HundredthsArgs(f.payload.ay) + (HundredthsArgs(f.payload.az) + SpeedArgs(f)))
  }

  function LineArgs(f: TelemetryFrame): seq<Arg> {
    [UlongArg(f.sequence)] + (TenthsArgs(f.payload.temperature) + AccelArgs(f))
  }

  // The texts of the fields.
  function Decimal(n: nat): string {
    Digits(n, 10, false)
  }

  function SignedDecimal(i: int): string {
    if i < 0 then "-" + Decimal(-i) else Decimal(i)
  }

  function TwoDigits(n: nat): string {
    Field(Decimal(n), 2, false, '0')
  }

  function TenthsText(x: int): string {
    SignedDecimal(Quot(x, 10)) + "." + Decimal(Abs(x) % 10)
  }

  function HundredthsText(x: int): string {
    SignedDecimal(Quot(x, 100)) + "." + TwoDigits(Abs(x) % 100)
  }

  // ---------------------------------------------------------------- how the console prints it

  /** Ordinary text before the next conversion is printed as it is. */
  lemma {:induction false} Literal(text: string, rest: string, args: seq<Arg>)
    requires '%' !in text
    ensures ConsoleFormat(text + rest, args) == Prepend(text, ConsoleFormat(rest, args))
    decreases |text|
  {
    if text == [] {
      assert text + rest == rest;
      var whole := ConsoleFormat(rest, args);
      assert whole.Some? ==> [] + whole.value == whole.value;
    } else {
      assert (text + rest)[1..] == text[1..] + rest;
      Literal(text[1..], rest, args);
      PrependTwice([text[0]], text[1..], ConsoleFormat(rest, args));
      assert [text[0]] + text[1..] == text;
    }
  }

  lemma UlongPiece(rest: string, n: nat, args: seq<Arg>)
    requires n < TWO_TO_32
    ensures ConsoleFormat("%lu" + rest, [UlongArg(n)] + args) == Prepend(Decimal(n), ConsoleFormat(rest, args))
  {
    var fmt := "%lu" + rest;
    assert fmt[1..] == "lu" + rest;
    assert ("lu" + rest)[1..] == "u" + rest;
    assert ("u" + rest)[1..] == rest;
    assert ([UlongArg(n)] + args)[1..] == args;
    assert Repeat(' ', 0 - |Decimal(n)|) + Decimal(n) == Decimal(n);
  }

  lemma UintPiece(rest: string, n: nat, args: seq<Arg>)
    requires n < TWO_TO_32
    ensures ConsoleFormat("%u" + rest, [UintArg(n)] + args) == Prepend(Decimal(n), ConsoleFormat(rest, args))
  {
    var fmt := "%u" + rest;
    assert fmt[1..] == "u" + rest;
    assert ("u" + rest)[1..] == rest;
    assert ([UintArg(n)] + args)[1..] == args;
    assert Repeat(' ', 0 - |Decimal(n)|) + Decimal(n) == Decimal(n);
  }

  lemma IntPiece(rest: string, i: int, args: seq<Arg>)
    requires -TWO_TO_31 < i < TWO_TO_31
    ensures ConsoleFormat("%d" + rest, [IntArg(i)] + args) == Prepend(SignedDecimal(i), ConsoleFormat(rest, args))
  {
    var fmt := "%d" + rest;
    assert fmt[1..] == "d" + rest;
    assert ("d" + rest)[1..] == rest;
    assert ([IntArg(i)] + args)[1..] == args;
    var n := Abs(i);
    assert Repeat(' ', 0 - |Decimal(n)|) + Decimal(n) == Decimal(n);
  }

  lemma TwoDigitPiece(rest: string, n: nat, args: seq<Arg>)
    requires n < 100
    ensures ConsoleFormat("%02d" + rest, [IntArg(n)] + args) == Prepend(TwoDigits(n), ConsoleFormat(rest, args))
  {
    var fmt := "%02d" + rest;
    assert fmt[1..] == "02d" + rest;
    assert ("02d" + rest)[1..] == "2d" + rest;
    assert ("2d" + rest)[1..] == "d" + rest;
    assert ScanWidth("d" + rest, 2) == Scan(2, "d" + rest);
    assert ScanWidth("2d" + rest, 0) == Scan(2, "d" + rest);
    assert ("d" + rest)[1..] == rest;
    assert ([IntArg(n)] + args)[1..] == args;
  }

  lemma StringPiece(rest: string, s: string, args: seq<Arg>)
    requires NUL !in s
    ensures ConsoleFormat("%s" + rest, [StrArg(Some(s))] + args) == Prepend(s, ConsoleFormat(rest, args))
  {
    var fmt := "%s" + rest;
    assert fmt[1..] == "s" + rest;
    assert ("s" + rest)[1..] == rest;
    assert ([StrArg(Some(s))] + args)[1..] == args;
  }

  lemma PercentPiece(rest: string, args: seq<Arg>)
    ensures ConsoleFormat("%%" + rest, args) == Prepend("%", ConsoleFormat(rest, args))
  {
    var fmt := "%%" + rest;
    assert fmt[1..] == "%" + rest;
    assert ("%" + rest)[1..] == rest;
  }

  lemma PrependTwice(a: string, b: string, rest: Option<string>)
    ensures Prepend(a, Prepend(b, rest)) == Prepend(a + b, rest)
  {
    if rest.Some? {
      assert a + (b + rest.value) == (a + b) + rest.value;
    }
  }

  lemma TenthsPiece(rest: string, x: int, args: seq<Arg>)
    requires -0x8000 <= x < 0x8000
    ensures ConsoleFormat("%d.%d" + rest, TenthsArgs(x) + args) == Prepend(TenthsText(x), ConsoleFormat(rest, args))
  {
    var part := if x < 0 then Rem(-x, 10) else Rem(x, 10);
    assert part == Abs(x) % 10;
    assert "%d.%d" + rest == "%d" + ("." + ("%d" + rest));
    assert TenthsArgs(x) + args == [IntArg(Quot(x, 10))] + ([IntArg(part)] + args);
    IntPiece("." + ("%d" + rest), Quot(x, 10), [IntArg(part)] + args);
    Literal(".", "%d" + rest, [IntArg(part)] + args);
    IntPiece(rest, part, args);
    var whole := SignedDecimal(Quot(x, 10));
    PrependTwice(".", Decimal(part), ConsoleFormat(rest, args));
    PrependTwice(whole, "." + Decimal(part), ConsoleFormat(rest, args));
    assert whole + ("." + Decimal(part)) == TenthsText(x);
  }

  lemma HundredthsPiece(rest: string, x: int, args: seq<Arg>)
    requires -0x8000 <= x < 0x8000
    ensures ConsoleFormat("%d.%02d" + rest, HundredthsArgs(x) + args)
         == Prepend(HundredthsText(x), ConsoleFormat(rest, args))
  {
    var part := Abs(Rem(x, 100));
    assert part == Abs(x) % 100;
    assert "%d.%02d" + rest == "%d" + ("." + ("%02d" + rest));
    assert HundredthsArgs(x) + args == [IntArg(Quot(x, 100))] + ([IntArg(part)] + args);
    IntPiece("." + ("%02d" + rest), Quot(x, 100), [IntArg(part)] + args);
    Literal(".", "%02d" + rest, [IntArg(part)] + args);
    TwoDigitPiece(rest, part, args);
    var whole := SignedDecimal(Quot(x, 100));
    PrependTwice(".", TwoDigits(part), ConsoleFormat(rest, args));
    PrependTwice(whole, "." + TwoDigits(part), ConsoleFormat(rest, args));
    assert whole + ("." + TwoDigits(part)) == HundredthsText(x);
  }

  lemma UnsignedTenthsPiece(rest: string, x: U16, args: seq<Arg>)
    ensures ConsoleFormat("%u.%u" + rest, UnsignedTenthsArgs(x) + args)
         == Prepend(TenthsText(x), ConsoleFormat(rest, args))
  {
    assert "%u.%u" + rest == "%u" + ("." + ("%u" + rest));
    assert UnsignedTenthsArgs(x) + args == [UintArg(x / 10)] + ([UintArg(x % 10)] + args);
    UintPiece("." + ("%u" + rest), x / 10, [UintArg(x % 10)] + args);
    Literal(".", "%u" + rest, [UintArg(x % 10)] + args);
    UintPiece(rest, x % 10, args);
    PrependTwice(".", Decimal(x % 10), ConsoleFormat(rest, args));
    PrependTwice(Decimal(x / 10), "." + Decimal(x % 10), ConsoleFormat(rest, args));
    assert Decimal(x / 10) + ("." + Decimal(x % 10)) == TenthsText(x);
  }

  // The line, from its last piece to its first.
  function TickText(f: TelemetryFrame): string {
    " tick=" + (Decimal(f.tick) + "\n")
  }

  function ValidText(f: TelemetryFrame): string {
    " valid=" + (YesNo(f.valid) + TickText(f))
  }

  function ThrottleText(f: TelemetryFrame): string {
    " thr=" + (TenthsText(f.throttle) + ("%" + ValidText(f)))
  }

  function RpmText(f: TelemetryFrame): string {
    "km/h rpm=" + (Decimal(f.rpm) + ThrottleText(f))
  }

  function SpeedText(f: TelemetryFrame): string {
    " spd=" + (TenthsText(f.speed) + RpmText(f))
  }

  function AzText(f: TelemetryFrame): string {
    " az=" + (HundredthsText(f.payload.az) + SpeedText(f))
  }

  function AyText(f: TelemetryFrame): string {
    " ay=" + (HundredthsText(f.payload.ay) + AzText(f))
  }

  function AxText(f: TelemetryFrame): string {
    "C ax=" + (HundredthsText(f.payload.ax) + AyText(f))
  }

  function TempText(f: TelemetryFrame): string {
    " temp=" + (TenthsText(f.payload.temperature) + AxText(f))
  }

  function Line(f: TelemetryFrame): string {
    "[telemetry] seq=" + (Decimal(f.sequence) + TempText(f))
  }

  lemma PrintsEnd(f: TelemetryFrame)
    ensures ConsoleFormat(F_VALID, ValidArgs(f)) == Some(ValidText(f))
  {
    var tick := [UlongArg(f.tick)] + [];
    Literal(" valid=", "%s" + F_TICK, ValidArgs(f));
    StringPiece(F_TICK, YesNo(f.valid), tick);
    Literal(" tick=", "%lu" + "\n", tick);
    UlongPiece("\n", f.tick, []);
    Literal("\n", "", []);
    assert "\n" + "" == "\n";
  }

  lemma PrintsDerived(f: TelemetryFrame)
    ensures ConsoleFormat(F_SPEED, SpeedArgs(f)) == Some(SpeedText(f))
  {
    var throttle := UnsignedTenthsArgs(f.throttle) + ValidArgs(f);
    var rpm := [UintArg(f.rpm)] + throttle;
    Literal(" spd=", "%u.%u" + F_RPM, SpeedArgs(f));
    UnsignedTenthsPiece(F_RPM, f.speed, rpm);
    Literal("km/h rpm=", "%u" + F_THROTTLE, rpm);
    UintPiece(F_THROTTLE, f.rpm, throttle);
    Literal(" thr=", "%u.%u" + ("%%" + F_VALID), throttle);
    UnsignedTenthsPiece("%%" + F_VALID, f.throttle, ValidArgs(f));
    PercentPiece(F_VALID, ValidArgs(f));
    PrintsEnd(f);
  }

  lemma PrintsAccel(f: TelemetryFrame)
    ensures ConsoleFormat(F_AX, AccelArgs(f)) == Some(AxText(f))
  {
    var az := HundredthsArgs(f.payload.az) + SpeedArgs(f);
    var ay := HundredthsArgs(f.payload.ay) + az;
    Literal("C ax=", "%d.%02d" + F_AY, AccelArgs(f));
    HundredthsPiece(F_AY, f.payload.ax, ay);
    Literal(" ay=", "%d.%02d" + F_AZ, ay);
    HundredthsPiece(F_AZ, f.payload.ay, az);
    Literal(" az=", "%d.%02d" + F_SPEED, az);
    HundredthsPiece(F_SPEED, f.payload.az, SpeedArgs(f));
    PrintsDerived(f);
  }

  /** What `prvPrintFrame` prints, for every frame. */
  lemma PrintsLine(f: TelemetryFrame)
    ensures ConsoleFormat(FORMAT, LineArgs(f)) == Some(Line(f))
  {
    var temp := TenthsArgs(f.payload.temperature) + AccelArgs(f);
    Literal("[telemetry] seq=", "%lu" + F_TEMP, LineArgs(f));
    UlongPiece(F_TEMP, f.sequence, temp);
    Literal(" temp=", "%d.%d" + F_AX, temp);
    TenthsPiece(F_AX, f.payload.temperature, AccelArgs(f));
    PrintsAccel(f);
  }

  // ---------------------------------------------------------------- its length

  lemma DecimalLength(n: nat, k: nat)
    requires k > 0 && n < Pow10(k)
    ensures 1 <= |Decimal(n)| <= k
  {
    DigitsLength(n, 10, false, k);
  }

  lemma SmallLengths(x: int)
    requires -0x8000 <= x < 0x1_0000
    ensures |TenthsText(x)| <= 7 && |HundredthsText(x)| <= 7
  {
    assert Pow10(1) == 10 && Pow10(2) == 100 && Pow10(3) == 1000 && Pow10(4) == 10000;
    DecimalLength(Abs(Quot(x, 10)), 4);
    DecimalLength(Abs(Quot(x, 100)), 3);
    DecimalLength(Abs(x) % 10, 1);
    DecimalLength(Abs(x) % 100, 2);
  }

  /** Every frame's line fits the 256-byte buffer with its terminator. */
  lemma LineFits(f: TelemetryFrame)
    ensures |Line(f)| < 256
  {
    assert Pow10(5) == 100_000 && Pow10(10) == 10_000_000_000;
    DecimalLength(f.sequence, 10);
    DecimalLength(f.tick, 10);
    DecimalLength(f.rpm, 5);
    SmallLengths(f.payload.temperature);
    SmallLengths(f.payload.ax);
    SmallLengths(f.payload.ay);
    SmallLengths(f.payload.az);
    SmallLengths(f.speed);
    SmallLengths(f.throttle);
    assert |ThrottleText(f)| <= 5 + 7 + 1 + 7 + 3 + 6 + 10 + 1;
    assert |AzText(f)| <= 4 + 7 + 5 + 7 + 9 + 5 + 40;
  }

  /** `prvPrintFrame`: the whole line is left in the buffer. */
  method PrintFrame(f: TelemetryFrame, buf: array<char>) returns (used: nat)
    requires buf.Length == 256
    modifies buf
    ensures used == |Line(f)| < buf.Length
    ensures buf[..used] == Line(f) && buf[used] == NUL
  {
    PrintsLine(f);
    LineFits(f);
    used := Console.ConsoleWritef(buf, FORMAT, LineArgs(f));
  }
}
