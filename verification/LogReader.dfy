/** Reading telemetry lines back from a log, with the pattern of the log parser. */
module LogReader {
  import opened CTypes
  import opened Format
  import opened FirmwareData
  import opened TelemetryLine

  // ---------------------------------------------------------------- the pattern

  /** The character classes of the pattern: \d, [\d.], [-\d.] and \w. */
  datatype Class = Plain | Dotted | Signed | Word

  predicate InClass(c: char, cls: Class) {
    match cls
    case Plain => IsDigit(c)
    case Dotted => IsDigit(c) || c == '.'
    case Signed => IsDigit(c) || c == '.' || c == '-'
    case Word => IsDigit(c) || 'a' <= c <= 'z' || 'A' <= c <= 'Z' || c == '_'
  }

  /** A literal, a greedy nonempty group, and the rest of the pattern. */
  datatype Pattern = End | Group(literal: string, cls: Class, rest: Pattern)

  const P_TICK := Group(" tick=", Plain, End)
  const P_VALID := Group("% valid=", Word, P_TICK)
  const P_THROTTLE := Group(" thr=", Dotted, P_VALID)
  const P_RPM := Group("km/h rpm=", Plain, P_THROTTLE)
  const P_SPEED := Group(" spd=", Dotted, P_RPM)
  const P_AZ := Group(" az=", Signed, P_SPEED)
  const P_AY := Group(" ay=", Signed, P_AZ)
  const P_AX := Group("C ax=", Signed, P_AY)
  const FW_TELEM := PatternWith(Dotted)

  /** The pattern, with a class for its temperature. */
  function PatternWith(cls: Class): Pattern {
    Group("[telemetry] seq=", Plain, Group(" temp=", cls, P_AX))
  }

  function Span(s: string, cls: Class): (n: nat)
    ensures n <= |s|
  {
    if s != [] && InClass(s[0], cls) then 1 + Span(s[1..], cls) else 0
  }

  /** The groups of a match at the start of a line. Every literal starts with a
      character outside the class before it, so a greedy match never has to give
      characters back. */
  function Match(p: Pattern, s: string): Option<seq<string>> {
    if p == End then Some([])
    else if |s| < |p.literal| || s[..|p.literal|] != p.literal then None
    else
      var rest := s[|p.literal|..];
      var n := Span(rest, p.cls);
      var more := if n == 0 then None else Match(p.rest, rest[n..]);
      if more.None? then None else Some([rest[..n]] + more.value)
  }

  predicate AllIn(s: string, cls: Class) {
    forall c :: c in s ==> InClass(c, cls)
  }

  lemma {:induction false} SpanStops(field: string, tail: string, cls: Class)
    requires AllIn(field, cls)
    requires tail == [] || !InClass(tail[0], cls)
    ensures Span(field + tail, cls) == |field|
    decreases |field|
  {
    if field == [] {
      assert field + tail == tail;
    } else {
      assert (field + tail)[1..] == field[1..] + tail;
      SpanStops(field[1..], tail, cls);
    }
  }

  /** A pattern with its groups filled in, and what follows the match. */
  datatype Filled = Done(tail: string) | Fill(literal: string, cls: Class, field: string, rest: Filled)

  function TextOf(d: Filled): string {
    match d
    case Done(tail) => tail
    case Fill(literal, _, field, rest) => literal + (field + TextOf(rest))
  }

  function PatternOf(d: Filled): Pattern {
    match d
    case Done(_) => End
    case Fill(literal, cls, _, rest) => Group(literal, cls, PatternOf(rest))
  }

  function FieldsOf(d: Filled): seq<string> {
    match d
    case Done(_) => []
    case Fill(_, _, field, rest) => [field] + FieldsOf(rest)
  }

  /** Every field is nonempty, in its class, and ended by what follows it. */
  predicate Fits(d: Filled) {
    match d
    case Done(_) => true
    case Fill(_, cls, field, rest) =>
      && field != [] && AllIn(field, cls)
      && Ends(rest, cls)
      && Fits(rest)
  }

  predicate Ends(rest: Filled, cls: Class) {
    var s := if rest.Done? then rest.tail else rest.literal;
    if s == [] then rest.Done? else !InClass(s[0], cls)
  }

  /** One group reads exactly its field, and the match goes on after it. */
  lemma ReadsField(p: Pattern, field: string, tail: string)
    requires p != End && field != [] && AllIn(field, p.cls)
    requires tail == [] || !InClass(tail[0], p.cls)
    ensures Match(p, p.literal + (field + tail))
      == if Match(p.rest, tail).None? then None else Some([field] + Match(p.rest, tail).value)
  {
    var s := p.literal + (field + tail);
    assert s[..|p.literal|] == p.literal;
    assert s[|p.literal|..] == field + tail;
    SpanStops(field, tail, p.cls);
    assert (field + tail)[..|field|] == field && (field + tail)[|field|..] == tail;
  }

  lemma EndsInText(rest: Filled, cls: Class)
    requires Ends(rest, cls)
    ensures TextOf(rest) == [] || !InClass(TextOf(rest)[0], cls)
  {
  }

  /** The pattern reads back exactly the fields it was filled with. */
  lemma {:induction false} MatchesFilled(d: Filled)
    requires Fits(d)
    ensures Match(PatternOf(d), TextOf(d)) == Some(FieldsOf(d))
  {
    match d
    case Done(_) =>
    case Fill(literal, cls, field, rest) =>
      MatchesFilled(rest);
      EndsInText(rest, cls);
      ReadsField(PatternOf(d), field, TextOf(rest));
  }

  // ---------------------------------------------------------------- the fields of a line

  lemma DecimalIsPlain(n: nat)
    ensures AllIn(Decimal(n), Plain)
    ensures Value(Decimal(n)) == n
  {
    ValueOfDigits(n, false);
  }

  /** Signs appear where the code prints them: before values of -10 and below in
      tenths, of -100 and below in hundredths. */
  lemma FieldClasses(x: int)
    ensures TenthsText(x) != [] && AllIn(TenthsText(x), Signed)
    ensures if x > -10 then AllIn(TenthsText(x), Dotted) else TenthsText(x)[0] == '-'
    ensures HundredthsText(x) != [] && AllIn(HundredthsText(x), Signed)
  {
    DecimalIsPlain(Abs(Quot(x, 10)));
    DecimalIsPlain(Abs(Quot(x, 100)));
    DecimalIsPlain(Abs(x) % 10);
    DecimalIsPlain(Abs(x) % 100);
    RepeatIs('0', 2 - |Decimal(Abs(x) % 100)|);
  }

  // The line of a frame as the filled pattern, from its last group to its first.
  function TickFill(f: TelemetryFrame): Filled {
    Fill(" tick=", Plain, Decimal(f.tick), Done("\n"))
  }

  function ThrottleFill(f: TelemetryFrame): Filled {
    Fill(" thr=", Dotted, TenthsText(f.throttle), Fill("% valid=", Word, YesNo(f.valid), TickFill(f)))
  }

  function SpeedFill(f: TelemetryFrame): Filled {
    Fill(" spd=", Dotted, TenthsText(f.speed), Fill("km/h rpm=", Plain, Decimal(f.rpm), ThrottleFill(f)))
  }

  function AyFill(f: TelemetryFrame): Filled {
    Fill(" ay=", Signed, HundredthsText(f.payload.ay),
      Fill(" az=", Signed, HundredthsText(f.payload.az), SpeedFill(f)))
  }

  function TempFill(f: TelemetryFrame, cls: Class): Filled {
    Fill(" temp=", cls, TenthsText(f.payload.temperature),
      Fill("C ax=", Signed, HundredthsText(f.payload.ax), AyFill(f)))
  }

  function LineFill(f: TelemetryFrame, cls: Class): Filled {
    Fill("[telemetry] seq=", Plain, Decimal(f.sequence), TempFill(f, cls))
  }

  lemma DerivedFits(f: TelemetryFrame)
    ensures Fits(SpeedFill(f))
  {
    DecimalIsPlain(f.tick);
    DecimalIsPlain(f.rpm);
    FieldClasses(f.throttle);
    FieldClasses(f.speed);
    assert Fits(TickFill(f));
    assert Fits(ThrottleFill(f));
  }

  lemma MeasuredFits(f: TelemetryFrame)
    ensures Fits(AyFill(f))
  {
    FieldClasses(f.payload.ay);
    FieldClasses(f.payload.az);
    DerivedFits(f);
  }

  lemma LineFillFits(f: TelemetryFrame, cls: Class)
    requires cls == Signed || (cls == Dotted && f.payload.temperature > -10)
    ensures Fits(LineFill(f, cls))
  {
    DecimalIsPlain(f.sequence);
    FieldClasses(f.payload.temperature);
    FieldClasses(f.payload.ax);
    MeasuredFits(f);
    assert Fits(TempFill(f, cls));
  }

  lemma LineFillText(f: TelemetryFrame, cls: Class)
    ensures TextOf(LineFill(f, cls)) == Line(f)
    ensures TextOf(TempFill(f, cls)) == TempText(f)
  {
    assert TextOf(TickFill(f)) == TickText(f);
    assert TextOf(ThrottleFill(f)) == ThrottleText(f) by {
      assert "%" + ValidText(f) == "% valid=" + (YesNo(f.valid) + TickText(f));
    }
    assert TextOf(SpeedFill(f)) == SpeedText(f);
    assert TextOf(AyFill(f)) == AyText(f);
    assert TextOf(TempFill(f, cls)) == TempText(f);
  }

  lemma LineFillPattern(f: TelemetryFrame, cls: Class)
    ensures PatternOf(LineFill(f, cls)) == PatternWith(cls)
  {
    assert PatternOf(TickFill(f)) == P_TICK;
    assert PatternOf(ThrottleFill(f)) == P_THROTTLE;
    assert PatternOf(SpeedFill(f)) == P_SPEED;
    assert PatternOf(AyFill(f)) == P_AY;
    assert PatternOf(TempFill(f, cls)) == Group(" temp=", cls, P_AX);
  }

  /** The groups the pattern finds in a frame's line. */
  function Groups(f: TelemetryFrame): seq<string> {
    [Decimal(f.sequence), TenthsText(f.payload.temperature),
     HundredthsText(f.payload.ax), HundredthsText(f.payload.ay), HundredthsText(f.payload.az),
     TenthsText(f.speed), Decimal(f.rpm), TenthsText(f.throttle), YesNo(f.valid), Decimal(f.tick)]
  }

  lemma DerivedFields(f: TelemetryFrame)
    ensures FieldsOf(SpeedFill(f))
      == [TenthsText(f.speed), Decimal(f.rpm), TenthsText(f.throttle), YesNo(f.valid), Decimal(f.tick)]
  {
    assert FieldsOf(TickFill(f)) == [Decimal(f.tick)];
    assert FieldsOf(ThrottleFill(f)) == [TenthsText(f.throttle), YesNo(f.valid), Decimal(f.tick)];
  }

  lemma FieldsOfTwo(first: string, cls: Class, a: string, second: string, cls2: Class, b: string, rest: Filled)
    ensures FieldsOf(Fill(first, cls, a, Fill(second, cls2, b, rest))) == [a, b] + FieldsOf(rest)
  {
    assert FieldsOf(Fill(second, cls2, b, rest)) == [b] + FieldsOf(rest);
    assert [a] + ([b] + FieldsOf(rest)) == [a, b] + FieldsOf(rest);
  }

  lemma Regrouped(x: string, y: string, z: string, last: seq<string>)
    ensures [x] + ([y, z] + last) == [x, y, z] + last
  {
  }

  lemma MeasuredFields(f: TelemetryFrame, cls: Class)
    ensures FieldsOf(TempFill(f, cls))
      == [TenthsText(f.payload.temperature),
          HundredthsText(f.payload.ax), HundredthsText(f.payload.ay), HundredthsText(f.payload.az)]
         + FieldsOf(SpeedFill(f))
  {
    var temp, x := TenthsText(f.payload.temperature), HundredthsText(f.payload.ax);
    var y, z := HundredthsText(f.payload.ay), HundredthsText(f.payload.az);
    FieldsOfTwo(" ay=", Signed, y, " az=", Signed, z, SpeedFill(f));
    FieldsOfTwo(" temp=", cls, temp, "C ax=", Signed, x, AyFill(f));
    assert [temp, x] + ([y, z] + FieldsOf(SpeedFill(f))) == [temp, x, y, z] + FieldsOf(SpeedFill(f));
  }

  lemma LineFillFields(f: TelemetryFrame, cls: Class)
    ensures FieldsOf(LineFill(f, cls)) == Groups(f)
  {
    DerivedFields(f);
    MeasuredFields(f, cls);
  }

  /** With a class that admits its temperature, the pattern finds the ten fields
      of a line. */
  lemma MatchesWith(f: TelemetryFrame, cls: Class)
    requires cls == Signed || (cls == Dotted && f.payload.temperature > -10)
    ensures Match(PatternWith(cls), Line(f)) == Some(Groups(f))
  {
    LineFillFits(f, cls);
    LineFillText(f, cls);
    LineFillPattern(f, cls);
    LineFillFields(f, cls);
    MatchesFilled(LineFill(f, cls));
  }

  lemma SignNotMatched(temp: string, tail: string)
    requires temp != [] && temp[0] == '-'
    ensures Match(Group(" temp=", Dotted, P_AX), " temp=" + (temp + tail)).None?
  {
    var s := " temp=" + (temp + tail);
    assert s[..6] == " temp=" && s[6..] == temp + tail;
    assert Span(temp + tail, Dotted) == 0;
  }

  /** A temperature of -1.0 degrees or less carries a sign, which ends the match. */
  lemma SignEndsMatch(f: TelemetryFrame)
    requires f.payload.temperature <= -10
    ensures Match(FW_TELEM, Line(f)).None?
  {
    FieldClasses(f.payload.temperature);
    DecimalIsPlain(f.sequence);
    SignNotMatched(TenthsText(f.payload.temperature), AxText(f));
    ReadsField(FW_TELEM, Decimal(f.sequence), TempText(f));
  }

  /** The log pattern matches the line of a frame exactly when its temperature is
      above -1.0 degrees, and then finds its ten fields. */
  lemma MatchesLine(f: TelemetryFrame)
    ensures Match(FW_TELEM, Line(f)).Some? <==> f.payload.temperature > -10
    ensures f.payload.temperature > -10 ==> Match(FW_TELEM, Line(f)) == Some(Groups(f))
  {
    if f.payload.temperature > -10 {
      MatchesWith(f, Dotted);
    } else {
      SignEndsMatch(f);
    }
  }

  // ---------------------------------------------------------------- the numbers

  /** A decimal number without its point: "7.05" read as 705. */
  function ReadUnsigned(s: string): nat {
    var digits := WithoutPoint(s);
    if forall c :: c in digits ==> IsDigit(c) then Value(digits) else 0
  }

  function WithoutPoint(s: string): string {
    if s == [] then []
    else if s[0] == '.' then WithoutPoint(s[1..])
    else [s[0]] + WithoutPoint(s[1..])
  }

  function ReadSigned(s: string): int {
    if StartsWith(s, '-') then 0 - ReadUnsigned(s[1..]) else ReadUnsigned(s)
  }

  lemma {:induction false} WithoutPointSplit(a: string, b: string)
    requires '.' !in a && '.' !in b
    ensures WithoutPoint(a + "." + b) == a + b
    decreases |a|
  {
    if a == [] {
      assert ("." + b)[1..] == b;
      WithoutPointPlain(b);
    } else {
      var rest := a[1..] + "." + b;
      assert a + "." + b == [a[0]] + rest;
      WithoutPointSplit(a[1..], b);
      assert ([a[0]] + rest)[1..] == rest;
      assert [a[0]] + (a[1..] + b) == a + b;
    }
  }

  lemma {:induction false} WithoutPointPlain(s: string)
    requires '.' !in s
    ensures WithoutPoint(s) == s
    decreases |s|
  {
    if s != [] {
      WithoutPointPlain(s[1..]);
    }
  }

  lemma {:induction false} ValueAppend(a: string, b: string)
    requires AllIn(a, Plain) && AllIn(b, Plain)
    ensures AllIn(a + b, Plain)
    ensures Value(a + b) == Value(a) * Pow10(|b|) + Value(b)
    decreases |b|
  {
    if b == [] {
      assert a + b == a;
    } else {
      var n := |b| - 1;
      assert (a + b)[..|a + b| - 1] == a + b[..n];
      assert forall c :: c in b[..n] ==> c in b;
      ValueAppend(a, b[..n]);
      TenTimes(Value(a), Pow10(n));
    }
  }

  lemma TenTimes(a: int, b: int)
    ensures a * (10 * b) == 10 * (a * b)
  {
  }

  /** What a temperature reads back as: exact, but for the sign of values strictly
      between -10 and 0. */
  function SeenTenths(x: int): int {
    if -10 < x < 0 then -x else x
  }

  lemma ReadTenths(x: int)
    ensures ReadSigned(TenthsText(x)) == SeenTenths(x)
    ensures x >= 0 ==> ReadUnsigned(TenthsText(x)) == x
  {
    var whole, part := Abs(Quot(x, 10)), Abs(x) % 10;
    var a, b := Decimal(whole), Decimal(part);
    DecimalIsPlain(whole);
    DecimalIsPlain(part);
    WithoutPointSplit(a, b);
    ValueAppend(a, b);
    assert |b| == 1 && Pow10(1) == 10;
    assert Abs(x) == 10 * whole + part;
    assert ReadUnsigned(a + "." + b) == Abs(x);
    if x <= -10 {
      assert TenthsText(x) == "-" + (a + "." + b);
      assert TenthsText(x)[1..] == a + "." + b;
    } else {
      assert TenthsText(x) == a + "." + b;
      assert a[0] in a;
      assert IsDigit(a[0]);
    }
  }

  lemma TwoDigitsValue(n: nat)
    requires n < 100
    ensures |TwoDigits(n)| == 2 && AllIn(TwoDigits(n), Plain) && Value(TwoDigits(n)) == n
  {
    DecimalIsPlain(n);
    assert Pow10(1) == 10 && Pow10(2) == 100;
    DecimalLength(n, 2);
    if n < 10 {
      assert Decimal(n) == [DigitChar(n, false)];
      assert Repeat('0', 1) == "0";
      assert TwoDigits(n) == "0" + Decimal(n);
      assert Value("0") == 0 by { assert "0"[..0] == []; }
      ValueAppend("0", Decimal(n));
    } else {
      assert |Decimal(n)| == 2;
      assert Repeat('0', 0) + Decimal(n) == Decimal(n);
    }
  }

  /** What an acceleration reads back as: exact, but for the sign of values
      strictly between -100 and 0. */
  function Seen(a: int): int {
    if -100 < a < 0 then -a else a
  }

  lemma ReadHundredths(x: int)
    ensures ReadSigned(HundredthsText(x)) == Seen(x)
  {
    var whole, part := Abs(Quot(x, 100)), Abs(x) % 100;
    var a, b := Decimal(whole), TwoDigits(part);
    DecimalIsPlain(whole);
    TwoDigitsValue(part);
    WithoutPointSplit(a, b);
    ValueAppend(a, b);
    assert Pow10(2) == 100;
    assert Abs(x) == 100 * whole + part;
    assert ReadUnsigned(a + "." + b) == Abs(x);
    if x <= -100 {
      assert HundredthsText(x) == "-" + (a + "." + b);
      assert HundredthsText(x)[1..] == a + "." + b;
    } else {
      assert HundredthsText(x) == a + "." + b;
      assert a[0] in a;
      assert IsDigit(a[0]);
    }
  }

  datatype Reading = Reading(
    sequence: nat, temperature: int, ax: int, ay: int, az: int,
    speed: nat, rpm: nat, throttle: nat, valid: bool, tick: nat)

  function ReadWith(cls: Class, s: string): Option<Reading> {
    var m := Match(PatternWith(cls), s);
    if m.None? || |m.value| != 10 then None
    else
      var g := m.value;
      Some(Reading(ReadUnsigned(g[0]), ReadSigned(g[1]), ReadSigned(g[2]), ReadSigned(g[3]), ReadSigned(g[4]),
                   ReadUnsigned(g[5]), ReadUnsigned(g[6]), ReadUnsigned(g[7]), g[8] == "yes", ReadUnsigned(g[9])))
  }

  /** Reading a line with the log parser's pattern. */
  function ReadLine(s: string): Option<Reading> {
    ReadWith(Dotted, s)
  }

  /** The reading of a frame's line. */
  function SeenFrame(f: TelemetryFrame): Reading {
    Reading(f.sequence, SeenTenths(f.payload.temperature),
            Seen(f.payload.ax), Seen(f.payload.ay), Seen(f.payload.az),
            f.speed, f.rpm, f.throttle, f.valid, f.tick)
  }

  lemma ReadDecimal(n: nat)
    ensures ReadUnsigned(Decimal(n)) == n
  {
    DecimalIsPlain(n);
    WithoutPointPlain(Decimal(n));
  }

  lemma ReadsGroups(f: TelemetryFrame, cls: Class)
    requires Match(PatternWith(cls), Line(f)) == Some(Groups(f))
    ensures ReadWith(cls, Line(f)) == Some(SeenFrame(f))
  {
    ReadDecimal(f.sequence);
    ReadTenths(f.payload.temperature);
    ReadHundredths(f.payload.ax);
    ReadHundredths(f.payload.ay);
    ReadHundredths(f.payload.az);
    ReadTenths(f.speed);
    ReadDecimal(f.rpm);
    ReadTenths(f.throttle);
    ReadDecimal(f.tick);
  }

  /** The line of a frame reads back exactly when its temperature is above -1.0
      degrees: as the frame, but for the sign of a temperature between -1.0 and 0
      and of accelerations strictly between -100 and 0. */
  lemma ReadsBack(f: TelemetryFrame)
    ensures ReadLine(Line(f)) == if f.payload.temperature > -10 then Some(SeenFrame(f)) else None
  {
    MatchesLine(f);
    if f.payload.temperature > -10 {
      ReadsGroups(f, Dotted);
    }
  }

  /** Two frames share a line exactly when they differ in nothing but the sign of
      such small values. */
  lemma LineIdentifiesFrame(f: TelemetryFrame, g: TelemetryFrame)
    ensures Line(f) == Line(g) <==> SeenFrame(f) == SeenFrame(g)
  {
    MatchesWith(f, Signed);
    MatchesWith(g, Signed);
    ReadsGroups(f, Signed);
    ReadsGroups(g, Signed);
    if SeenFrame(f) == SeenFrame(g) {
      SeenGroups(f);
      SeenGroups(g);
    }
  }

  /** What is printed of a frame depends only on its reading. */
  lemma SeenGroups(f: TelemetryFrame)
    ensures TenthsText(f.payload.temperature) == TenthsText(SeenFrame(f).temperature)
    ensures HundredthsText(f.payload.ax) == HundredthsText(SeenFrame(f).ax)
    ensures HundredthsText(f.payload.ay) == HundredthsText(SeenFrame(f).ay)
    ensures HundredthsText(f.payload.az) == HundredthsText(SeenFrame(f).az)
  {
    TenthsSeen(f.payload.temperature);
    HundredthsSeen(f.payload.ax);
    HundredthsSeen(f.payload.ay);
    HundredthsSeen(f.payload.az);
  }

  lemma TenthsSeen(x: int)
    ensures TenthsText(SeenTenths(x)) == TenthsText(x)
  {
  }

  lemma HundredthsSeen(x: int)
    ensures HundredthsText(Seen(x)) == HundredthsText(x)
  {
  }
}
