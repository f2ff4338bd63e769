/** What the two formatters of the repository are meant to print: pure functions
    from a format and its arguments to text. `None` stands for a call whose
    behaviour C leaves undefined. Floating point arguments are exact reals. */
module Format {
  import opened CTypes
  import DivMod

  const NUL: char := '\0'
  const TWO_TO_31 := 0x8000_0000
  const TWO_TO_63 := 0x8000_0000_0000_0000
  const TWO_TO_64 := 0x1_0000_0000_0000_0000

  /** The variable arguments, with the type the caller passed. */
  datatype Arg =
    | IntArg(i: int)
    | LongArg(i: int)
    | UintArg(n: nat)
    | UlongArg(n: nat)
    | StrArg(s: Option<string>)
    | PtrArg(n: nat)
    | DoubleArg(x: real)

  // ---------------------------------------------------------------- digits and padding

  predicate IsDigit(c: char) {
    '0' <= c <= '9'
  }

  function DigitValue(c: char): nat
    requires IsDigit(c)
  {
    c as int - '0' as int
  }

  function DigitChar(d: nat, upper: bool): char
    requires d < 16
  {
    if d < 10 then ('0' as int + d) as char
    else if upper then ('A' as int + d - 10) as char
    else ('a' as int + d - 10) as char
  }

  /** The digits of a number, most significant first; "0" for zero. */
  function Digits(n: nat, base: nat, upper: bool): (text: string)
    requires base == 10 || base == 16
    ensures |text| >= 1
  {
    if n < base then [DigitChar(n, upper)]
    else Digits(n / base, base, upper) + [DigitChar(n % base, upper)]
  }

  function Repeat(c: char, n: int): (text: string)
    ensures |text| == if n > 0 then n else 0
  {
    if n <= 0 then [] else [c] + Repeat(c, n - 1)
  }

  lemma {:induction false} RepeatSnoc(c: char, n: nat)
    ensures Repeat(c, n + 1) == Repeat(c, n) + [c]
  {
    if n > 0 {
      RepeatSnoc(c, n - 1);
    }
  }

  /** A field of at least the given width: padded on the left with `pad`, or on
      the right with spaces. */
  function Field(text: string, width: int, left: bool, pad: char): (field: string)
    ensures |field| == if width > |text| then width else |text|
  {
    if left then text + Repeat(' ', width - |text|) else Repeat(pad, width - |text|) + text
  }

  lemma {:induction false} RepeatIs(c: char, n: int)
    ensures forall i :: 0 <= i < |Repeat(c, n)| ==> Repeat(c, n)[i] == c
    decreases n
  {
    if n > 0 {
      RepeatIs(c, n - 1);
    }
  }

  /** The text stands at its side of the field and nothing but padding beside it. */
  lemma FieldShape(text: string, width: int, left: bool, pad: char)
    ensures var field := Field(text, width, left, pad);
      var start := if left then 0 else |field| - |text|;
      && field[start..start + |text|] == text
      && forall i :: 0 <= i < |field| && !(start <= i < start + |text|) ==> field[i] == if left then ' ' else pad
  {
    RepeatIs(if left then ' ' else pad, width - |text|);
  }

  function Text(s: Option<string>): string {
    if s.Some? then s.value else "(null)"
  }

  // ---------------------------------------------------------------- directives

  /** A conversion: its flags, width and precision (-1 without one), the conversion
      character, and the rest of the format after it. */
  datatype Spec = Spec(left: bool, zero: bool, width: nat, precision: int, long: bool, conv: char, rest: string)

  predicate StartsWith(s: string, c: char) {
    s != [] && s[0] == c
  }

  function SkipIf(s: string, c: char): (r: string)
    ensures |r| <= |s|
  {
    if StartsWith(s, c) then s[1..] else s
  }

  datatype Scan = Scan(value: nat, rest: string)

  /** A run of decimal digits, read onto `acc`. */
  function ScanNumber(s: string, acc: nat): (r: Scan)
    ensures |r.rest| <= |s|
  {
    if s != [] && IsDigit(s[0]) then ScanNumber(s[1..], acc * 10 + DigitValue(s[0])) else Scan(acc, s)
  }

  datatype Precision = Precision(value: int, rest: string)

  /** A point and the run of digits after it, if there is a point. */
  function ScanPrecision(s: string): (r: Precision)
    ensures |r.rest| <= |s|
  {
    if StartsWith(s, '.') then
      var digits := ScanNumber(s[1..], 0);
      Precision(digits.value, digits.rest)
    else Precision(-1, s)
  }

  /** "l" and "ll" are both read, as the same modifier. */
  function SkipLong(s: string): (r: string)
    ensures |r| <= |s|
  {
    if StartsWith(s, 'l') then SkipIf(s[1..], 'l') else s
  }

  /** The conversion after a '%', as `mini_vsnprintf` reads it. */
  function ParseMini(s: string): (r: Option<Spec>)
    ensures r.Some? ==> |r.value.rest| < |s|
  {
    var s1 := SkipIf(s, '-');
    var s2 := SkipIf(s1, '0');
    var width := ScanNumber(s2, 0);
    var precision := ScanPrecision(width.rest);
    var s4 := SkipLong(precision.rest);
    if s4 == [] || width.value >= TWO_TO_31 || precision.value >= TWO_TO_31 then None
    else
      Some(Spec(StartsWith(s, '-'), StartsWith(s1, '0'), width.value, precision.value,
                StartsWith(precision.rest, 'l'), s4[0], s4[1..]))
  }

  /** A width that wraps around like C's unsigned. */
  function ScanWidth(s: string, acc: U32): (r: Scan)
    ensures |r.rest| <= |s|
  {
    if s != [] && IsDigit(s[0]) then ScanWidth(s[1..], ToU32(acc * 10 + DigitValue(s[0]))) else Scan(acc, s)
  }

  /** The conversion after a '%', as `console_writef` reads it. */
  function ParseConsole(s: string): (r: Option<Spec>)
    ensures r.Some? ==> |r.value.rest| < |s|
  {
    var s1 := SkipIf(s, '0');
    var width := ScanWidth(s1, 0);
    var s2 := SkipIf(width.rest, 'l');
    if s2 == [] then None
    else Some(Spec(false, StartsWith(s, '0'), width.value, -1, StartsWith(width.rest, 'l'), s2[0], s2[1..]))
  }

  // ---------------------------------------------------------------- rendering

  /** The text of one conversion and the arguments left after it. */
  datatype Piece = Piece(text: string, args: seq<Arg>)

  predicate SignedArg(spec: Spec, args: seq<Arg>) {
    && args != []
    && (if spec.long then args[0].LongArg? && -TWO_TO_63 < args[0].i < TWO_TO_63
        else args[0].IntArg? && -TWO_TO_31 < args[0].i < TWO_TO_31)
  }

  predicate UnsignedArg(spec: Spec, args: seq<Arg>) {
    && args != []
    && (if spec.long then args[0].UlongArg? && args[0].n < TWO_TO_64
        else args[0].UintArg? && args[0].n < TWO_TO_32)
  }

  predicate StringArg(args: seq<Arg>) {
    && args != [] && args[0].StrArg?
    && (args[0].s.Some? ==> NUL !in args[0].s.value)
  }

  function CharOf(i: int): char {
    (i % 256) as char
  }

  function Pad(spec: Spec): char {
    if spec.zero then '0' else ' '
  }

  /** `fmt_uint`. */
  function UintText(spec: Spec, width: int, n: nat, base: nat, upper: bool): string
    requires base == 10 || base == 16
  {
    Field(Digits(n, base, upper), width, spec.left, Pad(spec))
  }

  /** The sign stands before any padding, and its place is taken off the width. */
  function IntText(spec: Spec, i: int): string {
    if i < 0 then "-" + UintText(spec, if spec.width > 0 then spec.width - 1 else 0, -i, 10, false)
    else UintText(spec, spec.width, i, 10, false)
  }

  function Pow10(k: nat): (p: nat)
    ensures p > 0
  {
    if k == 0 then 1 else 10 * Pow10(k - 1)
  }

  /** The last k decimal digits of a number. */
  function LastDigits(n: nat, k: nat): (text: string)
    ensures |text| == k
  {
    if k == 0 then [] else LastDigits(n / 10, k - 1) + [DigitChar(n % 10, false)]
  }

  function Magnitude(x: real): real {
    if x < 0.0 then -x else x
  }

  function RoundHalfUp(x: real): int {
    (x + 0.5).Floor
  }

  /** The part of a non-negative number after the point, in units of 10^-k. */
  function Fraction(x: real, k: nat): (f: real)
    requires x >= 0.0
    ensures 0.0 <= f < Pow10(k) as real
  {
    Scaled(x - x.Floor as real, Pow10(k))
  }

  function Scaled(part: real, p: nat): (f: real)
    requires 0.0 <= part < 1.0 && p > 0
    ensures 0.0 <= f < p as real
  {
    assert (1.0 - part) * p as real > 0.0;
    assert (1.0 - part) * p as real == p as real - part * p as real;
    part * p as real
  }

  /** The same, rounded half up. */
  function FractionUnits(x: real, k: nat): nat
    requires x >= 0.0
  {
    RoundHalfUp(Fraction(x, k))
  }

  /** `fmt_float`: the width and the flags are ignored, at most nine digits follow
      the point, and a fraction that rounds up to a whole unit loses it. */
  function DoubleText(x: real, precision: nat): string {
    var k := if precision > 9 then 9 else precision;
    var m := Magnitude(x);
    (if x < 0.0 then "-" else "") + (Digits(m.Floor, 10, false) + ("." + LastDigits(FractionUnits(m, k), k)))
  }

  function RenderMini(spec: Spec, args: seq<Arg>): Option<Piece> {
    match spec.conv
    case 'd' => if SignedArg(spec, args) then Some(Piece(IntText(spec, args[0].i), args[1..])) else None
    case 'i' => if SignedArg(spec, args) then Some(Piece(IntText(spec, args[0].i), args[1..])) else None
    case 'u' =>
      if UnsignedArg(spec, args) then Some(Piece(UintText(spec, spec.width, args[0].n, 10, false), args[1..]))
      else None
    case 'x' =>
      if UnsignedArg(spec, args) then Some(Piece(UintText(spec, spec.width, args[0].n, 16, false), args[1..]))
      else None
    case 'X' =>
      if UnsignedArg(spec, args) then Some(Piece(UintText(spec, spec.width, args[0].n, 16, true), args[1..]))
      else None
    case 'p' =>
      if args != [] && args[0].PtrArg? && args[0].n < TWO_TO_64
      then Some(Piece("0x" + Field(Digits(args[0].n, 16, false), 8, false, '0'), args[1..]))
      else None
    case 's' =>
      if StringArg(args) then Some(Piece(Field(Text(args[0].s), spec.width, spec.left, Pad(spec)), args[1..]))
      else None
    case 'c' => if args != [] && args[0].IntArg? then Some(Piece([CharOf(args[0].i)], args[1..])) else None
    case 'f' =>
      if args != [] && args[0].DoubleArg? && -(TWO_TO_64 as real) < args[0].x < TWO_TO_64 as real
      then Some(Piece(DoubleText(args[0].x, if spec.precision < 0 then 1 else spec.precision), args[1..]))
      else None
    case '%' => Some(Piece("%", args))
    case other => Some(Piece(['%', other], args))
  }

  /** The console keeps the whole width after a sign, and ignores it for strings. */
  function ConsoleIntText(spec: Spec, i: int): string {
    if i < 0 then "-" + UintText(spec, spec.width, -i, 10, false)
    else UintText(spec, spec.width, i, 10, false)
  }

  function RenderConsole(spec: Spec, args: seq<Arg>): Option<Piece> {
    match spec.conv
    case 'd' => if SignedArg(spec, args) then Some(Piece(ConsoleIntText(spec, args[0].i), args[1..])) else None
    case 'u' =>
      if UnsignedArg(spec, args) then Some(Piece(UintText(spec, spec.width, args[0].n, 10, false), args[1..]))
      else None
    case 'x' =>
      if UnsignedArg(spec, args) then Some(Piece(UintText(spec, spec.width, args[0].n, 16, false), args[1..]))
      else None
    case 's' => if StringArg(args) then Some(Piece(Text(args[0].s), args[1..])) else None
    case 'c' => if args != [] && args[0].IntArg? then Some(Piece([CharOf(args[0].i)], args[1..])) else None
    case '%' => Some(Piece("%", args))
    case other => Some(Piece(['%', other], args))
  }

  /** Everything `mini_vsnprintf` would print into an unlimited buffer. A single
      '%' at the end prints nothing. */
  function MiniFormat(fmt: string, args: seq<Arg>): Option<string>
    decreases |fmt|
  {
    if fmt == [] then Some([])
    else if fmt[0] != '%' then Prepend([fmt[0]], MiniFormat(fmt[1..], args))
    else if fmt[1..] == [] then Some([])
    else
      var spec := ParseMini(fmt[1..]);
      if spec.None? then None
      else
        var piece := RenderMini(spec.value, args);
        if piece.None? then None
        else Prepend(piece.value.text, MiniFormat(spec.value.rest, piece.value.args))
  }

  /** Everything `console_writef` would print into an unlimited buffer. */
  function ConsoleFormat(fmt: string, args: seq<Arg>): Option<string>
    decreases |fmt|
  {
    if fmt == [] then Some([])
    else if fmt[0] != '%' then Prepend([fmt[0]], ConsoleFormat(fmt[1..], args))
    else
      var spec := ParseConsole(fmt[1..]);
      if spec.None? then None
      else
        var piece := RenderConsole(spec.value, args);
        if piece.None? then None
        else Prepend(piece.value.text, ConsoleFormat(spec.value.rest, piece.value.args))
  }

  function Prepend(text: string, rest: Option<string>): Option<string> {
    if rest.Some? then Some(text + rest.value) else None
  }

  // ---------------------------------------------------------------- reading numbers back

  /** The digit a character stands for, in either case. */
  function DigitOf(c: char): nat {
    if '0' <= c <= '9' then c as int - '0' as int
    else if 'a' <= c <= 'f' then c as int - 'a' as int + 10
    else if 'A' <= c <= 'F' then c as int - 'A' as int + 10
    else 0
  }

  function NumberIn(s: string, base: nat): nat {
    if s == [] then 0 else NumberIn(s[..|s| - 1], base) * base + DigitOf(s[|s| - 1])
  }

  /** Printing in either base and case loses nothing, and makes no leading zero. */
  lemma {:induction false} DigitsReadBack(n: nat, base: nat, upper: bool)
    requires base == 10 || base == 16
    ensures NumberIn(Digits(n, base, upper), base) == n
    ensures n > 0 ==> Digits(n, base, upper)[0] != '0'
  {
    var text := Digits(n, base, upper);
    if n >= base {
      DigitsReadBack(n / base, base, upper);
      assert text[..|text| - 1] == Digits(n / base, base, upper);
    } else {
      assert text[..0] == [];
    }
  }

  /** The value of a run of decimal digits. */
  function Value(s: string): nat
    requires forall c :: c in s ==> IsDigit(c)
  {
    if s == [] then 0 else Value(s[..|s| - 1]) * 10 + DigitValue(s[|s| - 1])
  }

  /** Printing in decimal loses nothing. */
  lemma {:induction false} ValueOfDigits(n: nat, upper: bool)
    ensures forall c :: c in Digits(n, 10, upper) ==> IsDigit(c)
    ensures Value(Digits(n, 10, upper)) == n
  {
    if n >= 10 {
      ValueOfDigits(n / 10, upper);
      var front := Digits(n / 10, 10, upper);
      assert Digits(n, 10, upper)[..|front|] == front;
    } else {
      assert Digits(n, 10, upper)[..0] == [];
    }
  }

  lemma {:induction false} LastDigitsValue(n: nat, k: nat)
    ensures forall c :: c in LastDigits(n, k) ==> IsDigit(c)
    ensures Value(LastDigits(n, k)) == n % Pow10(k)
  {
    if k > 0 {
      LastDigitsValue(n / 10, k - 1);
      var front := LastDigits(n / 10, k - 1);
      assert LastDigits(n, k)[..k - 1] == front;
      SplitLast(n, Pow10(k - 1));
    }
  }

  lemma SplitLast(n: nat, p: nat)
    requires p > 0
    ensures n % (10 * p) == 10 * (n / 10 % p) + n % 10
  {
    var q, r := n / 10 / p, n / 10 % p;
    assert n / 10 == p * q + r;
    assert n == (10 * p) * q + (10 * r + n % 10) by {
      assert (10 * p) * q == 10 * (p * q);
    }
    DivMod.ModOfSum(10 * r + n % 10, q, 10 * p);
    DivMod.ModSmall(10 * r + n % 10, 10 * p);
  }

  /** What the digits around the point amount to, in units of 10^-k. */
  function PrintedUnits(x: real, k: nat): nat
    requires x >= 0.0
  {
    x.Floor * Pow10(k) + FractionUnits(x, k) % Pow10(k)
  }

  /** The number, rounded half up to k decimals, in the same units. */
  function NearestUnits(x: real, k: nat): int {
    RoundHalfUp(x * Pow10(k) as real)
  }

  /** `%f` prints the nearest decimal exactly when the fraction does not round up to
      a whole unit; otherwise it prints a number too small by one. */
  lemma NearestIff(x: real, k: nat)
    requires x >= 0.0
    ensures PrintedUnits(x, k) == NearestUnits(x, k) <==> Fraction(x, k) + 0.5 < Pow10(k) as real
    ensures PrintedUnits(x, k) == NearestUnits(x, k) || PrintedUnits(x, k) + Pow10(k) == NearestUnits(x, k)
  {
    NearestSplit(x, k);
    CarryOrNot(x.Floor * Pow10(k), Fraction(x, k), Pow10(k));
  }

  lemma NearestSplit(x: real, k: nat)
    requires x >= 0.0
    ensures NearestUnits(x, k) == x.Floor * Pow10(k) + RoundHalfUp(Fraction(x, k))
  {
    Distribute(x.Floor, x - x.Floor as real, Pow10(k));
    FloorShift(x.Floor * Pow10(k), Fraction(x, k) + 0.5);
  }

  lemma Distribute(whole: int, part: real, p: int)
    ensures (whole as real + part) * p as real == (whole * p) as real + part * p as real
  {
  }

  lemma FloorShift(n: int, x: real)
    ensures (n as real + x).Floor == n + x.Floor
  {
  }

  lemma CarryOrNot(whole: int, fraction: real, p: int)
    requires 0.0 <= fraction < p as real
    ensures var units := RoundHalfUp(fraction);
      && (whole + units % p == whole + units <==> fraction + 0.5 < p as real)
      && (whole + units % p == whole + units || whole + units % p + p == whole + units)
  {
    var units := RoundHalfUp(fraction);
    assert 0 <= units <= p;
    if units < p {
      DivMod.ModSmall(units, p);
    } else {
      DivMod.ModOfSum(0, 1, p);
    }
  }

  /** So 1.96 is printed with one decimal as "1.0". */
  lemma CarryLost()
    ensures DoubleText(1.96, 1) == "1.0"
    ensures NearestUnits(1.96, 1) == 20
  {
    assert Pow10(1) == 10;
    assert (1.96).Floor == 1;
    assert Fraction(1.96, 1) == 9.6;
    assert FractionUnits(1.96, 1) == 10;
    assert LastDigits(10, 1) == "0";
    assert Digits(1, 10, false) == "1";
  }

  /** k digits are enough for every number below 10^k. */
  lemma {:induction false} DigitsLength(n: nat, base: nat, upper: bool, k: nat)
    requires base == 10 || base == 16
    requires k > 0 && n < Pow10(k)
    ensures |Digits(n, base, upper)| <= k
  {
    if n >= base {
      DigitsLength(n / base, base, upper, k - 1);
    }
  }

  lemma DigitsOf64Bits(n: nat, base: nat, upper: bool)
    requires base == 10 || base == 16
    requires n < TWO_TO_64
    ensures |Digits(n, base, upper)| <= 20
  {
    assert Pow10(5) == 100_000;
    assert Pow10(10) == 10_000_000_000;
    assert Pow10(15) == 1_000_000_000_000_000;
    assert Pow10(20) == 100_000_000_000_000_000_000;
    DigitsLength(n, base, upper, 20);
  }
}
