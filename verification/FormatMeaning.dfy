/** What a directive of a format means, for both formatters: how its text is read,
    and what the text it prints says of its argument. */
module FormatMeaning {
  import opened CTypes
  import opened Format

  // ---------------------------------------------------------------- reading a directive

  /** A number in a directive; a width of zero is left out. */
  function WidthText(width: nat): string {
    if width == 0 then "" else Digits(width, 10, false)
  }

  function PrecisionText(precision: int): string {
    if precision < 0 then "" else "." + Digits(precision, 10, false)
  }

  /** A directive after its '%', up to and with its conversion. */
  function DirectiveText(spec: Spec): string {
    (if spec.left then "-" else "")
    + ((if spec.zero then "0" else "")
       + (WidthText(spec.width) + (PrecisionText(spec.precision) + ((if spec.long then "l" else "") + [spec.conv]))))
  }

  /** The character is none that the parts before a conversion are made of. */
  predicate IsConversion(c: char) {
    !IsDigit(c) && c != '-' && c != '.' && c != 'l'
  }

  lemma ScanOneDigit(d: nat, rest: string, acc: nat)
    requires d < 10
    ensures ScanNumber([DigitChar(d, false)] + rest, acc) == ScanNumber(rest, acc * 10 + d)
  {
    assert ([DigitChar(d, false)] + rest)[1..] == rest;
  }

  lemma {:induction false} ScanReadsDigits(n: nat, rest: string)
    ensures ScanNumber(Digits(n, 10, false) + rest, 0) == ScanNumber(rest, n)
    decreases n
  {
    if n < 10 {
      ScanOneDigit(n, rest, 0);
    } else {
      var last := [DigitChar(n % 10, false)];
      ScanReadsDigits(n / 10, last + rest);
      ScanOneDigit(n % 10, rest, n / 10);
      assert Digits(n / 10, 10, false) + last + rest == Digits(n / 10, 10, false) + (last + rest);
    }
  }

  lemma DigitsStart(n: nat)
    ensures IsDigit(Digits(n, 10, false)[0])
    ensures n > 0 ==> Digits(n, 10, false)[0] != '0'
  {
    DigitsReadBack(n, 10, false);
    ValueOfDigits(n, false);
    assert Digits(n, 10, false)[0] in Digits(n, 10, false);
  }

  lemma WidthReads(width: nat, rest: string)
    requires rest != [] && !IsDigit(rest[0])
    ensures ScanNumber(WidthText(width) + rest, 0) == Scan(width, rest)
    ensures width > 0 ==> IsDigit((WidthText(width) + rest)[0]) && (WidthText(width) + rest)[0] != '0'
  {
    if width == 0 {
      assert "" + rest == rest;
    } else {
      ScanReadsDigits(width, rest);
      DigitsStart(width);
    }
  }

  lemma PrecisionReads(precision: int, rest: string)
    requires -1 <= precision && rest != [] && !IsDigit(rest[0]) && rest[0] != '.'
    ensures ScanPrecision(PrecisionText(precision) + rest) == Precision(precision, rest)
  {
    if precision < 0 {
      assert "" + rest == rest;
    } else {
      assert (PrecisionText(precision) + rest)[1..] == Digits(precision, 10, false) + rest;
      ScanReadsDigits(precision, rest);
    }
  }

  lemma LongReads(long: bool, conv: char, rest: string)
    requires conv != 'l'
    ensures var s := (if long then "l" else "") + [conv] + rest;
      SkipLong(s) == [conv] + rest && (StartsWith(s, 'l') <==> long)
  {
    if long {
      assert ("l" + [conv] + rest)[1..] == [conv] + rest;
    }
  }

  /** The part of a directive after its flags. */
  function Tail(spec: Spec): string {
    WidthText(spec.width) + (PrecisionText(spec.precision) + ((if spec.long then "l" else "") + [spec.conv]))
  }

  lemma TailReads(spec: Spec)
    requires IsConversion(spec.conv) && -1 <= spec.precision
    ensures var s := Tail(spec) + spec.rest;
      var width := ScanNumber(s, 0);
      var precision := ScanPrecision(width.rest);
      && s != [] && s[0] != '0' && s[0] != '-'
      && width.value == spec.width && precision.value == spec.precision
      && SkipLong(precision.rest) == [spec.conv] + spec.rest && (StartsWith(precision.rest, 'l') <==> spec.long)
  {
    var last := (if spec.long then "l" else "") + [spec.conv] + spec.rest;
    var middle := PrecisionText(spec.precision) + last;
    assert Tail(spec) + spec.rest == WidthText(spec.width) + middle;
    LongReads(spec.long, spec.conv, spec.rest);
    PrecisionReads(spec.precision, last);
    WidthReads(spec.width, middle);
  }

  lemma FlagReads(flag: bool, c: char, tail: string)
    requires tail != [] && tail[0] != c
    ensures var s := (if flag then [c] else "") + tail; (StartsWith(s, c) <==> flag) && SkipIf(s, c) == tail
  {
    if flag {
      assert ([c] + tail)[1..] == tail;
    } else {
      assert "" + tail == tail;
    }
  }

  /** `mini_vsnprintf` reads of a directive just what it says: its flags, width,
      precision and modifier, and its conversion. */
  lemma MiniReadsDirective(spec: Spec)
    requires IsConversion(spec.conv) && spec.width < TWO_TO_31 && -1 <= spec.precision < TWO_TO_31
    ensures ParseMini(DirectiveText(spec) + spec.rest) == Some(spec)
  {
    var tail := Tail(spec) + spec.rest;
    var flagged := (if spec.zero then ['0'] else "") + tail;
    TailReads(spec);
    FlagReads(spec.zero, '0', tail);
    FlagReads(spec.left, '-', flagged);
    DirectiveParts(spec);
    MiniReadsParts(spec, DirectiveText(spec) + spec.rest, flagged, tail);
  }

  lemma DirectiveParts(spec: Spec)
    ensures DirectiveText(spec) + spec.rest
      == (if spec.left then ['-'] else "") + ((if spec.zero then ['0'] else "") + (Tail(spec) + spec.rest))
  {
  }

  /** The parts found one after the other. */
  lemma MiniReadsParts(spec: Spec, s: string, flagged: string, tail: string)
    requires spec.width < TWO_TO_31 && -1 <= spec.precision < TWO_TO_31
    requires SkipIf(s, '-') == flagged && (StartsWith(s, '-') <==> spec.left)
    requires SkipIf(flagged, '0') == tail && (StartsWith(flagged, '0') <==> spec.zero)
    requires var width := ScanNumber(tail, 0);
      var precision := ScanPrecision(width.rest);
      && width.value == spec.width && precision.value == spec.precision
      && SkipLong(precision.rest) == [spec.conv] + spec.rest && (StartsWith(precision.rest, 'l') <==> spec.long)
    ensures ParseMini(s) == Some(spec)
  {
    assert ([spec.conv] + spec.rest)[1..] == spec.rest;
  }

  lemma ScanWidthOneDigit(d: nat, rest: string, acc: U32)
    requires d < 10 && acc * 10 + d < TWO_TO_32
    ensures ScanWidth([DigitChar(d, false)] + rest, acc) == ScanWidth(rest, acc * 10 + d)
  {
    assert ([DigitChar(d, false)] + rest)[1..] == rest;
  }

  lemma {:induction false} ScanWidthReadsDigits(n: nat, rest: string)
    requires n < TWO_TO_32
    ensures ScanWidth(Digits(n, 10, false) + rest, 0) == ScanWidth(rest, n)
    decreases n
  {
    if n < 10 {
      ScanWidthOneDigit(n, rest, 0);
    } else {
      var last := [DigitChar(n % 10, false)];
      ScanWidthReadsDigits(n / 10, last + rest);
      ScanWidthOneDigit(n % 10, rest, n / 10);
      assert Digits(n / 10, 10, false) + last + rest == Digits(n / 10, 10, false) + (last + rest);
    }
  }

  /** The width as the console reads it. */
  lemma ConsoleWidthReads(width: nat, rest: string)
    requires width < TWO_TO_32 && rest != [] && !IsDigit(rest[0])
    ensures ScanWidth(WidthText(width) + rest, 0) == Scan(width, rest)
  {
    if width == 0 {
      assert "" + rest == rest;
    } else {
      ScanWidthReadsDigits(width, rest);
    }
  }

  /** The parts found one after the other. */
  lemma ConsoleReadsParts(spec: Spec, s: string, tail: string, last: string)
    requires !spec.left && spec.precision == -1
    requires SkipIf(s, '0') == tail && (StartsWith(s, '0') <==> spec.zero)
    requires ScanWidth(tail, 0) == Scan(spec.width, last)
    requires SkipIf(last, 'l') == [spec.conv] + spec.rest && (StartsWith(last, 'l') <==> spec.long)
    ensures ParseConsole(s) == Some(spec)
  {
    assert ([spec.conv] + spec.rest)[1..] == spec.rest;
  }

  /** The same of `console_writef`, which knows neither '-' nor a precision. */
  lemma ConsoleReadsDirective(spec: Spec)
    requires IsConversion(spec.conv) && !spec.left && spec.precision == -1 && spec.width < TWO_TO_32
    ensures ParseConsole(DirectiveText(spec) + spec.rest) == Some(spec)
  {
    var last := (if spec.long then ['l'] else "") + ([spec.conv] + spec.rest);
    var tail := WidthText(spec.width) + last;
    FlagReads(spec.long, 'l', [spec.conv] + spec.rest);
    WidthReads(spec.width, last);
    ConsoleWidthReads(spec.width, last);
    FlagReads(spec.zero, '0', tail);
    ConsoleParts(spec);
    ConsoleReadsParts(spec, DirectiveText(spec) + spec.rest, tail, last);
  }

  lemma ConsoleParts(spec: Spec)
    requires !spec.left && spec.precision == -1
    ensures DirectiveText(spec) + spec.rest
      == (if spec.zero then ['0'] else "")
         + (WidthText(spec.width) + ((if spec.long then ['l'] else "") + ([spec.conv] + spec.rest)))
  {
  }

  // ---------------------------------------------------------------- what is printed

  /** The text is a field of at least this width: the body at its side, with spaces
      after it, or with spaces or zeros before it. */
  predicate FieldOf(text: string, body: string, width: nat, left: bool, zero: bool) {
    && |text| == (if |body| < width then width else |body|)
    && (if left then
          text[..|body|] == body && forall i :: |body| <= i < |text| ==> text[i] == ' '
        else
          && text[|text| - |body|..] == body
          && forall i :: 0 <= i < |text| - |body| ==> text[i] == if zero then '0' else ' ')
  }

  lemma FieldIsField(body: string, width: nat, left: bool, zero: bool)
    ensures FieldOf(Field(body, width, left, if zero then '0' else ' '), body, width, left, zero)
  {
    FieldShape(body, width, left, if zero then '0' else ' ');
  }

  /** A number in decimal, without a leading zero. */
  predicate InDecimal(digits: string, n: nat) {
    && digits != [] && (forall c :: c in digits ==> '0' <= c <= '9')
    && NumberIn(digits, 10) == n && (|digits| > 1 ==> digits[0] != '0')
  }

  /** A number in hexadecimal, its letters in one case, without a leading zero. */
  predicate InHex(digits: string, n: nat, upper: bool) {
    && digits != []
    && (forall c :: c in digits ==> '0' <= c <= '9' || (if upper then 'A' <= c <= 'F' else 'a' <= c <= 'f'))
    && NumberIn(digits, 16) == n && (|digits| > 1 ==> digits[0] != '0')
  }

  lemma DecimalDigits(n: nat)
    ensures InDecimal(Digits(n, 10, false), n)
  {
    ValueOfDigits(n, false);
    DigitsReadBack(n, 10, false);
    if n == 0 {
      assert |Digits(n, 10, false)| == 1;
    }
  }

  lemma {:induction false} HexLetters(n: nat, upper: bool)
    ensures forall c :: c in Digits(n, 16, upper) ==>
      '0' <= c <= '9' || (if upper then 'A' <= c <= 'F' else 'a' <= c <= 'f')
    decreases n
  {
    if n >= 16 {
      HexLetters(n / 16, upper);
    }
  }

  lemma HexDigits(n: nat, upper: bool)
    ensures InHex(Digits(n, 16, upper), n, upper)
  {
    HexLetters(n, upper);
    DigitsReadBack(n, 16, upper);
    if n == 0 {
      assert |Digits(n, 16, upper)| == 1;
    }
  }

  /** The text of a signed number: a minus sign before the field of a negative one. */
  predicate SignedField(text: string, digits: string, i: int, width: nat, narrower: nat, left: bool, zero: bool) {
    if i < 0 then
      InDecimal(digits, 0 - i) && text != [] && text[0] == '-' && FieldOf(text[1..], digits, narrower, left, zero)
    else InDecimal(digits, i) && FieldOf(text, digits, width, left, zero)
  }

  lemma SignedFieldIs(text: string, i: int, width: nat, narrower: nat, left: bool, zero: bool)
    requires var pad := if zero then '0' else ' ';
      text == if i < 0 then "-" + Field(Digits(0 - i, 10, false), narrower, left, pad)
              else Field(Digits(i, 10, false), width, left, pad)
    ensures SignedField(text, Digits(if i < 0 then 0 - i else i, 10, false), i, width, narrower, left, zero)
  {
    var digits := Digits(if i < 0 then 0 - i else i, 10, false);
    DecimalDigits(if i < 0 then 0 - i else i);
    FieldIsField(digits, if i < 0 then narrower else width, left, zero);
    if i < 0 {
      assert text[1..] == Field(digits, narrower, left, if zero then '0' else ' ');
    }
  }

  /** `%d` and `%i` of `mini_vsnprintf` print the number in decimal; a minus sign comes
      first and takes one place off the width. */
  lemma MiniSigned(spec: Spec, args: seq<Arg>) returns (text: string, digits: string)
    requires (spec.conv == 'd' || spec.conv == 'i') && SignedArg(spec, args)
    ensures RenderMini(spec, args) == Some(Piece(text, args[1..]))
    ensures SignedField(text, digits, args[0].i, spec.width, if spec.width > 0 then spec.width - 1 else 0,
                        spec.left, spec.zero)
  {
    var i := args[0].i;
    digits := Digits(if i < 0 then 0 - i else i, 10, false);
    text := IntText(spec, i);
    SignedFieldIs(text, i, spec.width, if spec.width > 0 then spec.width - 1 else 0, spec.left, spec.zero);
  }

  /** `%d` of `console_writef` too, but there the minus sign leaves the whole width to
      the digits. */
  lemma ConsoleSigned(spec: Spec, args: seq<Arg>) returns (text: string, digits: string)
    requires spec.conv == 'd' && SignedArg(spec, args) && !spec.left
    ensures RenderConsole(spec, args) == Some(Piece(text, args[1..]))
    ensures SignedField(text, digits, args[0].i, spec.width, spec.width, false, spec.zero)
  {
    var i := args[0].i;
    digits := Digits(if i < 0 then 0 - i else i, 10, false);
    text := ConsoleIntText(spec, i);
    SignedFieldIs(text, i, spec.width, spec.width, false, spec.zero);
  }

  /** `%u` prints the number in decimal, `%x` and `%X` in hexadecimal of lower and
      upper case. */
  lemma MiniUnsigned(spec: Spec, args: seq<Arg>) returns (text: string, digits: string)
    requires (spec.conv == 'u' || spec.conv == 'x' || spec.conv == 'X') && UnsignedArg(spec, args)
    ensures RenderMini(spec, args) == Some(Piece(text, args[1..]))
    ensures FieldOf(text, digits, spec.width, spec.left, spec.zero)
    ensures if spec.conv == 'u' then InDecimal(digits, args[0].n) else InHex(digits, args[0].n, spec.conv == 'X')
  {
    var n := args[0].n;
    digits := Digits(n, if spec.conv == 'u' then 10 else 16, spec.conv == 'X');
    DecimalDigits(n);
    HexDigits(n, spec.conv == 'X');
    FieldIsField(digits, spec.width, spec.left, spec.zero);
    text := RenderMini(spec, args).value.text;
  }

  lemma ConsoleUnsigned(spec: Spec, args: seq<Arg>) returns (text: string, digits: string)
    requires (spec.conv == 'u' || spec.conv == 'x') && UnsignedArg(spec, args) && !spec.left
    ensures RenderConsole(spec, args) == Some(Piece(text, args[1..]))
    ensures FieldOf(text, digits, spec.width, false, spec.zero)
    ensures if spec.conv == 'u' then InDecimal(digits, args[0].n) else InHex(digits, args[0].n, false)
  {
    var n := args[0].n;
    digits := Digits(n, if spec.conv == 'u' then 10 else 16, false);
    DecimalDigits(n);
    HexDigits(n, false);
    FieldIsField(digits, spec.width, false, spec.zero);
    text := RenderConsole(spec, args).value.text;
  }

  /** `%p` prints "0x" and at least eight hexadecimal digits. */
  lemma MiniPointer(spec: Spec, args: seq<Arg>) returns (field: string, digits: string)
    requires spec.conv == 'p' && args != [] && args[0].PtrArg? && args[0].n < TWO_TO_64
    ensures RenderMini(spec, args) == Some(Piece("0x" + field, args[1..]))
    ensures FieldOf(field, digits, 8, false, true) && InHex(digits, args[0].n, false)
  {
    digits := Digits(args[0].n, 16, false);
    field := Field(digits, 8, false, '0');
    HexDigits(args[0].n, false);
    FieldIsField(digits, 8, false, true);
    PointerRenders(spec, args);
  }

  lemma PointerRenders(spec: Spec, args: seq<Arg>)
    requires spec.conv == 'p' && args != [] && args[0].PtrArg? && args[0].n < TWO_TO_64
    ensures RenderMini(spec, args) == Some(Piece("0x" + Field(Digits(args[0].n, 16, false), 8, false, '0'), args[1..]))
  {
  }

  /** The digits a fraction is printed with: one unless a precision says otherwise, and
      never more than nine. */
  function Places(precision: int): nat {
    if precision < 0 then 1 else if precision > 9 then 9 else precision
  }

  /** The fraction of a non-negative number in units of the last of k places, rounded
      half up, without its carry. */
  predicate FractionOf(fraction: string, m: real, k: nat) {
    && |fraction| == k && (forall c :: c in fraction ==> IsDigit(c))
    && Value(fraction) == ((m - m.Floor as real) * Pow10(k) as real + 0.5).Floor % Pow10(k)
  }

  lemma FractionDigits(m: real, k: nat)
    requires m >= 0.0
    ensures FractionOf(LastDigits(FractionUnits(m, k), k), m, k)
  {
    LastDigitsValue(FractionUnits(m, k), k);
  }

  lemma DoubleRenders(spec: Spec, args: seq<Arg>)
    requires spec.conv == 'f' && args != [] && args[0].DoubleArg?
    requires -(TWO_TO_64 as real) < args[0].x < TWO_TO_64 as real
    ensures RenderMini(spec, args)
      == Some(Piece(DoubleText(args[0].x, if spec.precision < 0 then 1 else spec.precision), args[1..]))
  {
  }

  /** `%f` prints the sign, the whole part in decimal and, after a point, the
      fraction. */
  lemma MiniDouble(spec: Spec, args: seq<Arg>) returns (whole: string, fraction: string)
    requires spec.conv == 'f' && args != [] && args[0].DoubleArg?
    requires -(TWO_TO_64 as real) < args[0].x < TWO_TO_64 as real
    ensures RenderMini(spec, args)
      == Some(Piece((if args[0].x < 0.0 then "-" else "") + (whole + ("." + fraction)), args[1..]))
    ensures var m := if args[0].x < 0.0 then -args[0].x else args[0].x;
      InDecimal(whole, m.Floor) && FractionOf(fraction, m, Places(spec.precision))
  {
    var m, k := Magnitude(args[0].x), Places(spec.precision);
    whole, fraction := Digits(m.Floor, 10, false), LastDigits(FractionUnits(m, k), k);
    DecimalDigits(m.Floor);
    FractionDigits(m, k);
    DoubleRenders(spec, args);
  }

  /** `%s` prints its string, "(null)" for a null pointer, as a field in one engine and
      as it is in the other; `%c` the character of the low eight bits; `%%` a percent
      sign; and an unknown conversion itself, taking no argument. */
  lemma OtherConversions(spec: Spec, args: seq<Arg>)
    ensures spec.conv == 's' && StringArg(args) ==>
      var s := if args[0].s.Some? then args[0].s.value else "(null)";
      && RenderMini(spec, args).Some? && RenderMini(spec, args).value.args == args[1..]
      && FieldOf(RenderMini(spec, args).value.text, s, spec.width, spec.left, spec.zero)
      && RenderConsole(spec, args) == Some(Piece(s, args[1..]))
    ensures spec.conv == 'c' && args != [] && args[0].IntArg? ==>
      var c := (args[0].i % 256) as char;
      RenderMini(spec, args) == RenderConsole(spec, args) == Some(Piece([c], args[1..]))
    ensures spec.conv == '%' ==> RenderMini(spec, args) == RenderConsole(spec, args) == Some(Piece("%", args))
    ensures spec.conv !in {'d', 'i', 'u', 'x', 'X', 'p', 's', 'c', 'f', '%'} ==>
      RenderMini(spec, args) == RenderConsole(spec, args) == Some(Piece(['%', spec.conv], args))
  {
    if spec.conv == 's' && StringArg(args) {
      FieldIsField(Text(args[0].s), spec.width, spec.left, spec.zero);
    }
  }

  /** So a directive prints its piece, and the rest of the format goes on from the
      arguments it has left. */
  lemma DirectivePrints(spec: Spec, args: seq<Arg>)
    requires IsConversion(spec.conv) && spec.width < TWO_TO_31 && -1 <= spec.precision < TWO_TO_31
    requires RenderMini(spec, args).Some?
    ensures var piece := RenderMini(spec, args).value;
      MiniFormat(['%'] + (DirectiveText(spec) + spec.rest), args)
        == Prepend(piece.text, MiniFormat(spec.rest, piece.args))
  {
    var directive := DirectiveText(spec) + spec.rest;
    MiniReadsDirective(spec);
    assert (['%'] + directive)[1..] == directive;
  }

  lemma ConsoleDirectivePrints(spec: Spec, args: seq<Arg>)
    requires IsConversion(spec.conv) && !spec.left && spec.precision == -1 && spec.width < TWO_TO_32
    requires RenderConsole(spec, args).Some?
    ensures var piece := RenderConsole(spec, args).value;
      ConsoleFormat(['%'] + (DirectiveText(spec) + spec.rest), args)
        == Prepend(piece.text, ConsoleFormat(spec.rest, piece.args))
  {
    var directive := DirectiveText(spec) + spec.rest;
    ConsoleReadsDirective(spec);
    assert (['%'] + directive)[1..] == directive;
  }
}
