/** The formatter of the lm3s build: it counts every character it would print and
    stores those that fit. */
module MiniPrintf {
  import opened CTypes
  import opened Format

  /** The buffer holds the leading part of `text` that fits before a terminator;
      every other cell is as it was. */
  ghost predicate Holds(buf: seq<char>, before: seq<char>, size: nat, text: string) {
    && |buf| == |before|
    && forall i :: 0 <= i < |buf| ==> buf[i] == if i < |text| && i + 1 < size then text[i] else before[i]
  }

  /** `buf_putc`. */
  method PutC(buf: array<char>, size: nat, pos: nat, c: char, ghost before: seq<char>, ghost text: string)
    returns (next: nat)
    requires size <= buf.Length && pos == |text| && Holds(buf[..], before, size, text)
    modifies buf
    ensures next == |text + [c]| && Holds(buf[..], before, size, text + [c])
  {
    if pos + 1 < size {
      buf[pos] := c;
    }
    next := pos + 1;
  }

  /** The padding loops. */
  method PutRepeated(buf: array<char>, size: nat, pos: nat, c: char, n: nat,
                     ghost before: seq<char>, ghost text: string)
    returns (next: nat)
    requires size <= buf.Length && pos == |text| && Holds(buf[..], before, size, text)
    modifies buf
    ensures next == |text + Repeat(c, n)| && Holds(buf[..], before, size, text + Repeat(c, n))
  {
    next := pos;
    assert text + Repeat(c, 0) == text;
    for i := 0 to n
      invariant next == |text + Repeat(c, i)| && Holds(buf[..], before, size, text + Repeat(c, i))
    {
      next := PutC(buf, size, next, c, before, text + Repeat(c, i));
      RepeatSnoc(c, i);
      assert text + Repeat(c, i + 1) == text + Repeat(c, i) + [c];
    }
  }

  /** The loop over a string's characters. */
  method PutText(buf: array<char>, size: nat, pos: nat, s: string, ghost before: seq<char>, ghost text: string)
    returns (next: nat)
    requires size <= buf.Length && pos == |text| && Holds(buf[..], before, size, text)
    modifies buf
    ensures next == |text + s| && Holds(buf[..], before, size, text + s)
  {
    next := pos;
    assert text + s[..0] == text;
    for i := 0 to |s|
      invariant next == |text + s[..i]| && Holds(buf[..], before, size, text + s[..i])
    {
      next := PutC(buf, size, next, s[i], before, text + s[..i]);
      assert text + s[..i + 1] == text + s[..i] + [s[i]];
    }
    assert s[..|s|] == s;
  }

  lemma Joined(a: string, b: string, c: string)
    ensures a + b + c == a + (b + c)
  {
  }

  /** `buf_puts_n`. */
  method PutsN(buf: array<char>, size: nat, pos: nat, s: string, width: nat, left: bool, pad: char,
               ghost before: seq<char>, ghost text: string)
    returns (next: nat)
    requires size <= buf.Length && pos == |text| && Holds(buf[..], before, size, text)
    modifies buf
    ensures next == |text + Field(s, width, left, pad)|
    ensures Holds(buf[..], before, size, text + Field(s, width, left, pad))
  {
    var padCount := if width > |s| then width - |s| else 0;
    if left {
      next := PutText(buf, size, pos, s, before, text);
      next := PutRepeated(buf, size, next, ' ', padCount, before, text + s);
      Joined(text, s, Repeat(' ', padCount));
    } else {
      next := PutRepeated(buf, size, pos, pad, padCount, before, text);
      next := PutText(buf, size, next, s, before, text + Repeat(pad, padCount));
      Joined(text, Repeat(pad, padCount), s);
    }
  }

  function DigitsOrNone(n: nat, base: nat, upper: bool): string
    requires base == 10 || base == 16
  {
    if n == 0 then [] else Digits(n, base, upper)
  }

  function Reversed(s: string): (r: string)
    ensures |r| == |s|
  {
    seq(|s|, i requires 0 <= i < |s| => s[|s| - 1 - i])
  }

  lemma DigitStep(n: nat, base: nat, upper: bool)
    requires base == 10 || base == 16
    requires n > 0
    ensures n % base < base && n / base < n
    ensures Digits(n, base, upper) == DigitsOrNone(n / base, base, upper) + [DigitChar(n % base, upper)]
  {
  }

  lemma ReversedSnoc(s: string, c: char)
    ensures Reversed(s + [c]) == [c] + Reversed(s)
  {
  }

  /** The digit loop: least significant digit first. */
  method DigitsBackwards(tmp: array<char>, n: nat, base: nat, upper: bool) returns (len: nat)
    requires base == 10 || base == 16
    requires 0 < n < TWO_TO_64
    requires tmp.Length == 32
    modifies tmp
    ensures len <= 32 && Reversed(tmp[..len]) == Digits(n, base, upper)
  {
    DigitsOf64Bits(n, base, upper);
    len := 0;
    var val: nat := n;
    ghost var digits := Digits(n, base, upper);
    assert digits == DigitsOrNone(val, base, upper) + Reversed(tmp[..0]);
    while val > 0
      invariant 0 <= len <= |digits|
      invariant digits == DigitsOrNone(val, base, upper) + Reversed(tmp[..len])
    {
      DigitStep(val, base, upper);
      ghost var front := DigitsOrNone(val / base, base, upper);
      ghost var stored := Reversed(tmp[..len]);
      var c := DigitChar(val % base, upper);
      len := PushDigit(tmp, len, c);
      Joined(front, [c], stored);
      val := val / base;
    }
  }

  method PushDigit(tmp: array<char>, len: nat, c: char) returns (next: nat)
    requires len < tmp.Length
    modifies tmp
    ensures next == len + 1
    ensures Reversed(tmp[..next]) == [c] + Reversed(old(tmp[..len]))
  {
    tmp[len] := c;
    assert tmp[..len + 1] == old(tmp[..len]) + [c];
    ReversedSnoc(old(tmp[..len]), c);
    next := len + 1;
  }

  /** The output loop over a buffer of digits, last stored first. */
  method PutReversed(buf: array<char>, size: nat, pos: nat, tmp: array<char>, len: nat,
                     ghost before: seq<char>, ghost text: string)
    returns (next: nat)
    requires buf != tmp && len <= tmp.Length
    requires size <= buf.Length && pos == |text| && Holds(buf[..], before, size, text)
    modifies buf
    ensures next == |text + Reversed(tmp[..len])|
    ensures Holds(buf[..], before, size, text + Reversed(tmp[..len]))
  {
    ghost var digits := Reversed(tmp[..len]);
    next := pos;
    var i := len;
    assert text + digits[..0] == text;
    while i > 0
      invariant 0 <= i <= len
      invariant next == |text + digits[..len - i]|
      invariant Holds(buf[..], before, size, text + digits[..len - i])
    {
      i := i - 1;
      ghost var done := len - 1 - i;
      next := PutC(buf, size, next, tmp[i], before, text + digits[..done]);
      assert text + digits[..done + 1] == text + digits[..done] + [digits[done]];
    }
    assert digits[..len] == digits;
  }

  method DigitBuffer(n: nat, base: nat, upper: bool) returns (tmp: array<char>, len: nat)
    requires base == 10 || base == 16
    requires n < TWO_TO_64
    ensures fresh(tmp) && len <= tmp.Length == 32
    ensures Reversed(tmp[..len]) == Digits(n, base, upper)
  {
    tmp := new char[32](_ => NUL);
    len := 1;
    if n == 0 {
      tmp[0] := '0';
      assert Reversed(tmp[..1]) == Digits(0, base, upper);
    } else {
      len := DigitsBackwards(tmp, n, base, upper);
    }
  }

  /** `fmt_uint`. */
  method FmtUint(buf: array<char>, size: nat, pos: nat, n: nat, base: nat, upper: bool,
                 width: nat, pad: char, left: bool, ghost before: seq<char>, ghost text: string)
    returns (next: nat)
    requires base == 10 || base == 16
    requires n < TWO_TO_64
    requires size <= buf.Length && pos == |text| && Holds(buf[..], before, size, text)
    modifies buf
    ensures next == |text + Field(Digits(n, base, upper), width, left, pad)|
    ensures Holds(buf[..], before, size, text + Field(Digits(n, base, upper), width, left, pad))
  {
    var tmp, len := DigitBuffer(n, base, upper);
    ghost var digits := Digits(n, base, upper);
    var padCount := if width > len then width - len else 0;
    if left {
      next := PutReversed(buf, size, pos, tmp, len, before, text);
      next := PutRepeated(buf, size, next, ' ', padCount, before, text + digits);
      Joined(text, digits, Repeat(' ', padCount));
    } else {
      next := PutRepeated(buf, size, pos, pad, padCount, before, text);
      next := PutReversed(buf, size, next, tmp, len, before, text + Repeat(pad, padCount));
      Joined(text, Repeat(pad, padCount), digits);
    }
  }

  /** The fraction loop: least significant digit first. */
  method FractionBackwards(tmp: array<char>, n: nat, k: nat)
    requires k <= tmp.Length
    modifies tmp
    ensures Reversed(tmp[..k]) == LastDigits(n, k)
  {
    var len, left := 0, n;
    ghost var digits := LastDigits(n, k);
    assert digits == LastDigits(left, k) + Reversed(tmp[..0]);
    while len < k
      invariant 0 <= len <= k
      invariant digits == LastDigits(left, k - len) + Reversed(tmp[..len])
    {
      ghost var was := LastDigits(left / 10, k - len - 1);
      assert LastDigits(left, k - len) == was + [DigitChar(left % 10, false)];
      len := PushDigit(tmp, len, DigitChar(left % 10, false));
      left := left / 10;
    }
  }

  method PutFraction(buf: array<char>, size: nat, pos: nat, units: nat, k: nat,
                     ghost before: seq<char>, ghost text: string)
    returns (next: nat)
    requires k <= 9
    requires size <= buf.Length && pos == |text| && Holds(buf[..], before, size, text)
    modifies buf
    ensures next == |text + ("." + LastDigits(units, k))|
    ensures Holds(buf[..], before, size, text + ("." + LastDigits(units, k)))
  {
    next := PutC(buf, size, pos, '.', before, text);
    var tmp := new char[16](_ => NUL);
    FractionBackwards(tmp, units, k);
    next := PutReversed(buf, size, next, tmp, k, before, text + ['.']);
    assert text + ['.'] + LastDigits(units, k) == text + ("." + LastDigits(units, k));
  }

  /** `fmt_float`, on exact reals. */
  method FmtFloat(buf: array<char>, size: nat, pos: nat, x: real, precision: nat,
                  ghost before: seq<char>, ghost text: string)
    returns (next: nat)
    requires -(TWO_TO_64 as real) < x < TWO_TO_64 as real
    requires size <= buf.Length && pos == |text| && Holds(buf[..], before, size, text)
    modifies buf
    ensures next == |text + DoubleText(x, precision)|
    ensures Holds(buf[..], before, size, text + DoubleText(x, precision))
  {
    var k := if precision > 9 then 9 else precision;
    var sign := if x < 0.0 then "-" else "";
    var val := Magnitude(x);
    ghost var whole, fraction := Digits(val.Floor, 10, false), "." + LastDigits(FractionUnits(val, k), k);
    next := PutText(buf, size, pos, sign, before, text);
    next := FmtUint(buf, size, next, val.Floor, 10, false, 0, ' ', false, before, text + sign);
    assert Field(whole, 0, false, ' ') == whole;
    next := PutFraction(buf, size, next, FractionUnits(val, k), k, before, text + sign + whole);
    Joined(text + sign, whole, fraction);
    Joined(text, sign, whole + fraction);
  }

  /** Reads a run of digits starting at `i`, as the width loop does. */
  method ReadNumber(fmt: string, i: nat) returns (value: nat, next: nat)
    requires i <= |fmt|
    ensures i <= next <= |fmt|
    ensures ScanNumber(fmt[i..], 0) == Scan(value, fmt[next..])
  {
    value, next := 0, i;
    while next < |fmt| && IsDigit(fmt[next])
      invariant i <= next <= |fmt|
      invariant ScanNumber(fmt[i..], 0) == ScanNumber(fmt[next..], value)
    {
      assert fmt[next..][1..] == fmt[next + 1..];
      value := value * 10 + DigitValue(fmt[next]);
      next := next + 1;
    }
  }

  /** Reads the flags, width, precision and length modifier of a conversion. */
  method ReadSpec(fmt: string, i: nat) returns (spec: Spec, at: nat)
    requires i <= |fmt| && ParseMini(fmt[i..]).Some?
    ensures i <= at < |fmt|
    ensures ParseMini(fmt[i..]) == Some(spec)
    ensures spec.conv == fmt[at] && spec.rest == fmt[at + 1..]
  {
    var left, j1 := Accept(fmt, i, '-');
    var zero, j2 := Accept(fmt, j1, '0');
    var width, j3 := ReadNumber(fmt, j2);
    var precision, j4 := ReadPrecision(fmt, j3);
    var long, j5 := ReadLong(fmt, j4);
    assert fmt[j5..][0] == fmt[j5] && fmt[j5..][1..] == fmt[j5 + 1..];
    spec := Spec(left, zero, width, precision, long, fmt[j5], fmt[j5 + 1..]);
    at := j5;
  }

  method ReadPrecision(fmt: string, i: nat) returns (precision: int, next: nat)
    requires i <= |fmt|
    ensures i <= next <= |fmt|
    ensures ScanPrecision(fmt[i..]) == Precision(precision, fmt[next..])
  {
    var point, j := Accept(fmt, i, '.');
    precision, next := -1, j;
    if point {
      var digits, end := ReadNumber(fmt, j);
      precision, next := digits, end;
    }
  }

  method ReadLong(fmt: string, i: nat) returns (long: bool, next: nat)
    requires i <= |fmt|
    ensures i <= next <= |fmt|
    ensures long == StartsWith(fmt[i..], 'l')
    ensures fmt[next..] == SkipLong(fmt[i..])
  {
    var found, j := Accept(fmt, i, 'l');
    long, next := found, j;
    if long {
      var _, end := Accept(fmt, j, 'l');
      next := end;
    }
  }

  /** Steps over one expected character, if it is there. */
  method Accept(fmt: string, i: nat, c: char) returns (found: bool, next: nat)
    requires i <= |fmt|
    ensures i <= next <= |fmt|
    ensures found == StartsWith(fmt[i..], c)
    ensures fmt[next..] == SkipIf(fmt[i..], c)
  {
    found, next := false, i;
    if i < |fmt| && fmt[i] == c {
      found, next := true, i + 1;
      assert fmt[i..][1..] == fmt[i + 1..];
    }
  }

  /** The conversion switch: prints one conversion and takes its argument. */
  method Convert(buf: array<char>, size: nat, pos: nat, spec: Spec, args: seq<Arg>,
                 ghost before: seq<char>, ghost text: string)
    returns (next: nat, rest: seq<Arg>)
    requires RenderMini(spec, args).Some?
    requires size <= buf.Length && pos == |text| && Holds(buf[..], before, size, text)
    modifies buf
    ensures var piece := RenderMini(spec, args).value;
      && rest == piece.args
      && next == |text + piece.text|
      && Holds(buf[..], before, size, text + piece.text)
  {
    next, rest := pos, args;
    ghost var start := text;
    match spec.conv
    case 'd' => next, rest := ConvertSigned(buf, size, pos, spec, args, before, text);
    case 'i' => next, rest := ConvertSigned(buf, size, pos, spec, args, before, text);
    case 'u' =>
      next := FmtUint(buf, size, pos, args[0].n, 10, false, spec.width, Pad(spec), spec.left, before, text);
      rest := args[1..];
    case 'x' =>
      next := FmtUint(buf, size, pos, args[0].n, 16, false, spec.width, Pad(spec), spec.left, before, text);
      rest := args[1..];
    case 'X' =>
      next := FmtUint(buf, size, pos, args[0].n, 16, true, spec.width, Pad(spec), spec.left, before, text);
      rest := args[1..];
    case 'p' =>
      next := PutC(buf, size, pos, '0', before, text);
      next := PutC(buf, size, next, 'x', before, text + ['0']);
      assert text + ['0'] + ['x'] == text + "0x";
      next := FmtUint(buf, size, next, args[0].n, 16, false, 8, '0', false, before, text + "0x");
      assert text + "0x" + Field(Digits(args[0].n, 16, false), 8, false, '0')
          == text + ("0x" + Field(Digits(args[0].n, 16, false), 8, false, '0'));
      rest := args[1..];
    case 's' =>
      var s := if args[0].s.None? then "(null)" else args[0].s.value;
      next := PutsN(buf, size, pos, s, spec.width, spec.left, Pad(spec), before, text);
      rest := args[1..];
    case 'c' =>
      next := PutC(buf, size, pos, CharOf(args[0].i), before, text);
      rest := args[1..];
    case 'f' =>
      next := FmtFloat(buf, size, pos, args[0].x, if spec.precision < 0 then 1 else spec.precision, before, text);
      rest := args[1..];
    case '%' =>
      next := PutC(buf, size, pos, '%', before, text);
    case other =>
      next := PutC(buf, size, pos, '%', before, text);
      next := PutC(buf, size, next, other, before, text + ['%']);
      assert text + ['%'] + [other] == text + ['%', other];
  }

  method ConvertSigned(buf: array<char>, size: nat, pos: nat, spec: Spec, args: seq<Arg>,
                       ghost before: seq<char>, ghost text: string)
    returns (next: nat, rest: seq<Arg>)
    requires SignedArg(spec, args)
    requires size <= buf.Length && pos == |text| && Holds(buf[..], before, size, text)
    modifies buf
    ensures rest == args[1..]
    ensures next == |text + IntText(spec, args[0].i)|
    ensures Holds(buf[..], before, size, text + IntText(spec, args[0].i))
  {
    var val, width := args[0].i, spec.width;
    rest := args[1..];
    if val < 0 {
      next := PutC(buf, size, pos, '-', before, text);
      val := -val;
      if width > 0 { width := width - 1; }
      next := FmtUint(buf, size, next, val, 10, false, width, Pad(spec), spec.left, before, text + ['-']);
      assert text + ['-'] + Field(Digits(val, 10, false), width, spec.left, Pad(spec))
          == text + IntText(spec, args[0].i);
    } else {
      next := FmtUint(buf, size, pos, val, 10, false, width, Pad(spec), spec.left, before, text);
    }
  }

  function Min(a: int, b: int): int {
    if a < b then a else b
  }

  /** The conversion of the count to int. */
  function ToI32(n: nat): int {
    var m := ToU32(n);
    if m < TWO_TO_31 then m else m - TWO_TO_32
  }

  /** Stores the terminator after whatever part of the text fitted. */
  method Terminate(buf: array<char>, size: nat, pos: nat, ghost before: seq<char>, ghost text: string)
    requires size <= buf.Length && pos == |text| && Holds(buf[..], before, size, text)
    modifies buf
    ensures Stored(buf[..], before, size, text)
  {
    if size > 0 {
      buf[if pos < size then pos else size - 1] := NUL;
    } else {
      assert buf[..] == before;
    }
  }

  /** The truncation contract: with room for at least the terminator, the leading
      part of the text that fits and a terminator; nothing else is touched. */
  ghost predicate Stored(buf: seq<char>, before: seq<char>, size: nat, text: string)
    requires size <= |before|
  {
    if size == 0 then buf == before
    else
      var n := Min(|text|, size - 1);
      && |buf| == |before|
      && buf[..n] == text[..n]
      && buf[n] == NUL
      && forall i :: n < i < |buf| ==> buf[i] == before[i]
  }

  /** `text` has been printed and the format from i on prints the rest of `whole`. */
  ghost predicate Printing(whole: string, text: string, fmt: string, i: nat, args: seq<Arg>) {
    && i <= |fmt|
    && MiniFormat(fmt[i..], args).Some?
    && whole == text + MiniFormat(fmt[i..], args).value
  }

  lemma PlainCharacter(whole: string, text: string, fmt: string, i: nat, args: seq<Arg>)
    requires Printing(whole, text, fmt, i, args) && i < |fmt| && fmt[i] != '%'
    ensures Printing(whole, text + [fmt[i]], fmt, i + 1, args)
  {
    assert fmt[i..][1..] == fmt[i + 1..];
    assert text + ([fmt[i]] + MiniFormat(fmt[i + 1..], args).value)
        == text + [fmt[i]] + MiniFormat(fmt[i + 1..], args).value;
  }

  lemma Conversion(whole: string, text: string, fmt: string, i: nat, args: seq<Arg>)
    requires Printing(whole, text, fmt, i, args) && i + 1 < |fmt| && fmt[i] == '%'
    ensures ParseMini(fmt[i + 1..]).Some?
    ensures RenderMini(ParseMini(fmt[i + 1..]).value, args).Some?
  {
    assert fmt[i..][1..] == fmt[i + 1..];
  }

  lemma AfterConversion(whole: string, text: string, fmt: string, i: nat, args: seq<Arg>, at: nat)
    requires Printing(whole, text, fmt, i, args) && i < at < |fmt| && fmt[i] == '%'
    requires ParseMini(fmt[i + 1..]).Some? && RenderMini(ParseMini(fmt[i + 1..]).value, args).Some?
    requires ParseMini(fmt[i + 1..]).value.rest == fmt[at + 1..]
    ensures var piece := RenderMini(ParseMini(fmt[i + 1..]).value, args).value;
      Printing(whole, text + piece.text, fmt, at + 1, piece.args)
  {
    assert fmt[i..][1..] == fmt[i + 1..];
    var piece := RenderMini(ParseMini(fmt[i + 1..]).value, args).value;
    var rest := MiniFormat(fmt[at + 1..], piece.args);
    assert MiniFormat(fmt[i..], args) == Prepend(piece.text, rest);
    assert text + (piece.text + rest.value) == text + piece.text + rest.value;
  }

  lemma TrailingPercent(whole: string, text: string, fmt: string, i: nat, args: seq<Arg>)
    requires Printing(whole, text, fmt, i, args)
    requires i == |fmt| || (i + 1 == |fmt| && fmt[i] == '%')
    ensures whole == text
  {
  }

  /** One conversion of the format: reads it, prints it and takes its argument. */
  method PrintConversion(buf: array<char>, size: nat, pos: nat, fmt: string, i: nat, args: seq<Arg>,
                         ghost before: seq<char>, ghost whole: string, ghost text: string)
    returns (next: nat, at: nat, rest: seq<Arg>, ghost printed: string)
    requires size <= buf.Length && pos == |text| && Holds(buf[..], before, size, text)
    requires Printing(whole, text, fmt, i, args) && i + 1 < |fmt| && fmt[i] == '%'
    modifies buf
    ensures i < at && Printing(whole, printed, fmt, at, rest)
    ensures next == |printed| && Holds(buf[..], before, size, printed)
  {
    Conversion(whole, text, fmt, i, args);
    var spec, end := ReadSpec(fmt, i + 1);
    AfterConversion(whole, text, fmt, i, args, end);
    printed := text + RenderMini(spec, args).value.text;
    next, rest := Convert(buf, size, pos, spec, args, before, text);
    at := end + 1;
  }

  /** `mini_vsnprintf`: returns the untruncated length, stores as much of the
      text as fits before a terminator, and touches no other cell. */
  method MiniVsnprintf(buf: array<char>, size: nat, fmt: string, args: seq<Arg>) returns (ret: int)
    requires size <= buf.Length
    requires MiniFormat(fmt, args).Some?
    modifies buf
    ensures ret == ToI32(|MiniFormat(fmt, args).value|)
    ensures Stored(buf[..], old(buf[..]), size, MiniFormat(fmt, args).value)
  {
    ghost var whole := MiniFormat(fmt, args).value;
    ghost var before := buf[..];
    ghost var text := "";
    var pos := 0;
    var i := 0;
    var left := args;
    assert fmt[0..] == fmt;
    while i < |fmt|
      invariant Printing(whole, text, fmt, i, left)
      invariant pos == |text| && Holds(buf[..], before, size, text)
      decreases |fmt| - i
    {
      if fmt[i] != '%' {
        PlainCharacter(whole, text, fmt, i, left);
        pos := PutC(buf, size, pos, fmt[i], before, text);
        text := text + [fmt[i]];
        i := i + 1;
        continue;
      }
      if i + 1 == |fmt| {
        break;
      }
      pos, i, left, text := PrintConversion(buf, size, pos, fmt, i, left, before, whole, text);
    }
    TrailingPercent(whole, text, fmt, i, left);
    Terminate(buf, size, pos, before, text);
    ret := ToI32(pos);
  }
}
