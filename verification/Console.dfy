/** The formatter of the STM32 build: it stops counting when its buffer is full
    and keeps the buffer terminated after every character. */
module Console {
  import opened CTypes
  import opened Format
  import opened MiniPrintf

  const BUFFER_SIZE := 256

  /** The buffer holds the leading part of `text` that fits, terminated as soon
      as there is any text at all; every other cell is as it was. */
  ghost predicate Saturates(buf: seq<char>, before: seq<char>, size: nat, text: string, used: nat) {
    && 0 < size <= |buf| == |before|
    && used == Min(|text|, size - 1)
    && (forall i :: 0 <= i < used ==> buf[i] == text[i])
    && buf[used] == (if text == [] then before[used] else NUL)
    && forall i :: used < i < |buf| ==> buf[i] == before[i]
  }

  /** `prvAppendChar`. */
  method AppendChar(buf: array<char>, size: nat, used: nat, c: char, ghost before: seq<char>, ghost text: string)
    returns (next: nat)
    requires 1 < size && Saturates(buf[..], before, size, text, used)
    requires size <= buf.Length
    modifies buf
    ensures Saturates(buf[..], before, size, text + [c], next)
  {
    next := used;
    if used + 1 < size {
      buf[used] := c;
      next := used + 1;
      buf[next] := NUL;
    }
  }

  /** The loop over a string's characters. */
  method AppendString(buf: array<char>, size: nat, used: nat, s: string, ghost before: seq<char>, ghost text: string)
    returns (next: nat)
    requires 1 < size && Saturates(buf[..], before, size, text, used)
    requires size <= buf.Length
    modifies buf
    ensures Saturates(buf[..], before, size, text + s, next)
  {
    next := used;
    assert text + s[..0] == text;
    for i := 0 to |s|
      invariant Saturates(buf[..], before, size, text + s[..i], next)
    {
      next := AppendChar(buf, size, next, s[i], before, text + s[..i]);
      assert text + s[..i + 1] == text + s[..i] + [s[i]];
    }
    assert s[..|s|] == s;
  }

  /** The do-while digit loop. */
  method DigitsBackwards(tmp: array<char>, n: nat, base: nat) returns (count: nat)
    requires base == 10 || base == 16
    requires n < TWO_TO_64 && tmp.Length == 32
    modifies tmp
    ensures count <= 32 && Reversed(tmp[..count]) == Digits(n, base, false)
  {
    DigitsOf64Bits(n, base, false);
    ghost var digits := Digits(n, base, false);
    count := PushDigit(tmp, 0, DigitChar(n % base, false));
    var value: nat := n / base;
    assert digits == DigitsOrNone(value, base, false) + Reversed(tmp[..count]);
    while value != 0 && count < tmp.Length
      invariant 0 <= count <= |digits|
      invariant digits == DigitsOrNone(value, base, false) + Reversed(tmp[..count])
    {
      DigitStep(value, base, false);
      ghost var front := DigitsOrNone(value / base, base, false);
      ghost var stored := Reversed(tmp[..count]);
      var c := DigitChar(value % base, false);
      count := PushDigit(tmp, count, c);
      Joined(front, [c], stored);
      value := value / base;
    }
  }

  /** The local digit buffer, filled. */
  method DigitBuffer(n: nat, base: nat) returns (tmp: array<char>, count: nat)
    requires base == 10 || base == 16
    requires n < TWO_TO_64
    ensures fresh(tmp) && count <= tmp.Length && Reversed(tmp[..count]) == Digits(n, base, false)
  {
    tmp := new char[32](_ => NUL);
    count := DigitsBackwards(tmp, n, base);
  }

  /** `prvAppendUnsigned`. */
  method AppendUnsigned(buf: array<char>, size: nat, used: nat, n: nat, base: nat, width: nat, zeroPad: bool,
                        ghost before: seq<char>, ghost text: string)
    returns (next: nat)
    requires base == 10 || base == 16
    requires n < TWO_TO_64
    requires 1 < size && Saturates(buf[..], before, size, text, used)
    requires size <= buf.Length
    modifies buf
    ensures Saturates(buf[..], before, size,
      text + Field(Digits(n, base, false), width, false, if zeroPad then '0' else ' '), next)
  {
    var tmp, count := DigitBuffer(n, base);
    var pad := if zeroPad then '0' else ' ';
    next := AppendPadding(buf, size, used, pad, count, width, before, text);
    next := AppendReversed(buf, size, next, tmp, count, before, text + Repeat(pad, width - count));
    Joined(text, Repeat(pad, width - count), Digits(n, base, false));
  }

  /** The padding loop, which counts the width down to the number of digits. */
  method AppendPadding(buf: array<char>, size: nat, used: nat, pad: char, count: nat, width: nat,
                       ghost before: seq<char>, ghost text: string)
    returns (next: nat)
    requires 1 < size && Saturates(buf[..], before, size, text, used)
    requires size <= buf.Length
    modifies buf
    ensures Saturates(buf[..], before, size, text + Repeat(pad, width - count), next)
  {
    next := used;
    var left := width;
    ghost var done := 0;
    assert text + Repeat(pad, 0) == text;
    while count < left
      invariant done == width - left >= 0 && (left == width || count <= left)
      invariant Saturates(buf[..], before, size, text + Repeat(pad, done), next)
      decreases left
    {
      next := AppendChar(buf, size, next, pad, before, text + Repeat(pad, done));
      RepeatSnoc(pad, done);
      assert text + Repeat(pad, done + 1) == text + Repeat(pad, done) + [pad];
      left := left - 1;
      done := done + 1;
    }
    assert Repeat(pad, done) == Repeat(pad, width - count);
  }

  method AppendReversed(buf: array<char>, size: nat, used: nat, tmp: array<char>, len: nat,
                        ghost before: seq<char>, ghost text: string)
    returns (next: nat)
    requires buf != tmp && len <= tmp.Length
    requires 1 < size && Saturates(buf[..], before, size, text, used)
    requires size <= buf.Length
    modifies buf
    ensures Saturates(buf[..], before, size, text + Reversed(tmp[..len]), next)
  {
    ghost var digits := Reversed(tmp[..len]);
    next := used;
    var count := len;
    assert text + digits[..0] == text;
    while count > 0
      invariant 0 <= count <= len
      invariant Saturates(buf[..], before, size, text + digits[..len - count], next)
    {
      count := count - 1;
      ghost var done := len - 1 - count;
      next := AppendChar(buf, size, next, tmp[count], before, text + digits[..done]);
      assert text + digits[..done + 1] == text + digits[..done] + [digits[done]];
    }
    assert digits[..len] == digits;
  }

  /** `prvAppendSigned`. */
  method AppendSigned(buf: array<char>, size: nat, used: nat, i: int, spec: Spec,
                      ghost before: seq<char>, ghost text: string)
    returns (next: nat)
    requires -TWO_TO_63 < i < TWO_TO_63 && !spec.left
    requires 1 < size && Saturates(buf[..], before, size, text, used)
    requires size <= buf.Length
    modifies buf
    ensures Saturates(buf[..], before, size, text + ConsoleIntText(spec, i), next)
  {
    if i < 0 {
      next := AppendChar(buf, size, used, '-', before, text);
      next := AppendUnsigned(buf, size, next, -i, 10, spec.width, spec.zero, before, text + ['-']);
      assert text + ['-'] + UintText(spec, spec.width, -i, 10, false) == text + ConsoleIntText(spec, i);
    } else {
      next := AppendUnsigned(buf, size, used, i, 10, spec.width, spec.zero, before, text);
    }
  }

  /** Reads the flag, width and length modifier of a conversion. */
  method ReadSpec(fmt: string, i: nat) returns (spec: Spec, at: nat)
    requires i <= |fmt| && ParseConsole(fmt[i..]).Some?
    ensures i <= at < |fmt|
    ensures ParseConsole(fmt[i..]) == Some(spec) && !spec.left
    ensures spec.conv == fmt[at] && spec.rest == fmt[at + 1..]
  {
    var zero, j1 := Accept(fmt, i, '0');
    var width, j2 := ReadWidth(fmt, j1);
    var long, j3 := Accept(fmt, j2, 'l');
    spec := Spec(false, zero, width, -1, long, fmt[j3], fmt[j3 + 1..]);
    at := j3;
  }

  method ReadWidth(fmt: string, i: nat) returns (width: nat, next: nat)
    requires i <= |fmt|
    ensures i <= next <= |fmt|
    ensures ScanWidth(fmt[i..], 0) == Scan(width, fmt[next..])
  {
    var w: U32 := 0;
    next := i;
    while next < |fmt| && IsDigit(fmt[next])
      invariant i <= next <= |fmt|
      invariant ScanWidth(fmt[i..], 0) == ScanWidth(fmt[next..], w)
    {
      assert fmt[next..][1..] == fmt[next + 1..];
      w := ToU32(w * 10 + DigitValue(fmt[next]));
      next := next + 1;
    }
    width := w;
  }

  /** The conversion switch. */
  method Convert(buf: array<char>, size: nat, used: nat, spec: Spec, args: seq<Arg>,
                 ghost before: seq<char>, ghost text: string)
    returns (next: nat, rest: seq<Arg>)
    requires RenderConsole(spec, args).Some? && !spec.left
    requires 1 < size && Saturates(buf[..], before, size, text, used)
    requires size <= buf.Length
    modifies buf
    ensures var piece := RenderConsole(spec, args).value;
      rest == piece.args && Saturates(buf[..], before, size, text + piece.text, next)
  {
    next, rest := used, args;
    match spec.conv
    case '%' =>
      next := AppendChar(buf, size, used, '%', before, text);
    case 's' =>
      var s := if args[0].s.None? then "(null)" else args[0].s.value;
      next := AppendString(buf, size, used, s, before, text);
      rest := args[1..];
    case 'c' =>
      next := AppendChar(buf, size, used, CharOf(args[0].i), before, text);
      rest := args[1..];
    case 'u' =>
      next := AppendUnsigned(buf, size, used, args[0].n, 10, spec.width, spec.zero, before, text);
      rest := args[1..];
    case 'd' =>
      next := AppendSigned(buf, size, used, args[0].i, spec, before, text);
      rest := args[1..];
    case 'x' =>
      next := AppendUnsigned(buf, size, used, args[0].n, 16, spec.width, spec.zero, before, text);
      rest := args[1..];
    case other =>
      next := AppendChar(buf, size, used, '%', before, text);
      next := AppendChar(buf, size, next, other, before, text + ['%']);
      assert text + ['%'] + [other] == text + ['%', other];
  }

  /** `text` has been printed and the format from i on prints the rest of `whole`. */
  ghost predicate Printing(whole: string, text: string, fmt: string, i: nat, args: seq<Arg>) {
    && i <= |fmt|
    && ConsoleFormat(fmt[i..], args).Some?
    && whole == text + ConsoleFormat(fmt[i..], args).value
  }

  lemma PlainCharacter(whole: string, text: string, fmt: string, i: nat, args: seq<Arg>)
    requires Printing(whole, text, fmt, i, args) && i < |fmt| && fmt[i] != '%'
    ensures Printing(whole, text + [fmt[i]], fmt, i + 1, args)
  {
    assert fmt[i..][1..] == fmt[i + 1..];
    assert text + ([fmt[i]] + ConsoleFormat(fmt[i + 1..], args).value)
        == text + [fmt[i]] + ConsoleFormat(fmt[i + 1..], args).value;
  }

  lemma Conversion(whole: string, text: string, fmt: string, i: nat, args: seq<Arg>)
    requires Printing(whole, text, fmt, i, args) && i < |fmt| && fmt[i] == '%'
    ensures ParseConsole(fmt[i + 1..]).Some?
    ensures RenderConsole(ParseConsole(fmt[i + 1..]).value, args).Some?
  {
    assert fmt[i..][1..] == fmt[i + 1..];
  }

  lemma AfterConversion(whole: string, text: string, fmt: string, i: nat, args: seq<Arg>, at: nat)
    requires Printing(whole, text, fmt, i, args) && i < at < |fmt| && fmt[i] == '%'
    requires ParseConsole(fmt[i + 1..]).Some? && RenderConsole(ParseConsole(fmt[i + 1..]).value, args).Some?
    requires ParseConsole(fmt[i + 1..]).value.rest == fmt[at + 1..]
    ensures var piece := RenderConsole(ParseConsole(fmt[i + 1..]).value, args).value;
      Printing(whole, text + piece.text, fmt, at + 1, piece.args)
  {
    assert fmt[i..][1..] == fmt[i + 1..];
    var piece := RenderConsole(ParseConsole(fmt[i + 1..]).value, args).value;
    var rest := ConsoleFormat(fmt[at + 1..], piece.args);
    assert ConsoleFormat(fmt[i..], args) == Prepend(piece.text, rest);
    assert text + (piece.text + rest.value) == text + piece.text + rest.value;
  }

  /** One conversion of the format: reads it, prints it and takes its argument. */
  method PrintConversion(buf: array<char>, used: nat, fmt: string, i: nat, args: seq<Arg>,
                         ghost before: seq<char>, ghost whole: string, ghost text: string)
    returns (next: nat, at: nat, rest: seq<Arg>, ghost printed: string)
    requires buf.Length == BUFFER_SIZE && Saturates(buf[..], before, BUFFER_SIZE, text, used)
    requires Printing(whole, text, fmt, i, args) && i < |fmt| && fmt[i] == '%'
    modifies buf
    ensures i < at && Printing(whole, printed, fmt, at, rest)
    ensures Saturates(buf[..], before, BUFFER_SIZE, printed, next)
  {
    Conversion(whole, text, fmt, i, args);
    var spec, end := ReadSpec(fmt, i + 1);
    AfterConversion(whole, text, fmt, i, args, end);
    printed := text + RenderConsole(spec, args).value.text;
    next, rest := Convert(buf, BUFFER_SIZE, used, spec, args, before, text);
    at := end + 1;
  }

  /** `console_writef` up to the output of its buffer: any nonempty text is left
      in the buffer as a C string, cut to 255 characters; an empty text leaves
      the buffer as it was, without a terminator of its own. */
  method ConsoleWritef(buf: array<char>, fmt: string, args: seq<Arg>) returns (used: nat)
    requires buf.Length == 256
    requires ConsoleFormat(fmt, args).Some?
    modifies buf
    ensures Saturates(buf[..], old(buf[..]), 256, ConsoleFormat(fmt, args).value, used)
  {
    ghost var whole := ConsoleFormat(fmt, args).value;
    ghost var before := buf[..];
    ghost var text := "";
    used := 0;
    var i := 0;
    var left := args;
    assert fmt[0..] == fmt;
    while i < |fmt|
      invariant Printing(whole, text, fmt, i, left)
      invariant Saturates(buf[..], before, BUFFER_SIZE, text, used)
      decreases |fmt| - i
    {
      if fmt[i] != '%' {
        PlainCharacter(whole, text, fmt, i, left);
        used := AppendChar(buf, BUFFER_SIZE, used, fmt[i], before, text);
        text := text + [fmt[i]];
        i := i + 1;
        continue;
      }
      used, i, left, text := PrintConversion(buf, used, fmt, i, left, before, whole, text);
    }
    assert whole == text;
  }
}
