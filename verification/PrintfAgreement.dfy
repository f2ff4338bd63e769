/** When the two formatters print the same. */
module PrintfAgreement {
  import opened CTypes
  import opened Format
  import opened MiniPrintf
  import Console

  /** The rest of a format after '%' is read alike by both: no '-' flag, no
      precision, a single length modifier, a width inside int. */
  predicate SameSyntax(s: string) {
    && !StartsWith(s, '-')
    && var digits := ScanNumber(SkipIf(s, '0'), 0);
    && digits.value < TWO_TO_31
    && !StartsWith(digits.rest, '.')
    && var after := SkipIf(digits.rest, 'l');
    && after != [] && (StartsWith(digits.rest, 'l') ==> after[0] != 'l')
  }

  lemma {:induction false} ScanNumberGrows(s: string, acc: nat)
    ensures ScanNumber(s, acc).value >= acc
    decreases |s|
  {
    if s != [] && IsDigit(s[0]) {
      ScanNumberGrows(s[1..], acc * 10 + DigitValue(s[0]));
    }
  }

  lemma {:induction false} WidthsAgree(s: string, acc: U32)
    requires ScanNumber(s, acc).value < TWO_TO_31
    ensures ScanWidth(s, acc) == ScanNumber(s, acc)
    decreases |s|
  {
    if s != [] && IsDigit(s[0]) {
      ScanNumberGrows(s[1..], acc * 10 + DigitValue(s[0]));
      WidthsAgree(s[1..], acc * 10 + DigitValue(s[0]));
    }
  }

  lemma ParsersAgree(s: string)
    requires SameSyntax(s)
    ensures ParseMini(s).Some? && ParseConsole(s) == ParseMini(s)
  {
    WidthsAgree(SkipIf(s, '0'), 0);
  }

  /** The printed form of a conversion is the same in both. */
  predicate SameRendering(spec: Spec, args: seq<Arg>) {
    match spec.conv
    case 'd' => SignedArg(spec, args) && (args[0].i >= 0 || spec.width <= |Digits(-args[0].i, 10, false)|)
    case 'u' => UnsignedArg(spec, args)
    case 'x' => UnsignedArg(spec, args)
    case 's' => StringArg(args) && spec.width <= |Text(args[0].s)|
    case 'c' => args != [] && args[0].IntArg?
    case 'i' => false
    case 'X' => false
    case 'p' => false
    case 'f' => false
    case _ => true
  }

  /** Both conversions are defined and give the same piece, unless one of the four
      letters only one engine knows is involved, exactly when each signed value is
      non-negative or has no room to be padded, and no string is padded. */
  lemma RenderingsAgreeIff(spec: Spec, args: seq<Arg>)
    requires !spec.left && spec.conv !in {'i', 'X', 'p', 'f'}
    ensures SameRendering(spec, args)
      <==> RenderMini(spec, args).Some? && RenderConsole(spec, args) == RenderMini(spec, args)
  {
    match spec.conv
    case 'd' =>
      if SignedArg(spec, args) {
        SignedAgreeIff(spec, args[0].i);
      }
    case 's' =>
      if StringArg(args) {
        var s := Text(args[0].s);
        assert |Field(s, spec.width, false, Pad(spec))| == |s| ==> spec.width <= |s|;
        if spec.width <= |s| {
          assert Repeat(Pad(spec), spec.width - |s|) + s == s;
        }
      }
    case _ =>
  }

  lemma SignedAgreeIff(spec: Spec, i: int)
    requires !spec.left
    ensures ConsoleIntText(spec, i) == IntText(spec, i)
      <==> i >= 0 || spec.width <= |Digits(-i, 10, false)|
  {
    if i < 0 {
      var digits := Digits(-i, 10, false);
      assert |ConsoleIntText(spec, i)| == 1 + if spec.width > |digits| then spec.width else |digits|;
      var less := if spec.width > 0 then spec.width - 1 else 0;
      assert |IntText(spec, i)| == 1 + if less > |digits| then less else |digits|;
      if spec.width <= |digits| {
        assert Repeat(Pad(spec), spec.width - |digits|) == Repeat(Pad(spec), less - |digits|) == [];
      }
    }
  }

  /** The formats and arguments both engines treat alike. */
  predicate Shared(fmt: string, args: seq<Arg>)
    decreases |fmt|
  {
    if fmt == [] then true
    else if fmt[0] != '%' then Shared(fmt[1..], args)
    else
      && SameSyntax(fmt[1..])
      && ParseMini(fmt[1..]).Some?
      && var spec := ParseMini(fmt[1..]).value;
      && SameRendering(spec, args)
      && RenderMini(spec, args).Some?
      && Shared(spec.rest, RenderMini(spec, args).value.args)
  }

  lemma {:induction false} FormatsAgree(fmt: string, args: seq<Arg>)
    requires Shared(fmt, args)
    ensures MiniFormat(fmt, args).Some? && ConsoleFormat(fmt, args) == MiniFormat(fmt, args)
    decreases |fmt|
  {
    if fmt == [] {
    } else if fmt[0] != '%' {
      FormatsAgree(fmt[1..], args);
    } else {
      ParsersAgree(fmt[1..]);
      var spec := ParseMini(fmt[1..]).value;
      RenderingsAgreeIff(spec, args);
      FormatsAgree(spec.rest, RenderMini(spec, args).value.args);
    }
  }

  /** Run on the same shared call, the two engines leave the same C string in
      their 256-byte buffers, whatever the buffers held before. */
  method BothEngines(fmt: string, args: seq<Arg>, a: array<char>, b: array<char>)
    requires a != b && a.Length == b.Length == 256
    requires Shared(fmt, args) && MiniFormat(fmt, args).Some? && MiniFormat(fmt, args).value != []
    modifies a, b
    ensures var n := Min(|MiniFormat(fmt, args).value|, 255);
      && a[..n] == b[..n] == MiniFormat(fmt, args).value[..n]
      && a[n] == b[n] == NUL
  {
    FormatsAgree(fmt, args);
    var _ := MiniVsnprintf(a, Console.BUFFER_SIZE, fmt, args);
    var used := Console.ConsoleWritef(b, fmt, args);
  }
}
