/** The command-line assembler of the lm3s diagnostics task: bytes arrive in
    arbitrary portions, commands leave whole. */
module UartLines {

  const NUL: char := '\0'

  predicate IsEnd(c: char) {
    c == '\r' || c == '\n'
  }

  /** The C string at the start of a buffer: everything before the first NUL. */
  function CString(s: string): string {
    if s == [] || s[0] == NUL then [] else [s[0]] + CString(s[1..])
  }

  lemma {:induction false} CStringNulFree(s: string, rest: string)
    requires NUL !in s
    ensures CString(s + [NUL] + rest) == s
    decreases |s|
  {
    if s != [] {
      CStringNulFree(s[1..], rest);
      assert (s + [NUL] + rest)[1..] == s[1..] + [NUL] + rest;
    }
  }

  lemma {:induction false} CStringStops(s: string, rest: string)
    ensures CString(s + [NUL] + rest) == CString(s)
    decreases |s|
  {
    if s != [] {
      CStringStops(s[1..], rest);
      assert (s + [NUL] + rest)[1..] == s[1..] + [NUL] + rest;
    }
  }

  // ---------------------------------------------------------------- the reference

  /** The unfinished piece: what follows the last line end. */
  function Unfinished(stream: string): string {
    if stream == [] || IsEnd(stream[|stream| - 1]) then []
    else Unfinished(stream[..|stream| - 1]) + [stream[|stream| - 1]]
  }

  /** The finished pieces of a stream, split at every line end. */
  function Pieces(stream: string): seq<string> {
    if stream == [] then []
    else
      var front := stream[..|stream| - 1];
      if IsEnd(stream[|stream| - 1]) then Pieces(front) + [Unfinished(front)] else Pieces(front)
  }

  const LIMIT := 63

  function Cut(piece: string): string {
    if |piece| <= LIMIT then piece else piece[..LIMIT]
  }

  /** The commands in a list of pieces: empty pieces dropped, the others cut to
      their first 63 bytes and read as C strings. */
  function Commands(pieces: seq<string>): seq<string> {
    if pieces == [] then []
    else
      var n := |pieces| - 1;
      Commands(pieces[..n]) + if pieces[n] == [] then [] else [CString(Cut(pieces[n]))]
  }

  /** The pieces put together again, each followed by a line end, and then the
      unfinished one: the stream, with every line end read as a newline. */
  function Joined(pieces: seq<string>): string {
    if pieces == [] then [] else Joined(pieces[..|pieces| - 1]) + pieces[|pieces| - 1] + ['\n']
  }

  function WithNewlines(stream: string): string {
    seq(|stream|, i requires 0 <= i < |stream| => if IsEnd(stream[i]) then '\n' else stream[i])
  }

  lemma {:induction false} SplitLosesNothing(stream: string)
    ensures Joined(Pieces(stream)) + Unfinished(stream) == WithNewlines(stream)
    decreases |stream|
  {
    if stream != [] {
      var n := |stream| - 1;
      var front := stream[..n];
      SplitLosesNothing(front);
      assert WithNewlines(stream) == WithNewlines(front) + [if IsEnd(stream[n]) then '\n' else stream[n]];
      if IsEnd(stream[n]) {
        assert Pieces(stream)[..|Pieces(front)|] == Pieces(front);
      } else {
        assert Joined(Pieces(front)) + (Unfinished(front) + [stream[n]])
            == (Joined(Pieces(front)) + Unfinished(front)) + [stream[n]];
      }
    }
  }

  lemma {:induction false} PiecesHaveNoEnds(stream: string)
    ensures forall p :: p in Pieces(stream) ==> '\r' !in p && '\n' !in p
    ensures '\r' !in Unfinished(stream) && '\n' !in Unfinished(stream)
    decreases |stream|
  {
    if stream != [] {
      PiecesHaveNoEnds(stream[..|stream| - 1]);
    }
  }

  function CountChar(s: string, c: char): nat {
    if s == [] then 0 else CountChar(s[..|s| - 1], c) + if s[|s| - 1] == c then 1 else 0
  }

  /** Every carriage return and every newline finishes one piece, and nothing else
      does. */
  lemma {:induction false} EndsFinishPieces(stream: string)
    ensures |Pieces(stream)| == CountChar(stream, '\r') + CountChar(stream, '\n')
    decreases |stream|
  {
    if stream != [] {
      EndsFinishPieces(stream[..|stream| - 1]);
    }
  }

  /** The pieces and the unfinished one stand in the stream where they did, with a
      newline for every carriage return. */
  lemma PiecesStandInStream(stream: string)
    ensures var whole := Joined(Pieces(stream)) + Unfinished(stream);
      && |whole| == |stream|
      && forall i :: 0 <= i < |stream| ==> whole[i] == if stream[i] == '\r' then '\n' else stream[i]
  {
    SplitLosesNothing(stream);
  }

  lemma LineEnd(before: string, c: char)
    requires IsEnd(c)
    ensures Unfinished(before + [c]) == []
    ensures Commands(Pieces(before + [c])) == Commands(Pieces(before))
      + if Unfinished(before) == [] then [] else [CString(Cut(Unfinished(before)))]
  {
    assert (before + [c])[..|before|] == before;
    var pieces := Pieces(before + [c]);
    assert pieces == Pieces(before) + [Unfinished(before)];
    assert pieces[..|pieces| - 1] == Pieces(before);
  }

  lemma PlainByte(before: string, c: char)
    requires !IsEnd(c)
    ensures Unfinished(before + [c]) == Unfinished(before) + [c]
    ensures Pieces(before + [c]) == Pieces(before)
    ensures Cut(Unfinished(before + [c]))
      == if |Unfinished(before)| < LIMIT then Cut(Unfinished(before)) + [c] else Cut(Unfinished(before))
  {
    assert (before + [c])[..|before|] == before;
  }

  // ---------------------------------------------------------------- the assembler

  function Flatten(chunks: seq<string>): string {
    if chunks == [] then [] else Flatten(chunks[..|chunks| - 1]) + chunks[|chunks| - 1]
  }

  /** The static state of the diagnostics task; `received` is every byte it has
      been given. */
  class Diagnostics {
    const cmdBuf: array<char>
    var cmdLen: nat
    ghost var received: string

    ghost predicate Valid()
      reads this, cmdBuf
    {
      && cmdBuf.Length == LIMIT + 1
      && cmdLen <= LIMIT
      && cmdBuf[..cmdLen] == Cut(Unfinished(received))
    }

    constructor ()
      ensures Valid() && fresh(cmdBuf) && received == []
    {
      cmdBuf := new char[LIMIT + 1](_ => NUL);
      cmdLen := 0;
      received := [];
    }

    /** `poll_uart` on the bytes waiting in the receiver; `commands` are the
        strings handed to `do_cmd`, in order. */
    method PollUart(input: string) returns (commands: seq<string>)
      requires Valid()
      modifies this, cmdBuf
      ensures Valid() && received == old(received) + input
      ensures Commands(Pieces(received)) == Commands(Pieces(old(received))) + commands
    {
      commands := [];
      var i := 0;
      while i < |input|
        invariant 0 <= i <= |input|
        invariant Valid()
        invariant received == old(received) + input[..i]
        invariant Commands(Pieces(received)) == Commands(Pieces(old(received))) + commands
      {
        ghost var earlier := Commands(Pieces(old(received)));
        var dispatched := Receive(input[i]);
        assert earlier + commands + dispatched == earlier + (commands + dispatched);
        assert old(received) + input[..i] + [input[i]] == old(received) + input[..i + 1];
        commands := commands + dispatched;
        i := i + 1;
      }
    }

    /** The body of the polling loop. */
    method Receive(c: char) returns (commands: seq<string>)
      requires Valid()
      modifies this, cmdBuf
      ensures Valid() && received == old(received) + [c]
      ensures Commands(Pieces(received)) == Commands(Pieces(old(received))) + commands
    {
      if c == '\r' || c == '\n' {
        LineEnd(received, c);
        if cmdLen > 0 {
          var command := Finish();
          commands := [command];
        } else {
          commands := [];
        }
      } else {
        PlainByte(received, c);
        Store(c);
        commands := [];
      }
      received := received + [c];
    }

    /** Terminates the buffer, empties it and hands its contents over. */
    method Finish() returns (command: string)
      requires cmdBuf.Length == LIMIT + 1 && cmdLen <= LIMIT
      modifies this`cmdLen, cmdBuf
      ensures cmdLen == 0
      ensures command == CString(old(cmdBuf[..cmdLen]))
    {
      cmdBuf[cmdLen] := NUL;
      assert cmdBuf[..] == old(cmdBuf[..cmdLen]) + [NUL] + cmdBuf[cmdLen + 1..];
      CStringStops(old(cmdBuf[..cmdLen]), cmdBuf[cmdLen + 1..]);
      cmdLen := 0;
      command := CString(cmdBuf[..]);
    }

    /** Appends a byte if there is room before the terminator. */
    method Store(c: char)
      requires cmdBuf.Length == LIMIT + 1 && cmdLen <= LIMIT
      modifies this`cmdLen, cmdBuf
      ensures cmdLen <= LIMIT
      ensures cmdBuf[..cmdLen] == old(cmdBuf[..cmdLen]) + if old(cmdLen) < LIMIT then [c] else []
    {
      if cmdLen < cmdBuf.Length - 1 {
        cmdBuf[cmdLen] := c;
        cmdLen := cmdLen + 1;
      }
    }
  }

  /** However a stream is divided into polls, the commands dispatched are those
      of the whole stream, and what is kept is its unfinished piece. */
  method Session(chunks: seq<string>) returns (commands: seq<string>, pending: string)
    ensures commands == Commands(Pieces(Flatten(chunks)))
    ensures pending == Cut(Unfinished(Flatten(chunks)))
  {
    var task := new Diagnostics();
    commands := [];
    for i := 0 to |chunks|
      invariant task.Valid() && fresh(task) && fresh(task.cmdBuf)
      invariant task.received == Flatten(chunks[..i])
      invariant commands == Commands(Pieces(Flatten(chunks[..i])))
    {
      assert chunks[..i + 1][..i] == chunks[..i];
      var more := task.PollUart(chunks[i]);
      commands := commands + more;
    }
    assert chunks[..|chunks|] == chunks;
    pending := task.cmdBuf[..task.cmdLen];
  }

  // ---------------------------------------------------------------- streams without NUL

  function NonEmpty(pieces: seq<string>): seq<string> {
    if pieces == [] then []
    else
      var n := |pieces| - 1;
      NonEmpty(pieces[..n]) + if pieces[n] == [] then [] else [pieces[n]]
  }

  function CutAll(pieces: seq<string>): (cut: seq<string>)
    ensures |cut| == |pieces|
  {
    seq(|pieces|, i requires 0 <= i < |pieces| => Cut(pieces[i]))
  }

  ghost predicate AllNulFree(pieces: seq<string>) {
    forall i :: 0 <= i < |pieces| ==> NUL !in pieces[i]
  }

  lemma {:induction false} PiecesNulFree(stream: string)
    requires NUL !in stream
    ensures AllNulFree(Pieces(stream)) && NUL !in Unfinished(stream)
    decreases |stream|
  {
    if stream != [] {
      PiecesNulFree(stream[..|stream| - 1]);
    }
  }

  lemma {:induction false} CommandsOfNulFree(pieces: seq<string>)
    requires AllNulFree(pieces)
    ensures Commands(pieces) == CutAll(NonEmpty(pieces))
    decreases |pieces|
  {
    if pieces != [] {
      var n := |pieces| - 1;
      CommandsOfNulFree(pieces[..n]);
      if pieces[n] != [] {
        CStringNulFree(Cut(pieces[n]), []);
        CStringStops(Cut(pieces[n]), []);
        assert CutAll(NonEmpty(pieces[..n]) + [pieces[n]]) == CutAll(NonEmpty(pieces[..n])) + [Cut(pieces[n])];
      }
    }
  }

  /** For any stream without NUL bytes the commands are its nonempty pieces, in
      order, each cut to its first 63 bytes. */
  lemma NulFreeCommands(stream: string)
    requires NUL !in stream
    ensures Commands(Pieces(stream)) == CutAll(NonEmpty(Pieces(stream)))
  {
    PiecesNulFree(stream);
    CommandsOfNulFree(Pieces(stream));
  }

  // ---------------------------------------------------------------- one line

  /** A stretch without line ends only lengthens the unfinished piece. */
  lemma {:induction false} PlainTail(stream: string, n: nat)
    requires n <= |stream|
    requires forall i :: n <= i < |stream| ==> !IsEnd(stream[i])
    ensures Unfinished(stream) == Unfinished(stream[..n]) + stream[n..]
    ensures Pieces(stream) == Pieces(stream[..n])
    decreases |stream|
  {
    if n == |stream| {
      assert stream[..n] == stream;
    } else {
      var front, c := stream[..|stream| - 1], stream[|stream| - 1];
      PlainTail(front, n);
      assert front[..n] == stream[..n];
      assert front[n..] + [c] == stream[n..];
    }
  }

  lemma PlainText(before: string, text: string)
    requires '\r' !in text && '\n' !in text
    ensures Unfinished(before + text) == Unfinished(before) + text
    ensures Pieces(before + text) == Pieces(before)
  {
    var stream := before + text;
    forall i | |before| <= i < |stream|
      ensures !IsEnd(stream[i])
    {
      assert stream[i] == text[i - |before|];
      assert text[i - |before|] in text;
    }
    PlainTail(stream, |before|);
    assert stream[..|before|] == before && stream[|before|..] == text;
  }

  /** Reading a text without NUL as a C string gives its first 63 bytes. */
  lemma CutText(text: string)
    requires NUL !in text
    ensures CString(Cut(text)) == if |text| <= 63 then text else text[..63]
  {
    CStringNulFree(Cut(text), []);
    CStringStops(Cut(text), []);
  }

  lemma NothingUnfinished(before: string)
    requires before == [] || before[|before| - 1] == '\r' || before[|before| - 1] == '\n'
    ensures Unfinished(before) == []
  {
  }

  /** A line entered at the start of a line hands over one command. */
  lemma LineHandsOver(before: string, text: string, end: char)
    requires before == [] || before[|before| - 1] == '\r' || before[|before| - 1] == '\n'
    requires text != [] && '\r' !in text && '\n' !in text
    requires end == '\r' || end == '\n'
    ensures Commands(Pieces(before + text + [end])) == Commands(Pieces(before)) + [CString(Cut(text))]
  {
    NothingUnfinished(before);
    PlainText(before, text);
    assert [] + text == text;
    LineEnd(before + text, end);
  }

  /** What a terminal sends when a line is entered, be it ended by a carriage return
      or a newline: at the start of a line, a text without NUL and line ends is
      dispatched as it is, or as its first 63 bytes if it is longer. */
  lemma LineDispatched(before: string, text: string, end: char)
    requires before == [] || before[|before| - 1] == '\r' || before[|before| - 1] == '\n'
    requires text != [] && NUL !in text && '\r' !in text && '\n' !in text
    requires end == '\r' || end == '\n'
    ensures Commands(Pieces(before + text + [end]))
      == Commands(Pieces(before)) + [if |text| <= 63 then text else text[..63]]
  {
    LineHandsOver(before, text, end);
    CutText(text);
  }

  lemma {:induction false} CStringIsPrefix(s: string)
    ensures var c := CString(s); c <= s && NUL !in c && (|c| < |s| ==> s[|c|] == NUL)
    decreases |s|
  {
    if s != [] && s[0] != NUL {
      CStringIsPrefix(s[1..]);
    }
  }

  lemma CutIsCString(text: string)
    ensures var c := CString(Cut(text));
      && c <= text && |c| <= 63 && NUL !in c
      && (c == text || |c| == 63 || text[|c|] == NUL)
  {
    CStringIsPrefix(Cut(text));
  }

  /** A NUL among the first 63 bytes ends the command there. */
  lemma NulEndsCommand(before: string, text: string, end: char) returns (command: string)
    requires before == [] || before[|before| - 1] == '\r' || before[|before| - 1] == '\n'
    requires text != [] && '\r' !in text && '\n' !in text
    requires end == '\r' || end == '\n'
    ensures Commands(Pieces(before + text + [end])) == Commands(Pieces(before)) + [command]
    ensures command <= text && |command| <= 63 && NUL !in command
    ensures command == text || |command| == 63 || text[|command|] == NUL
  {
    LineHandsOver(before, text, end);
    CutIsCString(text);
    command := CString(Cut(text));
  }

  /** A second line end right after the first, as in "\r\n", dispatches nothing. */
  lemma EmptyLineDispatchesNothing(before: string, end: char)
    requires before == [] || before[|before| - 1] == '\r' || before[|before| - 1] == '\n'
    requires end == '\r' || end == '\n'
    ensures Commands(Pieces(before + [end])) == Commands(Pieces(before))
  {
    LineEnd(before, end);
  }
}
