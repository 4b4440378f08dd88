/**
 * The line splitter behind the sidecar's output pipes: bytes arrive in reads
 * that have nothing to do with line ends, and a line that never ends is
 * dropped once it passes a limit.
 */
module LineBuffer {
  import opened Common
  import opened Split

  newtype Byte = x: int | 0 <= x < 256

  const LF: seq<Byte> := [10]

  /** The bytes of the complete lines of one read, and what stays buffered. */
  function Absorb(limit: nat, buffer: seq<Byte>, data: seq<Byte>): (seq<seq<Byte>>, seq<Byte>) {
    var pieces := Pieces(buffer + data, LF);
    (Init(pieces), if |Last(pieces)| > limit then [] else Last(pieces))
  }

  /** The text of one line: decoded, and without a trailing carriage return. */
  function DecodeLine(utf8: seq<Byte> -> string, line: seq<Byte>): string {
    var text := utf8(line);
    if text != "" && text[|text| - 1] == '\r' then text[..|text| - 1] else text
  }

  function DecodeLines(utf8: seq<Byte> -> string, lines: seq<seq<Byte>>): (r: seq<string>)
    ensures |r| == |lines| && forall i :: 0 <= i < |lines| ==> r[i] == DecodeLine(utf8, lines[i])
  {
    seq(|lines|, i requires 0 <= i < |lines| => DecodeLine(utf8, lines[i]))
  }

  lemma OneLineOff(all: seq<Byte>, lines: seq<seq<Byte>>, buffer: seq<Byte>, newline: nat)
    requires Pieces(all, LF) == lines + Pieces(buffer, LF) && IndexOf(buffer, LF) == Some(newline)
    ensures Pieces(all, LF) == lines + [buffer[..newline]] + Pieces(buffer[newline + 1..], LF)
  {
    assert Pieces(buffer, LF) == [buffer[..newline]] + Pieces(buffer[newline + 1..], LF);
  }

  lemma NoLineLeft(all: seq<Byte>, lines: seq<seq<Byte>>, buffer: seq<Byte>)
    requires Pieces(all, LF) == lines + Pieces(buffer, LF) && IndexOf(buffer, LF).None?
    ensures Init(Pieces(all, LF)) == lines && Last(Pieces(all, LF)) == buffer
  {
    assert Pieces(buffer, LF) == [buffer];
  }

  lemma DecodeAppend(utf8: seq<Byte> -> string, a: seq<seq<Byte>>, b: seq<seq<Byte>>)
    ensures DecodeLines(utf8, a + b) == DecodeLines(utf8, a) + DecodeLines(utf8, b)
  {
  }

  class Buffer {
    var buffer: seq<Byte>
    const limit: nat
    const utf8: seq<Byte> -> string

    constructor (limit: nat, utf8: seq<Byte> -> string)
      ensures buffer == [] && this.limit == limit && this.utf8 == utf8
    {
      buffer := [];
      this.limit := limit;
      this.utf8 := utf8;
    }

    method Append(data: seq<Byte>) returns (lines: seq<string>)
      modifies this
      ensures lines == DecodeLines(utf8, Absorb(limit, old(buffer), data).0)
      ensures buffer == Absorb(limit, old(buffer), data).1
      ensures |buffer| <= limit
    {
      buffer := buffer + data;
      ghost var all := buffer;
      ghost var raw: seq<seq<Byte>> := [];
      lines := [];
      while IndexOf(buffer, LF).Some?
        invariant lines == DecodeLines(utf8, raw)
        invariant Pieces(all, LF) == raw + Pieces(buffer, LF)
        decreases |buffer|
      {
        var newline := IndexOf(buffer, LF).value;
        var line := buffer[..newline];
        OneLineOff(all, raw, buffer, newline);
        DecodeAppend(utf8, raw, [line]);
        buffer := buffer[newline + 1..];
        lines := lines + [DecodeLine(utf8, line)];
        raw := raw + [line];
      }
      NoLineLeft(all, raw, buffer);
      if |buffer| > limit {
        buffer := [];
      }
    }

    method Drain() returns (lines: seq<string>)
      modifies this
      ensures buffer == []
      ensures lines == if old(buffer) == [] then [] else [DecodeLine(utf8, old(buffer))]
    {
      if buffer == [] { return []; }
      lines := [DecodeLine(utf8, buffer)];
      buffer := [];
    }
  }

  /** The lines of a whole stream; a last line without its newline counts unless it is empty. */
  function LinesOf(text: seq<Byte>): seq<seq<Byte>> {
    var pieces := Pieces(text, LF);
    if Last(pieces) == [] then Init(pieces) else pieces
  }

  /** The bytes of all lines that reads `chunks` and a final drain yield, starting from `buffer`. */
  function Stream(limit: nat, buffer: seq<Byte>, chunks: seq<seq<Byte>>): seq<seq<Byte>>
    decreases |chunks|
  {
    if chunks == [] then (if buffer == [] then [] else [buffer])
    else
      var step := Absorb(limit, buffer, chunks[0]);
      step.0 + Stream(limit, step.1, chunks[1..])
  }

  /** The reader of one pipe: every read is appended, the end of the stream drains. */
  method ReadPipe(b: Buffer, chunks: seq<seq<Byte>>) returns (lines: seq<string>)
    modifies b
    ensures lines == DecodeLines(b.utf8, Stream(b.limit, old(b.buffer), chunks))
    decreases |chunks|
  {
    if chunks == [] {
      lines := b.Drain();
    } else {
      ghost var step := Absorb(b.limit, b.buffer, chunks[0]);
      lines := b.Append(chunks[0]);
      DecodeAppend(b.utf8, step.0, Stream(b.limit, b.buffer, chunks[1..]));
      var more := ReadPipe(b, chunks[1..]);
      lines := lines + more;
    }
  }

  predicate NoLongLine(limit: nat, text: seq<Byte>) {
    forall k :: 0 <= k < |Pieces(text, LF)| ==> |Pieces(text, LF)[k]| <= limit
  }

  /** A piece of the remainder is a piece of the whole, or ends one. */
  lemma NoLongLineAfter(limit: nat, a: seq<Byte>, b: seq<Byte>)
    requires NoLongLine(limit, a + b)
    ensures |Last(Pieces(a, LF))| <= limit && LF[0] !in Last(Pieces(a, LF))
    ensures NoLongLine(limit, Last(Pieces(a, LF)) + b)
  {
    PiecesConcat(a, b, LF);
    var rest := Last(Pieces(a, LF));
    ShortBehind(limit, Init(Pieces(a, LF)), Pieces(rest + b, LF));
    PieceHasNoNewline(a, |Pieces(a, LF)| - 1);
    FirstPieceExtends(rest, b);
  }

  lemma ShortBehind(limit: nat, before: seq<seq<Byte>>, after: seq<seq<Byte>>)
    requires forall k :: 0 <= k < |before + after| ==> |(before + after)[k]| <= limit
    ensures forall k :: 0 <= k < |after| ==> |after[k]| <= limit
  {
    forall k | 0 <= k < |after| ensures |after[k]| <= limit {
      assert (before + after)[|before| + k] == after[k];
    }
  }

  lemma InitOfConcat(before: seq<seq<Byte>>, after: seq<seq<Byte>>)
    requires after != []
    ensures Init(before + after) == before + Init(after) && Last(before + after) == Last(after)
  {
  }

  lemma PieceHasNoNewline(a: seq<Byte>, k: nat)
    requires k < |Pieces(a, LF)|
    ensures LF[0] !in Pieces(a, LF)[k]
  {
    var piece := Pieces(a, LF)[k];
    forall i | 0 <= i < |piece| ensures piece[i] != LF[0] {
      PieceHasNoSeparator(a, LF, k, i);
      assert piece[i..i + 1] == [piece[i]];
    }
  }

  lemma PrependToLine(a: seq<Byte>, line: seq<Byte>, more: seq<Byte>)
    ensures a + (line + LF + more) == (a + line) + LF + more
  {
  }

  /** Text without a newline is a prefix of the first piece of what it starts. */
  lemma FirstPieceExtends(rest: seq<Byte>, b: seq<Byte>)
    requires LF[0] !in rest
    ensures rest <= Pieces(rest + b, LF)[0]
  {
    var line, ended, more := FirstLine(b);
    PiecesOfLine(rest + line, more);
    if ended { PrependToLine(rest, line, more); }
  }

  lemma LinesOfConcat(a: seq<Byte>, b: seq<Byte>)
    ensures LinesOf(a + b) == Init(Pieces(a, LF)) + LinesOf(Last(Pieces(a, LF)) + b)
  {
    PiecesConcat(a, b, LF);
    InitOfConcat(Init(Pieces(a, LF)), Pieces(Last(Pieces(a, LF)) + b, LF));
  }

  /** Without an over-long line, no cut of the stream changes its lines. */
  lemma {:induction false} StreamIsLossless(limit: nat, buffer: seq<Byte>, chunks: seq<seq<Byte>>)
    requires LF[0] !in buffer
    requires NoLongLine(limit, buffer + Concat(chunks))
    ensures Stream(limit, buffer, chunks) == LinesOf(buffer + Concat(chunks))
    decreases |chunks|
  {
    if chunks == [] {
      assert buffer + Concat(chunks) == buffer;
      LinesOfLine(buffer, []);
    } else {
      var a, b := buffer + chunks[0], Concat(chunks[1..]);
      assert buffer + Concat(chunks) == a + b;
      NoLongLineAfter(limit, a, b);
      LinesOfConcat(a, b);
      StreamIsLossless(limit, Last(Pieces(a, LF)), chunks[1..]);
    }
  }

  /** A text is one line without a newline, or such a line, a newline, and the rest. */
  lemma FirstLine(text: seq<Byte>) returns (line: seq<Byte>, ended: bool, rest: seq<Byte>)
    ensures LF[0] !in line
    ensures text == if ended then line + LF + rest else line
  {
    match IndexOf(text, LF)
    case None =>
      line, ended, rest := text, false, [];
      forall j | 0 <= j < |text| ensures text[j] != LF[0] {
        assert !OccursAt(text, LF, j) && text[j..j + 1] == [text[j]];
      }
    case Some(i) =>
      line, ended, rest := text[..i], true, text[i + 1..];
      assert text[i..i + 1] == LF;
      forall j | 0 <= j < i ensures text[j] != LF[0] {
        assert !OccursAt(text, LF, j) && text[j..j + 1] == [text[j]];
      }
  }

  lemma PiecesOfLine(line: seq<Byte>, rest: seq<Byte>)
    requires LF[0] !in line
    ensures Pieces(line, LF) == [line]
    ensures Pieces(line + LF + rest, LF) == [line] + Pieces(rest, LF)
  {
    forall j ensures !OccursAt(line, LF, j) {
      if 0 <= j < |line| {
        assert line[j] in line && line[j..j + 1] == [line[j]];
      }
    }
    var all := line + LF + rest;
    forall j | 0 <= j < |line| ensures !OccursAt(all, LF, j) {
      assert all[j] == line[j] && line[j] in line;
      assert all[j..j + 1] == [line[j]];
    }
    PiecesCons(line, rest, LF);
  }

  lemma LinesOfLine(line: seq<Byte>, rest: seq<Byte>)
    requires LF[0] !in line
    ensures LinesOf(line) == if line == [] then [] else [line]
    ensures LinesOf(line + LF + rest) == [line] + LinesOf(rest)
  {
    PiecesOfLine(line, rest);
    var tail := Pieces(rest, LF);
    assert Init([line] + tail) == [line] + Init(tail);
  }

  /** One read followed by the end of the stream. */
  lemma StreamOfOneChunk(limit: nat, b: seq<Byte>)
    ensures var pieces := Pieces(b, LF);
            Stream(limit, [], [b])
            == if 0 < |Last(pieces)| <= limit then pieces else Init(pieces)
  {
    assert [] + b == b;
    var pieces := Pieces(b, LF);
    assert [b][1..] == [];
    assert Init(pieces) + [Last(pieces)] == pieces;
    assert Init(pieces) + [] == Init(pieces);
  }

  /** A first read that overflows the limit without a newline is forgotten. */
  lemma Overflow(limit: nat, a: seq<Byte>, chunks: seq<seq<Byte>>)
    requires LF[0] !in a && |a| > limit
    ensures Stream(limit, [], [a] + chunks) == Stream(limit, [], chunks)
  {
    PiecesOfLine(a, []);
    assert [] + a == a;
    assert ([a] + chunks)[1..] == chunks;
    assert Init([a]) + Stream(limit, [], chunks) == Stream(limit, [], chunks);
  }

  /** A first read that is one whole line, kept. */
  lemma OneLineRead(limit: nat, line: seq<Byte>, chunks: seq<seq<Byte>>)
    requires LF[0] !in line
    ensures Stream(limit, [], [line + LF] + chunks) == [line] + Stream(limit, [], chunks)
  {
    OneLineAbsorbed(limit, line);
    assert ([line + LF] + chunks)[1..] == chunks;
  }

  lemma OneLineAbsorbed(limit: nat, line: seq<Byte>)
    requires LF[0] !in line
    ensures Absorb(limit, [], line + LF) == ([line], [])
  {
    PiecesOfLine(line, []);
    PiecesOfLine([], []);
    assert [] + (line + LF) == line + LF + [] == line + LF;
    assert Init([line] + [[]]) == [line] && Last([line] + [[]]) == [];
  }

  /** A first line that lost some bytes shows, whether or not it has ended. */
  lemma ShortEndedLine(limit: nat, line: seq<Byte>, short: seq<Byte>, rest: seq<Byte>)
    requires LF[0] !in line && LF[0] !in short && |short| < |line|
    ensures Stream(limit, [], [short + LF + rest]) != LinesOf(line + LF + rest)
  {
    PiecesOfLine(short, rest);
    StreamOfOneChunk(limit, short + LF + rest);
    assert Stream(limit, [], [short + LF + rest])[0] == short;
    LinesOfLine(line, rest);
    assert LinesOf(line + LF + rest)[0] == line;
  }

  lemma ShortLastLine(limit: nat, line: seq<Byte>, short: seq<Byte>)
    requires LF[0] !in line && LF[0] !in short && |short| < |line|
    ensures Stream(limit, [], [short]) != LinesOf(line)
  {
    PiecesOfLine(short, []);
    StreamOfOneChunk(limit, short);
    LinesOfLine(line, []);
  }

  lemma CutInsideLine(line: seq<Byte>, ended: bool, rest: seq<Byte>, n: nat)
    requires n <= |line|
    ensures var text := if ended then line + LF + rest else line;
            text[..n] == line[..n] && text[n..] == if ended then line[n..] + LF + rest else line[n..]
  {
  }

  /** The cut right after the first byte that is too many. */
  lemma CutLongLine(limit: nat, line: seq<Byte>, ended: bool, rest: seq<Byte>)
    requires LF[0] !in line && |line| > limit
    ensures var text := if ended then line + LF + rest else line;
            Stream(limit, [], [text[..limit + 1], text[limit + 1..]]) != LinesOf(text)
  {
    var text := if ended then line + LF + rest else line;
    var a, b, short := text[..limit + 1], text[limit + 1..], line[limit + 1..];
    CutInsideLine(line, ended, rest, limit + 1);
    Overflow(limit, a, [b]);
    assert [a, b] == [a] + [b];
    if ended {
      ShortEndedLine(limit, line, short, rest);
    } else {
      ShortLastLine(limit, line, short);
    }
  }

  /** Some cut of a stream with an over-long line changes its lines. */
  lemma {:induction false} LongLineIsLost(limit: nat, text: seq<Byte>) returns (chunks: seq<seq<Byte>>)
    requires !NoLongLine(limit, text)
    ensures Concat(chunks) == text && Stream(limit, [], chunks) != LinesOf(text)
    decreases |text|
  {
    var line, ended, rest := FirstLine(text);
    PiecesOfLine(line, rest);
    if |line| > limit {
      chunks := [text[..limit + 1], text[limit + 1..]];
      assert Concat(chunks) == text by {
        assert chunks[1..] == [text[limit + 1..]] && Concat(chunks[1..]) == text[limit + 1..];
      }
      CutLongLine(limit, line, ended, rest);
    } else {
      var k :| 0 <= k < |Pieces(text, LF)| && |Pieces(text, LF)[k]| > limit;
      assert ended && Pieces(rest, LF)[k - 1] == Pieces(text, LF)[k];
      var cut := LongLineIsLost(limit, rest);
      chunks := [line + LF] + cut;
      assert chunks[1..] == cut && Concat(chunks) == line + LF + rest;
      OneLineRead(limit, line, cut);
      LinesOfLine(line, rest);
      assert ([line] + Stream(limit, [], cut))[1..] == Stream(limit, [], cut);
      assert ([line] + LinesOf(rest))[1..] == LinesOf(rest);
    }
  }

  /** A stream survives every cut exactly when none of its lines exceeds the limit. */
  lemma LosslessIffNoLongLine(limit: nat, text: seq<Byte>)
    ensures NoLongLine(limit, text)
       <==> forall chunks: seq<seq<Byte>> :: Concat(chunks) == text ==> Stream(limit, [], chunks) == LinesOf(text)
  {
    assert [] + text == text;
    if NoLongLine(limit, text) {
      forall chunks: seq<seq<Byte>> | Concat(chunks) == text ensures Stream(limit, [], chunks) == LinesOf(text) {
        StreamIsLossless(limit, [], chunks);
      }
    } else {
      var chunks := LongLineIsLost(limit, text);
    }
  }

  // ----- Lines as a program prints them -----

  /** The bytes of lines that each end with a newline. */
  function Printed(lines: seq<seq<Byte>>): seq<Byte> {
    if lines == [] then [] else lines[0] + LF + Printed(lines[1..])
  }

  lemma {:induction false} PrintedPieces(lines: seq<seq<Byte>>)
    requires forall line :: line in lines ==> LF[0] !in line
    ensures Pieces(Printed(lines), LF) == lines + [[]]
  {
    if lines == [] {
      PiecesOfLine([], []);
    } else {
      assert lines[0] in lines;
      PrintedPieces(lines[1..]);
      PiecesOfLine(lines[0], Printed(lines[1..]));
      assert lines == [lines[0]] + lines[1..];
    }
  }

  lemma PrintedIsLossless(limit: nat, lines: seq<seq<Byte>>, chunks: seq<seq<Byte>>)
    requires forall line :: line in lines ==> LF[0] !in line && |line| <= limit
    requires Concat(chunks) == Printed(lines)
    ensures Stream(limit, [], chunks) == lines
  {
    PrintedPieces(lines);
    var pieces := lines + [[]];
    assert Init(pieces) == lines && Last(pieces) == [];
    forall k | 0 <= k < |pieces| ensures |pieces[k]| <= limit {
      assert k < |lines| ==> pieces[k] == lines[k] && lines[k] in lines;
    }
    assert [] + Concat(chunks) == Printed(lines);
    StreamIsLossless(limit, [], chunks);
  }

  /** `line` is `text`, or `text` and a carriage return. */
  predicate WithoutReturn(text: string, line: string) {
    line == text + "\r" || (line == text && (text == "" || text[|text| - 1] != '\r'))
  }

  lemma DecodeDropsReturn(utf8: seq<Byte> -> string, line: seq<Byte>)
    ensures WithoutReturn(DecodeLine(utf8, line), utf8(line))
  {
    var text := utf8(line);
    if text != "" && text[|text| - 1] == '\r' {
      assert text == text[..|text| - 1] + "\r";
    }
  }

  /** However the stream is cut, every printed line arrives, without the carriage return that may end it. */
  lemma PrintedLinesArrive(limit: nat, utf8: seq<Byte> -> string, lines: seq<seq<Byte>>, chunks: seq<seq<Byte>>)
    requires forall line :: line in lines ==> LF[0] !in line && |line| <= limit
    requires Concat(chunks) == Printed(lines)
    ensures var out := DecodeLines(utf8, Stream(limit, [], chunks));
            |out| == |lines| && forall k :: 0 <= k < |lines| ==> WithoutReturn(out[k], utf8(lines[k]))
  {
    PrintedIsLossless(limit, lines, chunks);
    forall k | 0 <= k < |lines| ensures WithoutReturn(DecodeLine(utf8, lines[k]), utf8(lines[k])) {
      DecodeDropsReturn(utf8, lines[k]);
    }
  }
}
