/**
  How memlogd cuts a log file descriptor into messages (`readLogFromFd`). The
  buffered reader hands out a line in one or more chunks, as its buffer happens
  to fill; every line becomes one message of at most `maxLineLen` bytes.
 */
module LineReader {

  type Bytes = seq<bv8>

  /** What one `ReadLine` call gives: a chunk, with a mark if the line goes on, or an error. */
  datatype Read = Chunk(bytes: Bytes, isPrefix: bool) | Error

  // The reader is the sequence of the outcomes of its calls; past the end every call fails.

  // ----- the lines there are -----

  /** The line that begins here, all its chunks put together, up to its end or an error inside it; and what follows. */
  function FirstLine(input: seq<Read>): (r: (Bytes, seq<Read>))
    ensures input != [] ==> |r.1| < |input|
  {
    if input == [] then ([], [])
    else
      match input[0]
      case Error => ([], input[1..])
      case Chunk(bytes, isPrefix) =>
        if !isPrefix then (bytes, input[1..])
        else
          var (more, rest) := FirstLine(input[1..]);
          (bytes + more, rest)
  }

  /** All lines; an error where a line should begin ends them. */
  function Lines(input: seq<Read>): seq<Bytes>
    decreases |input|
  {
    if input == [] || input[0].Error? then []
    else
      var (line, rest) := FirstLine(input);
      [line] + Lines(rest)
  }

  function Take(b: Bytes, n: nat): Bytes {
    if |b| <= n then b else b[..n]
  }

  /** What should be logged: the start of every line, in order. */
  function Messages(lines: seq<Bytes>, maxLineLen: nat): (r: seq<Bytes>)
    ensures |r| == |lines|
    ensures forall i :: 0 <= i < |lines| ==> r[i] == Take(lines[i], maxLineLen)
  {
    if lines == [] then [] else [Take(lines[0], maxLineLen)] + Messages(lines[1..], maxLineLen)
  }

  // ----- every way of cutting the lines up -----

  function Concat(chunks: seq<Bytes>): Bytes {
    if chunks == [] then [] else chunks[0] + Concat(chunks[1..])
  }

  /** A line as the reader hands it out in these chunks: all but the last are marked. */
  function AsReads(chunks: seq<Bytes>): seq<Read> {
    if chunks == [] then [] else [Chunk(chunks[0], |chunks| > 1)] + AsReads(chunks[1..])
  }

  function AllReads(cut: seq<seq<Bytes>>): seq<Read> {
    if cut == [] then [] else AsReads(cut[0]) + AllReads(cut[1..])
  }

  /** Every line is cut into one or more chunks. */
  predicate CutsUp(cut: seq<seq<Bytes>>, lines: seq<Bytes>) {
    |cut| == |lines| && forall i :: 0 <= i < |cut| ==> cut[i] != [] && Concat(cut[i]) == lines[i]
  }

  lemma {:induction false} FirstLineOfReads(chunks: seq<Bytes>, rest: seq<Read>)
    requires chunks != []
    ensures FirstLine(AsReads(chunks) + rest) == (Concat(chunks), rest)
  {
    var input := AsReads(chunks) + rest;
    assert input[1..] == AsReads(chunks[1..]) + rest;
    if |chunks| > 1 {
      FirstLineOfReads(chunks[1..], rest);
    } else {
      assert chunks[0] + [] == chunks[0];
      assert [] + rest == rest;
    }
  }

  /** Reassembling gives back the lines, however they were cut and whatever follows. */
  lemma {:induction false} LinesOfReads(cut: seq<seq<Bytes>>, lines: seq<Bytes>, rest: seq<Read>)
    requires CutsUp(cut, lines)
    ensures Lines(AllReads(cut) + rest) == lines + Lines(rest)
  {
    if cut == [] {
      assert AllReads(cut) + rest == rest;
    } else {
      var more := AllReads(cut[1..]) + rest;
      assert AllReads(cut) + rest == AsReads(cut[0]) + more;
      FirstLineOfReads(cut[0], more);
      LinesOfReads(cut[1..], lines[1..], rest);
      assert (AllReads(cut) + rest)[0] == AsReads(cut[0])[0];
      assert lines == [lines[0]] + lines[1..];
    }
  }

  /** For every way the reader splits the lines, what is logged is the same: the first bytes of each. */
  lemma AnyCutSameLog(cut: seq<seq<Bytes>>, lines: seq<Bytes>, maxLineLen: nat)
    requires CutsUp(cut, lines)
    ensures var log := Messages(Lines(AllReads(cut)), maxLineLen);
      |log| == |lines|
      && forall i :: 0 <= i < |lines| ==> log[i] == if |lines[i]| > maxLineLen then lines[i][..maxLineLen] else lines[i]
  {
    LinesOfReads(cut, lines, []);
    assert AllReads(cut) + [] == AllReads(cut);
    assert lines + [] == lines;
  }

  /** Chunks that all say the line goes on. */
  function Unfinished(chunks: seq<Bytes>): seq<Read> {
    if chunks == [] then [] else [Chunk(chunks[0], true)] + Unfinished(chunks[1..])
  }

  lemma {:induction false} FirstLineCutShort(chunks: seq<Bytes>, rest: seq<Read>)
    requires chunks != []
    ensures FirstLine(Unfinished(chunks) + [Error] + rest) == (Concat(chunks), rest)
  {
    var input := Unfinished(chunks) + [Error] + rest;
    assert input[1..] == Unfinished(chunks[1..]) + [Error] + rest;
    if |chunks| > 1 {
      FirstLineCutShort(chunks[1..], rest);
    } else {
      assert input[1..] == [Error] + rest && ([Error] + rest)[1..] == rest;
      assert chunks[0] + [] == chunks[0];
    }
  }

  /** A read error inside a line ends that line there, and reading goes on; one where a line should begin ends the log. */
  lemma ErrorEndsLine(cut: seq<seq<Bytes>>, lines: seq<Bytes>, chunks: seq<Bytes>, rest: seq<Read>)
    requires CutsUp(cut, lines) && chunks != []
    ensures Lines(AllReads(cut) + (Unfinished(chunks) + [Error] + rest)) == lines + [Concat(chunks)] + Lines(rest)
    ensures Lines(AllReads(cut) + ([Error] + rest)) == lines
  {
    hide AllReads, Concat, FirstLine;
    var cutShort := Unfinished(chunks) + [Error] + rest;
    LinesOfReads(cut, lines, cutShort);
    FirstLineCutShort(chunks, rest);
    assert cutShort[0] == Chunk(chunks[0], true);
    assert Lines(cutShort) == [Concat(chunks)] + Lines(rest);
    LinesOfReads(cut, lines, [Error] + rest);
    assert lines + [] == lines;
  }

  // ----- the code -----

  /** The rest of a line whose first chunk is in the buffer: chunks are added while the buffer is short. */
  method FinishLine(input: seq<Read>, maxLineLen: nat) returns (buffer: Bytes, rest: seq<Read>)
    requires input != [] && input[0].Chunk?
    ensures Take(buffer, maxLineLen) == Take(FirstLine(input).0, maxLineLen)
    ensures rest == FirstLine(input).1
  {
    buffer, rest := input[0].bytes, input[1..];
    var isPrefix := input[0].isPrefix;
    while isPrefix
      invariant isPrefix ==> Take(buffer + FirstLine(rest).0, maxLineLen) == Take(FirstLine(input).0, maxLineLen)
      invariant isPrefix ==> FirstLine(rest).1 == FirstLine(input).1
      invariant !isPrefix ==> Take(buffer, maxLineLen) == Take(FirstLine(input).0, maxLineLen) && rest == FirstLine(input).1
      decreases |rest|, isPrefix
    {
      if rest == [] || rest[0].Error? {
        assert buffer + [] == buffer;
        rest := if rest == [] then [] else rest[1..];
        break;
      }
      isPrefix := rest[0].isPrefix;
      ghost var after := if isPrefix then FirstLine(rest[1..]).0 else [];
      assert buffer + (rest[0].bytes + after) == buffer + rest[0].bytes + after;
      if |buffer| < maxLineLen {
        buffer := buffer + rest[0].bytes;
      }
      rest := rest[1..];
    }
  }

  /** One message per line, in order, each the line's first bytes. */
  method ReadLog(input: seq<Read>, maxLineLen: nat) returns (log: seq<Bytes>)
    ensures log == Messages(Lines(input), maxLineLen)
  {
    hide Lines, Messages, FirstLine;
    log := [];
    var rest := input;
    while rest != [] && rest[0].Chunk?
      invariant log + Messages(Lines(rest), maxLineLen) == Messages(Lines(input), maxLineLen)
      decreases |rest|
    {
      var buffer, next := FinishLine(rest, maxLineLen);
      if |buffer| > maxLineLen {
        buffer := buffer[..maxLineLen];
      }
      NextMessage(rest, maxLineLen);
      log := log + [buffer];
      rest := next;
    }
    NoMessage(rest, maxLineLen);
  }

  lemma NextMessage(input: seq<Read>, maxLineLen: nat)
    requires input != [] && input[0].Chunk?
    ensures Messages(Lines(input), maxLineLen) ==
      [Take(FirstLine(input).0, maxLineLen)] + Messages(Lines(FirstLine(input).1), maxLineLen)
  {
    assert Lines(input)[1..] == Lines(FirstLine(input).1);
  }

  lemma NoMessage(input: seq<Read>, maxLineLen: nat)
    requires input == [] || input[0].Error?
    ensures Messages(Lines(input), maxLineLen) == []
  {
  }
}
