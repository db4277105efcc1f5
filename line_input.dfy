/**
 * Reading one command line: how `fgets(input, MAX_LINE, stdin)` cuts the
 * input stream into chunks, what the 80-byte `input` buffer holds afterwards,
 * and the removal of one trailing newline.
 */
module LineInput {
  import opened CString
  import opened Optional

  /** MAX_LINE: the size of the `input` buffer and of the `command` buffer. */
  const MaxLine: nat := 80

  const NewLine: char := '\n'

  /**
   * How many characters `fgets` takes from `stream` when it may store at most
   * `room` of them: it stops after a newline, at the end of the stream, or
   * when the room is used up.
   */
  function ChunkLength(stream: string, room: nat): (n: nat)
    ensures n <= room && n <= |stream|
    ensures room > 0 && stream != [] ==> n > 0
    ensures forall i :: 0 <= i < n - 1 ==> stream[i] != NewLine
    ensures n < room && n < |stream| ==> n > 0 && stream[n - 1] == NewLine
  {
    if room == 0 || stream == [] then 0
    else if stream[0] == NewLine then 1
    else 1 + ChunkLength(stream[1..], room - 1)
  }

  /**
   * `fgets(input, MAX_LINE, stdin)`: NULL at the end of the stream, otherwise
   * the characters it stores in front of the terminating NUL (at most
   * MAX_LINE - 1 of them, a newline only as the last one).
   */
  function ReadLine(stream: string): (r: Option<string>)
    ensures r.None? <==> stream == []
    ensures r.Some? ==> 0 < |r.value| < MaxLine && r.value <= stream
    ensures r.Some? ==> forall i :: 0 <= i < |r.value| - 1 ==> r.value[i] != NewLine
    ensures r.Some? && |r.value| < MaxLine - 1 && |r.value| < |stream| ==>
              r.value[|r.value| - 1] == NewLine
  {
    if stream == [] then None else Some(stream[..ChunkLength(stream, MaxLine - 1)])
  }

  /**
   * A line longer than the buffer is not cut off: `fgets` returns its first
   * MAX_LINE - 1 characters, and the following calls return the rest, at most
   * MAX_LINE - 1 characters at a time.
   */
  lemma LongLineIsSplit(stream: string)
    requires |stream| >= MaxLine - 1
    requires forall i :: 0 <= i < MaxLine - 2 ==> stream[i] != NewLine
    ensures ReadLine(stream) == Some(stream[..MaxLine - 1])
    ensures Lines(stream) == [stream[..MaxLine - 1]] + Lines(stream[MaxLine - 1..])
  {
    ChunkFillsRoom(stream, MaxLine - 1);
  }

  /** Without a newline before its last place, the room is used up. */
  lemma {:induction false} ChunkFillsRoom(stream: string, room: nat)
    requires room <= |stream|
    requires forall i :: 0 <= i < room - 1 ==> stream[i] != NewLine
    ensures ChunkLength(stream, room) == room
  {
    if room > 1 {
      ChunkFillsRoom(stream[1..], room - 1);
    }
  }

  /** The successive chunks that repeated `fgets` calls return until the end of the stream. */
  function Lines(stream: string): (ls: seq<string>)
    decreases |stream|
  {
    match ReadLine(stream)
    case None => []
    case Some(chunk) => [chunk] + Lines(stream[|chunk|..])
  }

  /** Reading the chunks one after another gives back the whole stream. */
  lemma {:induction false} LinesCoverStream(stream: string)
    ensures Concat(Lines(stream)) == stream
    decreases |stream|
  {
    if stream != [] {
      var chunk := ReadLine(stream).value;
      var rest := stream[|chunk|..];
      var ls := Lines(stream);
      assert ls == [chunk] + Lines(rest);
      assert ls[0] == chunk && ls[1..] == Lines(rest);
      LinesCoverStream(rest);
      assert stream == chunk + rest;
    }
  }

  /** Every chunk is non-empty and shorter than the buffer. */
  lemma {:induction false} LineLengths(stream: string)
    ensures forall i :: 0 <= i < |Lines(stream)| ==> 0 < |Lines(stream)[i]| < MaxLine
    decreases |stream|
  {
    if stream != [] {
      var chunk := ReadLine(stream).value;
      var rest := stream[|chunk|..];
      var ls := Lines(stream);
      assert ls == [chunk] + Lines(rest);
      LineLengths(rest);
      assert forall i :: 1 <= i < |ls| ==> ls[i] == Lines(rest)[i - 1];
    }
  }

  function Concat(ls: seq<string>): string
  {
    if ls == [] then [] else ls[0] + Concat(ls[1..])
  }

  /**
   * The buffer after `fgets` has stored `chunk`: the chunk, its NUL, and
   * whatever the buffer held beyond them before.
   */
  function Store(buf: seq<char>, chunk: string): (r: seq<char>)
    requires |chunk| < |buf|
    ensures |r| == |buf|
    ensures Str(r) == Str(chunk)
    ensures r[..|chunk|] == chunk && r[|chunk|] == NUL && r[|chunk| + 1..] == buf[|chunk| + 1..]
  {
    var r := chunk + [NUL] + buf[|chunk| + 1..];
    assert forall i :: 0 <= i < Strlen(chunk) ==> r[i] == chunk[i];
    StrlenUnique(r, Strlen(chunk));
    r
  }

  /** A string without its trailing newline, if it has one. */
  function Chomp(s: string): (r: string)
    ensures s == r || s == r + [NewLine]
    ensures s == r + [NewLine] <==> (s != [] && s[|s| - 1] == NewLine)
  {
    if s != [] && s[|s| - 1] == NewLine then s[..|s| - 1] else s
  }

  /**
   * The in-place newline strip: when the string in `buf` ends in a newline,
   * that one character is overwritten with NUL; no other byte changes.
   */
  function StripNewline(buf: seq<char>): (r: seq<char>)
    ensures |r| == |buf|
    ensures Str(r) == Chomp(Str(buf))
    ensures forall i :: 0 <= i < |buf| && i != Strlen(buf) - 1 ==> r[i] == buf[i]
  {
    var length := Strlen(buf);
    if length > 0 && buf[length - 1] == NewLine then
      var r := buf[length - 1 := NUL];
      StrlenUnique(r, length - 1);
      r
    else
      buf
  }

  /** The string the tokenizer sees for a chunk `fgets` returned. */
  function CommandText(chunk: string): (line: string)
  {
    Chomp(Str(chunk))
  }

  /** Whatever the buffer held before, storing a chunk and stripping it leaves its command text. */
  lemma {:induction false} StoredCommandText(buf: seq<char>, chunk: string)
    requires |chunk| < |buf|
    ensures Str(StripNewline(Store(buf, chunk))) == CommandText(chunk)
    ensures |CommandText(chunk)| <= |chunk|
  {
  }
}
