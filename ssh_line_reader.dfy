/**
 * The `LineReader` of the SSH component
 * (kompics-daemon-launcher/src/main/java/se/sics/kompics/wan/master/ssh/SshComponent.java),
 * which assembles the output of a remote shell into lines, one byte at a time, keeping a
 * partial line in its buffer between calls.
 *
 * The input stream is the sequence of bytes it will deliver, followed by end of stream;
 * `position` counts the bytes read and `available()` is the number not yet read. A single
 * byte is decoded on its own, as `new String(byte[1])` does with UTF-8: an ASCII byte is
 * its character and any other byte is the replacement character U+FFFD.
 */
module SshLineReader {
  import opened Wrappers

  newtype Byte = b: int | 0 <= b < 256

  function DecodeByte(b: Byte): (c: char)
    ensures b < 128 ==> c as int == b as int
    ensures b >= 128 ==> c == '\U{FFFD}'
  {
    if b < 128 then (b as int) as char else '\U{FFFD}'
  }

  /** The bytes decoded one by one. */
  function Decode(bytes: seq<Byte>): (s: string)
    ensures |s| == |bytes|
  {
    if |bytes| == 0 then "" else [DecodeByte(bytes[0])] + Decode(bytes[1..])
  }

  predicate IsTerminator(c: char) {
    c == '\n' || c == '\r'
  }

  predicate NoTerminators(s: string) {
    forall i :: 0 <= i < |s| ==> !IsTerminator(s[i])
  }

  /** `s` without its line terminators. */
  function StripTerminators(s: string): string {
    if |s| == 0 then ""
    else (if IsTerminator(s[0]) then "" else [s[0]]) + StripTerminators(s[1..])
  }

  /** What a call of `readLine` returns, and the reader's position and buffer after it. */
  datatype ReadResult = ReadResult(line: Option<string>, position: nat, buf: string)

  /**
   * The byte loop of `readLine`, from `pos` with buffer `buf`: it returns a non-empty line
   * after consuming at least its terminator and clears the buffer, or reads to the end of
   * the stream and returns null.
   */
  function ReadLoop(stream: seq<Byte>, pos: nat, buf: string): (r: ReadResult)
    requires pos <= |stream|
    ensures pos <= r.position <= |stream|
    ensures r.line.None? ==> r.position == |stream|
    ensures r.line.Some? ==> pos < r.position && |r.line.value| > 0 && r.buf == ""
    decreases |stream| - pos
  {
    if pos == |stream| then ReadResult(None, pos, buf)
    else
      var c := DecodeByte(stream[pos]);
      if IsTerminator(c) then
        if |buf| > 0 then ReadResult(Some(buf), pos + 1, "") else ReadLoop(stream, pos + 1, buf)
      else ReadLoop(stream, pos + 1, buf + [c])
  }

  /**
   * `readLine`: null at once when nothing is available, consuming nothing and keeping the
   * buffer; otherwise the byte loop.
   */
  function NextLine(stream: seq<Byte>, pos: nat, buf: string): (r: ReadResult)
    requires pos <= |stream|
    ensures pos <= r.position <= |stream|
    ensures pos == |stream| ==> r == ReadResult(None, pos, buf)
    ensures r.line.None? ==> r.position == |stream|
  {
    if |stream| - pos > 0 then ReadLoop(stream, pos, buf) else ReadResult(None, pos, buf)
  }

  /**
   * A line returned is non-empty and holds no terminator, and the buffer is cleared; null
   * means the stream is exhausted, the partial line staying in the buffer.
   */
  lemma {:induction false} ReadLoopLines(stream: seq<Byte>, pos: nat, buf: string)
    requires pos <= |stream| && NoTerminators(buf)
    ensures var r := ReadLoop(stream, pos, buf);
      && (r.line.Some? ==> |r.line.value| > 0 && NoTerminators(r.line.value) && r.buf == ""
                           && IsTerminator(DecodeByte(stream[r.position - 1])))
      && (r.line.None? ==> r.position == |stream| && NoTerminators(r.buf))
    decreases |stream| - pos
  {
    if pos < |stream| {
      var c := DecodeByte(stream[pos]);
      if IsTerminator(c) {
        if |buf| == 0 {
          ReadLoopLines(stream, pos + 1, buf);
        }
      } else {
        ReadLoopLines(stream, pos + 1, buf + [c]);
      }
    }
  }

  /**
   * No character is lost: the old buffer followed by the bytes consumed, terminators
   * removed, is the line returned (if any) followed by the new buffer.
   */
  lemma {:induction false} ReadLoopKeepsText(stream: seq<Byte>, pos: nat, buf: string)
    requires pos <= |stream|
    ensures var r := ReadLoop(stream, pos, buf);
      buf + StripTerminators(Decode(stream[pos..r.position]))
        == (if r.line.Some? then r.line.value else "") + r.buf
    decreases |stream| - pos
  {
    var r := ReadLoop(stream, pos, buf);
    if pos < |stream| {
      var c := DecodeByte(stream[pos]);
      assert stream[pos..r.position][0] == stream[pos];
      assert stream[pos..r.position][1..] == stream[pos + 1..r.position];
      if IsTerminator(c) {
        if |buf| == 0 {
          ReadLoopKeepsText(stream, pos + 1, buf);
        } else {
          assert stream[pos + 1..r.position] == [];
        }
      } else {
        ReadLoopKeepsText(stream, pos + 1, buf + [c]);
      }
    } else {
      assert stream[pos..r.position] == [];
    }
  }

  /** The properties of `readLine`, stated on `NextLine`. */
  lemma NextLineProperties(stream: seq<Byte>, pos: nat, buf: string)
    requires pos <= |stream| && NoTerminators(buf)
    ensures var r := NextLine(stream, pos, buf);
      && pos <= r.position <= |stream|
      && (r.line.Some? ==> |r.line.value| > 0 && NoTerminators(r.line.value) && r.buf == "")
      && (r.line.None? ==> r.position == |stream| && NoTerminators(r.buf))
      && buf + StripTerminators(Decode(stream[pos..r.position]))
           == (if r.line.Some? then r.line.value else "") + r.buf
  {
    if pos < |stream| {
      ReadLoopLines(stream, pos, buf);
      ReadLoopKeepsText(stream, pos, buf);
    } else {
      assert stream[pos..pos] == [];
    }
  }

  class LineReader {
    const stream: seq<Byte>
    var position: nat
    var buf: string

    predicate Valid()
      reads this
    {
      position <= |stream|
    }

    constructor (inputStream: seq<Byte>)
      ensures stream == inputStream && position == 0 && buf == ""
      ensures Valid()
    {
      stream := inputStream;
      position := 0;
      buf := "";
    }

    /** `inputStream.available()` */
    function Available(): nat
      reads this
      requires Valid()
    {
      |stream| - position
    }

    /** `readLine` */
    method ReadLine() returns (line: Option<string>)
      requires Valid()
      modifies this
      ensures Valid()
      ensures ReadResult(line, position, buf) == NextLine(stream, old(position), old(buf))
    {
      if Available() > 0 {
        while position < |stream|
          invariant old(position) <= position <= |stream|
          invariant NextLine(stream, old(position), old(buf)) == ReadLoop(stream, position, buf)
          decreases |stream| - position
        {
          var c := DecodeByte(stream[position]);
          position := position + 1;
          if c == '\n' || c == '\r' {
            if |buf| > 0 {
              line := Some(buf);
              buf := "";
              return;
            }
          } else {
            buf := buf + [c];
          }
        }
      }
      line := None;
    }

    /**
     * `readRest`: when anything is available, all of it is appended to the buffer, which is
     * returned (and not cleared); otherwise "" and nothing changes. The bytes appended are
     * not filtered, so afterwards the buffer may hold line terminators, which a later
     * `readLine` would return inside a line. Nothing in the component calls `readRest`.
     */
    method ReadRest() returns (rest: string)
      requires Valid()
      modifies this
      ensures Valid()
      ensures old(Available()) > 0 ==>
        && buf == old(buf) + Decode(stream[old(position)..])
        && position == |stream| && rest == buf
      ensures old(Available()) == 0 ==> rest == "" && position == old(position) && buf == old(buf)
    {
      if Available() > 0 {
        buf := buf + Decode(stream[position..]);
        position := |stream|;
        rest := buf;
      } else {
        rest := "";
      }
    }
  }
}
