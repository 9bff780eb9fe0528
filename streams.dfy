/**
 * The java.io / java.net collaborators the core drives, reduced to what the
 * core observes of them: a connection's raw byte streams, its line-oriented
 * reader and writer, and the close behaviour of sockets.
 */
module Streams {

  /** A value of a Kotlin `ByteArray` element read as unsigned, 0..255. */
  type Byte = b: int | 0 <= b < 256

  function Min(a: int, b: int): int { if a <= b then a else b }

  function Max(a: int, b: int): int { if a >= b then a else b }

  /** A socket's raw output stream. */
  class ByteOutput {
    var written: seq<Byte>

    constructor ()
      ensures written == []
    {
      written := [];
    }

    /** `write(int)`: only the low 8 bits of the argument go on the wire. */
    method Write(v: int)
      modifies this
      ensures written == old(written) + [v % 256]
    {
      written := written + [v % 256];
    }

    /** `write(ByteArray)`: every byte, in order. */
    method WriteAll(bs: seq<Byte>)
      modifies this
      ensures written == old(written) + bs
    {
      written := written + bs;
    }
  }

  /**
   * How many bytes one bulk `read(buf)` delivers: 0 for an empty buffer, -1
   * at end of stream, and otherwise at least one byte and at most what the
   * buffer holds, what is left, and what the transport already has (`ready`).
   */
  function Delivered(len: nat, remaining: nat, ready: nat): (n: int)
    ensures len == 0 ==> n == 0
    ensures len > 0 && remaining == 0 ==> n == -1
    ensures len > 0 && remaining > 0 ==> 1 <= n <= len && n <= remaining
    ensures len > 0 && remaining > 0 && ready >= len && remaining >= len ==> n == len
  {
    if len == 0 then 0
    else if remaining == 0 then -1
    else Min(Min(len, remaining), Max(ready, 1))
  }

  /** A socket's raw input stream: the bytes the peer sends before it closes. */
  class ByteInput {
    const data: seq<Byte>
    var pos: nat

    ghost predicate Valid()
      reads this
    {
      pos <= |data|
    }

    constructor (data: seq<Byte>)
      ensures this.data == data && pos == 0 && Valid()
    {
      this.data := data;
      pos := 0;
    }

    /** `read()`: the next byte as 0..255, or -1 at end of stream. */
    method Read() returns (r: int)
      requires Valid()
      modifies this
      ensures Valid()
      ensures old(pos) < |data| ==> r == data[old(pos)] && pos == old(pos) + 1
      ensures old(pos) == |data| ==> r == -1 && pos == old(pos)
    {
      if pos < |data| {
        r := data[pos];
        pos := pos + 1;
      } else {
        r := -1;
      }
    }

    /**
     * `read(buf, off, buf.size - off)`: one call, which fills `n` slots of
     * `buf` from `off` on and leaves the others as they were; `ready` is how
     * many bytes the transport has received when the call is made.
     * `read(buf)` is the call with `off` 0.
     */
    method ReadInto(buf: array<Byte>, off: nat, ready: nat) returns (n: int)
      requires Valid() && off <= buf.Length
      modifies this, buf
      ensures Valid()
      ensures n == Delivered(buf.Length - off, |data| - old(pos), ready)
      ensures n >= 0 ==> pos == old(pos) + n
      ensures n >= 0 ==> buf[..] == old(buf[..off]) + data[old(pos)..pos] + old(buf[off + n..])
      ensures n < 0 ==> pos == old(pos) && buf[..] == old(buf[..])
    {
      n := Delivered(buf.Length - off, |data| - pos, ready);
      if n > 0 {
        var i := 0;
        while i < n
          invariant 0 <= i <= n
          invariant pos == old(pos)
          invariant forall j :: 0 <= j < off ==> buf[j] == old(buf[j])
          invariant forall j :: off <= j < off + i ==> buf[j] == data[pos + j - off]
          invariant forall j :: off + i <= j < buf.Length ==> buf[j] == old(buf[j])
        {
          buf[off + i] := data[pos + i];
          i := i + 1;
        }
        ghost var expected := old(buf[..off]) + data[pos..pos + n] + old(buf[off + n..]);
        assert buf[..] == expected by {
          forall j | 0 <= j < buf.Length ensures buf[j] == expected[j] {
            if j < off {
            } else if j < off + n {
            } else {
            }
          }
        }
        pos := pos + n;
      }
    }
  }

  /** The outcome of `readLine()`: a line, `null` (end of stream), or an exception. */
  datatype LineRead = Line(text: string) | EndOfStream | ReadError

  /**
   * A `BufferedReader` over a connection, seen as the lines the peer sends,
   * followed by a clean end of stream or, if `failsAtEnd`, a read error.
   */
  class LineReader {
    const incoming: seq<string>
    const failsAtEnd: bool
    var pos: nat

    ghost predicate Valid()
      reads this
    {
      pos <= |incoming|
    }

    constructor (incoming: seq<string>, failsAtEnd: bool)
      ensures this.incoming == incoming && this.failsAtEnd == failsAtEnd
      ensures pos == 0 && Valid()
    {
      this.incoming := incoming;
      this.failsAtEnd := failsAtEnd;
      pos := 0;
    }

    /** What the next `readLine()` yields. */
    function Next(): (r: LineRead)
      reads this
      requires Valid()
      ensures r.Line? <==> pos < |incoming|
      ensures r.Line? ==> r.text == incoming[pos]
      ensures r == ReadError <==> pos == |incoming| && failsAtEnd
    {
      if pos < |incoming| then Line(incoming[pos])
      else if failsAtEnd then ReadError
      else EndOfStream
    }

    method ReadLine() returns (r: LineRead)
      requires Valid()
      modifies this
      ensures Valid()
      ensures r == old(Next())
      ensures pos == if r.Line? then old(pos) + 1 else old(pos)
    {
      r := Next();
      if r.Line? {
        pos := pos + 1;
      }
    }
  }

  /**
   * A `BufferedWriter` over a connection. `write` extends the current line,
   * `newLine` ends it, and `flush` puts every ended line on the wire (`sent`).
   * On a connection that can no longer be written (`broken`) flush throws.
   */
  class LineWriter {
    const broken: bool
    var current: string
    var buffered: seq<string>
    var sent: seq<string>

    constructor (broken: bool)
      ensures this.broken == broken && current == [] && buffered == [] && sent == []
    {
      this.broken := broken;
      current, buffered, sent := [], [], [];
    }

    method Write(s: string)
      modifies this
      ensures current == old(current) + s
      ensures buffered == old(buffered) && sent == old(sent)
    {
      current := current + s;
    }

    method NewLine()
      modifies this
      ensures current == [] && buffered == old(buffered) + [old(current)]
      ensures sent == old(sent)
    {
      buffered := buffered + [current];
      current := [];
    }

    /** Returns false where `flush()` throws. */
    method Flush() returns (ok: bool)
      modifies this
      ensures ok == !broken
      ensures ok ==> sent == old(sent) + old(buffered) && buffered == []
      ensures !ok ==> sent == old(sent) && buffered == old(buffered)
      ensures current == old(current)
    {
      ok := !broken;
      if ok {
        sent := sent + buffered;
        buffered := [];
      }
    }
  }

  /**
   * A connected socket: its line view, its raw byte view, and whether its
   * `close()` throws. A close that throws leaves it open.
   */
  class Socket {
    const reader: LineReader
    const writer: LineWriter
    const rawIn: ByteInput
    const rawOut: ByteOutput
    const closeFails: bool
    var open: bool
    var closeCalls: nat

    constructor (reader: LineReader, writer: LineWriter, rawIn: ByteInput, rawOut: ByteOutput, closeFails: bool)
      ensures this.reader == reader && this.writer == writer
      ensures this.rawIn == rawIn && this.rawOut == rawOut && this.closeFails == closeFails
      ensures open && closeCalls == 0
    {
      this.reader, this.writer := reader, writer;
      this.rawIn, this.rawOut := rawIn, rawOut;
      this.closeFails := closeFails;
      open, closeCalls := true, 0;
    }

    /** Returns true where `close()` throws. */
    method Close() returns (threw: bool)
      modifies this
      ensures threw == closeFails
      ensures closeCalls == old(closeCalls) + 1
      ensures open == (old(open) && closeFails)
    {
      threw := closeFails;
      closeCalls := closeCalls + 1;
      if !closeFails {
        open := false;
      }
    }
  }

  /** A listening socket bound to `port`. */
  class ServerSocket {
    const port: int
    const closeFails: bool
    var open: bool
    var closeCalls: nat

    constructor (port: int, closeFails: bool)
      ensures this.port == port && this.closeFails == closeFails
      ensures open && closeCalls == 0
    {
      this.port, this.closeFails := port, closeFails;
      open, closeCalls := true, 0;
    }

    /** Returns true where `close()` throws. */
    method Close() returns (threw: bool)
      modifies this
      ensures threw == closeFails
      ensures closeCalls == old(closeCalls) + 1
      ensures open == (old(open) && closeFails)
    {
      threw := closeFails;
      closeCalls := closeCalls + 1;
      if !closeFails {
        open := false;
      }
    }
  }
}
