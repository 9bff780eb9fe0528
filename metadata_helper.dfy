/**
 * Profile framing over a connection's raw byte streams:
 *   [4-byte big-endian name length][name bytes][4-byte big-endian image length][image bytes]
 * The name travels as its UTF-8 bytes; the image is an opaque byte sequence.
 */
module MetadataHelper {
  import opened Streams
  import opened KotlinInt
  import opened SocketHolderModule
  import Utf8

  /** A Kotlin array size. */
  type Size = n: nat | n < 0x8000_0000

  // ---------------------------------------------------------------- encoder

  /** The four calls `write(size shr 24)`, `write(size shr 16)`, `write(size shr 8)`, `write(size)`. */
  function LengthPrefix(size: Size): seq<Byte>
  {
    [Shr(size, 24) % 256, Shr(size, 16) % 256, Shr(size, 8) % 256, size % 256]
  }

  /** Everything one `sendProfileInfo` call puts on the wire. */
  function Frame(nameBytes: seq<Byte>, imgBytes: seq<Byte>): seq<Byte>
    requires |nameBytes| < TwoTo31 && |imgBytes| < TwoTo31
  {
    LengthPrefix(|nameBytes|) + nameBytes + LengthPrefix(|imgBytes|) + imgBytes
  }

  /** The prefix is the 4-byte big-endian form of the size; its top byte is below 128. */
  lemma {:induction false} LengthPrefixIsBigEndian(size: Size)
    ensures var p := LengthPrefix(size);
      |p| == 4 && p[0] < 128 &&
      p[0] as int * 0x100_0000 + p[1] as int * 0x1_0000 + p[2] as int * 0x100 + p[3] as int == size
  {
    Pow2Values();
    var q1 := size / 0x100;
    var q2 := q1 / 0x100;
    assert size / 0x1_0000 == q2;
    assert size / 0x100_0000 == q2 / 0x100;
    assert size == q1 * 0x100 + size % 0x100;
    assert q1 == q2 * 0x100 + q1 % 0x100;
    assert q2 == (q2 / 0x100) * 0x100 + q2 % 0x100;
    assert q2 / 0x100 < 0x80;
  }

  /** An encoded frame is 4 + |name| + 4 + |image| bytes: name length, name, image length, image. */
  lemma {:induction false} FrameLayout(nameBytes: seq<Byte>, imgBytes: seq<Byte>)
    requires |nameBytes| < TwoTo31 && |imgBytes| < TwoTo31
    ensures var f, m := Frame(nameBytes, imgBytes), |nameBytes|;
      |f| == 4 + m + 4 + |imgBytes| &&
      f[..4] == LengthPrefix(m) && f[4..4 + m] == nameBytes &&
      f[4 + m..8 + m] == LengthPrefix(|imgBytes|) && f[8 + m..] == imgBytes
  {
    var f, m := Frame(nameBytes, imgBytes), |nameBytes|;
    assert f == LengthPrefix(m) + nameBytes + LengthPrefix(|imgBytes|) + imgBytes;
    assert f[4 + m..8 + m] == LengthPrefix(|imgBytes|);
  }

  /** The four single-byte writes of one length prefix. */
  method WriteLength(out: ByteOutput, size: Size)
    modifies out
    ensures out.written == old(out.written) + LengthPrefix(size)
  {
    out.Write(Shr(size, 24));
    out.Write(Shr(size, 16));
    out.Write(Shr(size, 8));
    out.Write(size);
  }

  /**
   * `sendProfileInfo(name, bitmap)` with the compressed image given as its
   * bytes: nothing happens unless both a writer and a socket are held;
   * otherwise the frame of the name's UTF-8 bytes and the image is written
   * to the socket's output stream.
   */
  method SendProfileInfo(holder: SocketHolder, name: string, imgBytes: seq<Byte>)
    requires |Utf8.Encode(name)| < TwoTo31 && |imgBytes| < TwoTo31
    modifies if holder.socket == null then {} else {holder.socket.rawOut}
    ensures holder.writer == null || holder.socket == null ==>
      holder.socket == null || unchanged(holder.socket.rawOut)
    ensures holder.writer != null && holder.socket != null ==>
      holder.socket.rawOut.written == old(holder.socket.rawOut.written) + Frame(Utf8.Encode(name), imgBytes)
  {
    if holder.writer == null || holder.socket == null {
      return;
    }
    WriteFrame(holder.socket.rawOut, Utf8.Encode(name), imgBytes);
  }

  /** Name length, name, image length, image, in that order. */
  method WriteFrame(out: ByteOutput, nameBytes: seq<Byte>, imgBytes: seq<Byte>)
    requires |nameBytes| < TwoTo31 && |imgBytes| < TwoTo31
    modifies out
    ensures out.written == old(out.written) + Frame(nameBytes, imgBytes)
  {
    ghost var before := out.written;
    WriteLength(out, |nameBytes|);
    out.WriteAll(nameBytes);
    WriteLength(out, |imgBytes|);
    out.WriteAll(imgBytes);
    assert out.written == before + (LengthPrefix(|nameBytes|) + nameBytes + LengthPrefix(|imgBytes|) + imgBytes);
  }

  // ---------------------------------------------------------------- decoder

  /** What `read()` returns at position i of the stream: the byte, or -1 past the end. */
  function ByteAt(data: seq<Byte>, i: nat): (r: int)
    ensures -1 <= r < 256
  {
    if i < |data| then data[i] else -1
  }

  /** `(read() shl 24) or (read() shl 16) or (read() shl 8) or read()` from position p. */
  function LengthAt(data: seq<Byte>, p: nat): Int32
  {
    Header(ByteAt(data, p), ByteAt(data, p + 1), ByteAt(data, p + 2), ByteAt(data, p + 3))
  }

  /** The header expression over the four values `read()` returned. */
  function Header(r0: int, r1: int, r2: int, r3: int): Int32
    requires -1 <= r0 < 256 && -1 <= r1 < 256 && -1 <= r2 < 256 && -1 <= r3 < 256
  {
    Or(Or(Or(Shl(r0, 24), Shl(r1, 16)), Shl(r2, 8)), r3)
  }

  /** Where the stream stands after four single-byte reads from p. */
  function AfterLength(data: seq<Byte>, p: nat): nat
  {
    Min(p + 4, |data|)
  }

  function Zeros(n: nat): (z: seq<Byte>)
    ensures |z| == n && forall i :: 0 <= i < n ==> z[i] == 0
  {
    seq(n, _ => 0)
  }

  /**
   * A fresh `ByteArray(len)` after one `read` call from position p, with
   * the position after it.
   */
  function BodyAt(data: seq<Byte>, p: nat, len: nat, ready: nat): (r: (seq<Byte>, nat))
    requires p <= |data|
    ensures |r.0| == len && p <= r.1 <= |data| && r.1 <= p + len
  {
    var n := Delivered(len, |data| - p, ready);
    if n <= 0 then (Zeros(len), p) else (data[p..p + n] + Zeros(len - n), p + n)
  }

  /** The outcomes of `receiveProfileInfo()`. */
  datatype Received =
    | NoSocket                                          // returns null
    | Profile(nameBytes: seq<Byte>, imgBytes: seq<Byte>)
    | NegativeArraySize                                 // `ByteArray(len)` throws
    | Truncated                                         // only the corrected decoder reports this

  datatype Decoded = Decoded(result: Received, consumed: nat)

  /**
   * `receiveProfileInfo()`, as written, on a stream holding `data` and
   * standing at position p: each body is filled by a single `read` call,
   * whose delivery is bounded by `nameReady` and `imgReady`. The result
   * comes with the position the stream is left at.
   */
  function DecodeAt(data: seq<Byte>, p: nat, nameReady: nat, imgReady: nat): Decoded
    requires p <= |data|
  {
    var nameLen := LengthAt(data, p);
    var p0 := AfterLength(data, p);
    if nameLen < 0 then Decoded(NegativeArraySize, p0)
    else
      var (nameBytes, p1) := BodyAt(data, p0, nameLen, nameReady);
      var imgLen := LengthAt(data, p1);
      var p2 := AfterLength(data, p1);
      if imgLen < 0 then Decoded(NegativeArraySize, p2)
      else
        var (imgBytes, p3) := BodyAt(data, p2, imgLen, imgReady);
        Decoded(Profile(nameBytes, imgBytes), p3)
  }

  /** Decoding a stream from its start; `consumed` is then the number of bytes read. */
  function Decode(data: seq<Byte>, nameReady: nat, imgReady: nat): Decoded
  {
    DecodeAt(data, 0, nameReady, imgReady)
  }

  /** The stream behind the held socket, if any. */
  function InputOf(holder: SocketHolder): set<object>
    reads holder
  {
    if holder.socket == null then {} else {holder.socket.rawIn}
  }

  method ReadLength(input: ByteInput) returns (len: Int32)
    requires input.Valid()
    modifies input
    ensures input.Valid()
    ensures len == LengthAt(input.data, old(input.pos))
    ensures input.pos == AfterLength(input.data, old(input.pos))
  {
    ghost var p := input.pos;
    var b0 := input.Read();
    assert b0 == ByteAt(input.data, p);
    var b1 := input.Read();
    assert b1 == ByteAt(input.data, p + 1);
    var b2 := input.Read();
    assert b2 == ByteAt(input.data, p + 2);
    var b3 := input.Read();
    assert b3 == ByteAt(input.data, p + 3);
    assert input.pos == AfterLength(input.data, p);
    len := Or(Or(Or(Shl(b0, 24), Shl(b1, 16)), Shl(b2, 8)), b3);
  }

  /** A zero-filled `ByteArray(len)` and one `read(buf)` call into it. */
  method ReadBody(input: ByteInput, len: nat, ready: nat) returns (body: seq<Byte>)
    requires input.Valid()
    modifies input
    ensures input.Valid()
    ensures (body, input.pos) == BodyAt(input.data, old(input.pos), len, ready)
  {
    var buf := new Byte[len](_ => 0);
    ghost var p := input.pos;
    assert buf[..] == Zeros(len);
    var n := input.ReadInto(buf, 0, ready);
    body := buf[..];
    if n > 0 {
      assert body == input.data[p..p + n] + Zeros(len)[n..];
      assert Zeros(len)[n..] == Zeros(len - n);
    }
  }

  /**
   * `receiveProfileInfo()`: null without a socket; otherwise the as-written
   * decoding of what the socket's input stream still holds.
   */
  method ReceiveProfileInfo(holder: SocketHolder, nameReady: nat, imgReady: nat) returns (r: Received)
    requires holder.socket != null ==> holder.socket.rawIn.Valid()
    modifies InputOf(holder)
    ensures holder.socket == null ==> r == NoSocket
    ensures holder.socket != null ==>
      var d := DecodeAt(holder.socket.rawIn.data, old(holder.socket.rawIn.pos), nameReady, imgReady);
      r == d.result && holder.socket.rawIn.pos == d.consumed
  {
    if holder.socket == null {
      return NoSocket;
    }
    var input := holder.socket.rawIn;
    var nameLen := ReadLength(input);
    if nameLen < 0 {
      return NegativeArraySize;
    }
    var nameBytes := ReadBody(input, nameLen, nameReady);
    var imgLen := ReadLength(input);
    if imgLen < 0 {
      return NegativeArraySize;
    }
    var imgBytes := ReadBody(input, imgLen, imgReady);
    r := Profile(nameBytes, imgBytes);
  }

  // ---------------------------------------------------------------- properties

  /** Four bytes whose first is below 128 reassemble into their big-endian value. */
  lemma {:induction false} LengthOfBytes(data: seq<Byte>, p: nat)
    requires p + 4 <= |data| && data[p] < 128
    ensures LengthAt(data, p) ==
      data[p] as int * 0x100_0000 + data[p + 1] as int * 0x1_0000 + data[p + 2] as int * 0x100 + data[p + 3] as int
  {
    HeaderOfBytes(data[p], data[p + 1], data[p + 2], data[p + 3]);
  }

  /** The header expression over four bytes, the first below 128, is their big-endian value. */
  lemma {:induction false} HeaderOfBytes(b0: int, b1: int, b2: int, b3: int)
    requires 0 <= b0 < 128 && 0 <= b1 < 256 && 0 <= b2 < 256 && 0 <= b3 < 256
    ensures Header(b0, b1, b2, b3) == b0 * 0x100_0000 + b1 * 0x1_0000 + b2 * 0x100 + b3
  {
    var s0, s1, s2 := Shl(b0, 24), Shl(b1, 16), Shl(b2, 8);
    var x := b0 * 0x100_0000 + b1 * 0x1_0000;
    var y := x + b2 * 0x100;
    TopTwoBytes(b0, b1);
    ThirdByte(b0, b1, b2);
    FourthByte(b0, b1, b2, b3);
    assert Or(Or(s0, s1), s2) == y;
  }

  /** Or-ing in the third byte, shifted by 8, adds it. */
  lemma {:induction false} ThirdByte(b0: int, b1: int, b2: int)
    requires 0 <= b0 < 128 && 0 <= b1 < 256 && 0 <= b2 < 256
    ensures Or(b0 * 0x100_0000 + b1 * 0x1_0000, Shl(b2, 8)) == b0 * 0x100_0000 + b1 * 0x1_0000 + b2 * 0x100
  {
    assert (b0 * 0x100 + b1) * 0x1_0000 == b0 * 0x100_0000 + b1 * 0x1_0000;
    OrShiftedByte(b0 * 0x100 + b1, b2);
  }

  /** Or-ing in the fourth byte adds it. */
  lemma {:induction false} FourthByte(b0: int, b1: int, b2: int, b3: int)
    requires 0 <= b0 < 128 && 0 <= b1 < 256 && 0 <= b2 < 256 && 0 <= b3 < 256
    ensures Or(b0 * 0x100_0000 + b1 * 0x1_0000 + b2 * 0x100, b3) == b0 * 0x100_0000 + b1 * 0x1_0000 + b2 * 0x100 + b3
  {
    assert (b0 * 0x1_0000 + b1 * 0x100 + b2) * 0x100 == b0 * 0x100_0000 + b1 * 0x1_0000 + b2 * 0x100;
    OrLowByte(b0 * 0x1_0000 + b1 * 0x100 + b2, b3);
  }

  /** `(b0 shl 24) or (b1 shl 16)` for bytes, the first below 128. */
  lemma {:induction false} TopTwoBytes(b0: int, b1: int)
    requires 0 <= b0 < 128 && 0 <= b1 < 256
    ensures Or(Shl(b0, 24), Shl(b1, 16)) == b0 * 0x100_0000 + b1 * 0x1_0000
  {
    Pow2Values();
    ShlSmall(b0, 24);
    ShlSmall(b1, 16);
    MulMod(b0, 0x100_0000);
    OrDisjoint(b0 * 0x100_0000, b1 * 0x1_0000, 24);
  }

  /** `(m * 2^16) or (b shl 8)` for a byte b is `m * 2^16 + b * 2^8`, when that fits below 2^31. */
  lemma {:induction false} OrShiftedByte(m: nat, b: int)
    requires 0 <= b < 256 && m < 0x8000
    ensures Or(m * 0x1_0000, Shl(b, 8)) == m * 0x1_0000 + b * 0x100
  {
    Pow2Values();
    ShlSmall(b, 8);
    MulMod(m, 0x1_0000);
    OrDisjoint(m * 0x1_0000, b * 0x100, 16);
  }

  /** `(m * 256) or b` for a byte b is `m * 256 + b`, when that fits below 2^31. */
  lemma {:induction false} OrLowByte(m: nat, b: int)
    requires 0 <= b < 256 && m < 0x80_0000
    ensures Or(m * 0x100, b) == m * 0x100 + b
  {
    Pow2Values();
    MulMod(m, 0x100);
    OrDisjoint(m * 0x100, b, 8);
  }

  /**
   * A reassembled length is negative exactly when one of its four reads
   * hits the end of the stream (read() gives -1) or its first byte is 128
   * or more; then `ByteArray(len)` throws.
   */
  lemma {:induction false} LengthNegative(data: seq<Byte>, p: nat)
    ensures LengthAt(data, p) < 0 <==> p + 4 > |data| || data[p] >= 128
  {
    var b0, b1, b2, b3 := ByteAt(data, p), ByteAt(data, p + 1), ByteAt(data, p + 2), ByteAt(data, p + 3);
    if p + 4 <= |data| && data[p] < 128 {
      LengthOfBytes(data, p);
    } else {
      var s0, s1, s2 := Shl(b0, 24), Shl(b1, 16), Shl(b2, 8);
      if b0 == -1 {
        ShlMinusOne(24);
      } else if b0 >= 128 {
        ShlHighByte(b0);
      } else if b1 == -1 {
        ShlMinusOne(16);
      } else if b2 == -1 {
        ShlMinusOne(8);
      }
      assert s0 < 0 || s1 < 0 || s2 < 0 || b3 < 0;
      if s0 < 0 || s1 < 0 {
        OrNegative(s0, s1);
      }
      if Or(s0, s1) < 0 || s2 < 0 {
        OrNegative(Or(s0, s1), s2);
      }
      OrNegative(Or(Or(s0, s1), s2), b3);
    }
  }

  /** A length prefix read back gives the length it encodes, and four bytes are consumed. */
  lemma {:induction false} PrefixReadsBack(data: seq<Byte>, p: nat, size: Size)
    requires p + 4 <= |data| && data[p..p + 4] == LengthPrefix(size)
    ensures LengthAt(data, p) == size && AfterLength(data, p) == p + 4
  {
    LengthPrefixIsBigEndian(size);
    assert data[p] == LengthPrefix(size)[0];
    assert data[p + 1] == LengthPrefix(size)[1];
    assert data[p + 2] == LengthPrefix(size)[2];
    assert data[p + 3] == LengthPrefix(size)[3];
    LengthOfBytes(data, p);
  }

  /** Round trip of the header alone: every length in 0..2^31-1 comes back. */
  lemma {:induction false} LengthRoundTrip(size: Size)
    ensures LengthAt(LengthPrefix(size), 0) == size
  {
    PrefixReadsBack(LengthPrefix(size), 0, size);
  }

  /** A body read whose transport has the whole body ready returns exactly that body. */
  lemma {:induction false} WholeBody(data: seq<Byte>, p: nat, len: nat, ready: nat)
    requires p + len <= |data| && ready >= len
    ensures BodyAt(data, p, len, ready) == (data[p..p + len], p + len)
  {
    if len > 0 {
      assert data[p..p + len] + Zeros(0) == data[p..p + len];
    } else {
      assert Zeros(0) == [] == data[p..p];
    }
  }

  /**
   * Round trip: when each bulk read is handed the whole body, decoding an
   * encoded frame (whatever follows it) gives back the name and image bytes
   * and stops right after the frame.
   */
  lemma {:induction false} RoundTrip(nameBytes: seq<Byte>, imgBytes: seq<Byte>, rest: seq<Byte>, nameReady: nat, imgReady: nat)
    requires |nameBytes| < TwoTo31 && |imgBytes| < TwoTo31
    requires nameReady >= |nameBytes| && imgReady >= |imgBytes|
    ensures Decode(Frame(nameBytes, imgBytes) + rest, nameReady, imgReady)
      == Decoded(Profile(nameBytes, imgBytes), |Frame(nameBytes, imgBytes)|)
  {
    var f := Frame(nameBytes, imgBytes);
    var data := f + rest;
    var m := |nameBytes|;
    FrameLayout(nameBytes, imgBytes);
    assert data[..|f|] == f;
    assert data[0..4] == LengthPrefix(m);
    PrefixReadsBack(data, 0, m);
    WholeBody(data, 4, m, nameReady);
    assert data[4..4 + m] == nameBytes;
    assert data[4 + m..8 + m] == LengthPrefix(|imgBytes|);
    PrefixReadsBack(data, 4 + m, |imgBytes|);
    WholeBody(data, 8 + m, |imgBytes|, imgReady);
    assert data[8 + m..8 + m + |imgBytes|] == imgBytes;
  }

  /**
   * A short read of the name: when the first `read` delivers only
   * `nameReady` of the name's bytes, the rest of the name array stays zero
   * and the image length is then taken from the name's own remaining
   * bytes, four of them from position 4 + nameReady.
   */
  lemma {:induction false} ShortNameRead(nameBytes: seq<Byte>, imgBytes: seq<Byte>, nameReady: nat, imgReady: nat)
    requires |nameBytes| < TwoTo31 && |imgBytes| < TwoTo31
    requires 1 <= nameReady < |nameBytes|
    ensures var f := Frame(nameBytes, imgBytes);
      var d := Decode(f, nameReady, imgReady);
      d.result.Profile? ==>
        d.result.nameBytes == nameBytes[..nameReady] + Zeros(|nameBytes| - nameReady) &&
        |d.result.imgBytes| == LengthAt(f, 4 + nameReady)
  {
    var f := Frame(nameBytes, imgBytes);
    var m := |nameBytes|;
    FrameLayout(nameBytes, imgBytes);
    PrefixReadsBack(f, 0, m);
    assert f[4..4 + nameReady] == nameBytes[..nameReady];
    ShortReadAt(f, 0, nameReady, imgReady);
  }

  /** A name body of `len` bytes of which one read delivers `ready`, then the image. */
  lemma {:induction false} ShortReadAt(data: seq<Byte>, p: nat, ready: nat, imgReady: nat)
    requires p + 4 <= |data| && AfterLength(data, p) == p + 4
    requires 1 <= ready < LengthAt(data, p) && p + 4 + LengthAt(data, p) <= |data|
    ensures var d := DecodeAt(data, p, ready, imgReady);
      d.result.Profile? ==>
        d.result.nameBytes == data[p + 4..p + 4 + ready] + Zeros(LengthAt(data, p) - ready) &&
        |d.result.imgBytes| == LengthAt(data, p + 4 + ready)
  {
    var len := LengthAt(data, p);
    assert Delivered(len, |data| - (p + 4), ready) == ready;
    assert BodyAt(data, p + 4, len, ready) == (data[p + 4..p + 4 + ready] + Zeros(len - ready), p + 4 + ready);
  }

  /**
   * The as-written decoder is not short-read tolerant: the two-byte name
   * "é" (UTF-8 C3 A9), delivered one byte at a time, makes the decoder take
   * A9 00 00 00 as the image length, which is negative, so
   * `ByteArray(imgLen)` throws. Handed whole, the same frame decodes.
   */
  lemma {:induction false} SplitNameThrows()
    ensures Decode(Frame([0xC3, 0xA9], []), 1, 0).result == NegativeArraySize
    ensures Decode(Frame([0xC3, 0xA9], []), 2, 0).result == Profile([0xC3, 0xA9], [])
  {
    var f := Frame([0xC3, 0xA9], []);
    FrameLayout([0xC3, 0xA9], []);
    assert Decode(f, 1, 0).result == NegativeArraySize by {
      PrefixReadsBack(f, 0, 2);
      assert Delivered(2, |f| - 4, 1) == 1;
      assert BodyAt(f, 4, 2, 1).1 == 5;
      LengthNegative(f, 5);
    }
    assert Decode(f, 2, 0).result == Profile([0xC3, 0xA9], []) by {
      RoundTrip([0xC3, 0xA9], [], [], 2, 0);
      assert f + [] == f;
    }
  }

  /** The name of that example, "é", is the two UTF-8 bytes C3 A9. */
  lemma {:induction false} EAcuteIsTwoBytes()
    ensures Utf8.Encode("\U{E9}") == [0xC3, 0xA9]
  {
    assert "\U{E9}"[1..] == [];
  }

  /**
   * A stream that announces `size` name bytes but ends after fewer, all
   * of which the transport delivers, makes the image length read hit the
   * end of stream: -1 reads give a negative length, and `ByteArray` throws.
   * No partial name is returned.
   */
  lemma {:induction false} TruncatedNameThrows(size: Size, body: seq<Byte>, nameReady: nat, imgReady: nat)
    requires |body| < size && nameReady >= |body|
    ensures Decode(LengthPrefix(size) + body, nameReady, imgReady).result == NegativeArraySize
  {
    var data := LengthPrefix(size) + body;
    PrefixReadsBack(data, 0, size);
    LengthNegative(data, |data|);
  }

  // ------------------------------------------- corrected decoder: read in full

  /**
   * The decoding the framing evidently intends: each body is read in full,
   * however the transport splits it, and a stream that ends inside a body
   * is reported as Truncated. Length headers are read as before.
   */
  function DecodeFullyAt(data: seq<Byte>, p: nat): Decoded
    requires p <= |data|
  {
    var nameLen := LengthAt(data, p);
    var p0 := AfterLength(data, p);
    if nameLen < 0 then Decoded(NegativeArraySize, p0)
    else if p0 + nameLen > |data| then Decoded(Truncated, |data|)
    else DecodeImageFullyAt(data, p0 + nameLen, data[p0..p0 + nameLen])
  }

  /** The corrected decoder's second half: the image, after the name read in full. */
  function DecodeImageFullyAt(data: seq<Byte>, p1: nat, nameBytes: seq<Byte>): Decoded
    requires p1 <= |data|
  {
    var imgLen := LengthAt(data, p1);
    var p2 := AfterLength(data, p1);
    if imgLen < 0 then Decoded(NegativeArraySize, p2)
    else if p2 + imgLen > |data| then Decoded(Truncated, |data|)
    else Decoded(Profile(nameBytes, data[p2..p2 + imgLen]), p2 + imgLen)
  }

  /**
   * Repeats `read(buf, off, buf.size - off)` until `buf` is full or the
   * stream ends; the transport hands each call at most `chunk` bytes
   * (at least one).
   */
  method ReadFully(input: ByteInput, buf: array<Byte>, chunk: nat) returns (complete: bool)
    requires input.Valid()
    modifies input, buf
    ensures input.Valid()
    ensures complete <==> old(input.pos) + buf.Length <= |input.data|
    ensures complete ==> input.pos == old(input.pos) + buf.Length
    ensures complete ==> buf[..] == input.data[old(input.pos)..input.pos]
    ensures !complete ==> input.pos == |input.data|
  {
    var off := 0;
    while off < buf.Length
      invariant input.Valid()
      invariant 0 <= off <= buf.Length
      invariant input.pos == old(input.pos) + off
      invariant buf[..off] == input.data[old(input.pos)..input.pos]
      decreases buf.Length - off
    {
      var n := input.ReadInto(buf, off, chunk);
      if n < 0 {
        return false;
      }
      off := off + n;
    }
    complete := true;
  }

  /** A fresh `ByteArray(len)` filled by `ReadFully`. */
  method ReadBodyFully(input: ByteInput, len: nat, chunk: nat) returns (complete: bool, body: seq<Byte>)
    requires input.Valid()
    modifies input
    ensures input.Valid()
    ensures complete <==> old(input.pos) + len <= |input.data|
    ensures complete ==> input.pos == old(input.pos) + len && body == input.data[old(input.pos)..input.pos]
    ensures !complete ==> input.pos == |input.data|
  {
    var buf := new Byte[len](_ => 0);
    complete := ReadFully(input, buf, chunk);
    body := buf[..];
  }

  /** `receiveProfileInfo()` with each body read in full. */
  method ReceiveProfileInfoFully(holder: SocketHolder, chunk: nat) returns (r: Received)
    requires holder.socket != null ==> holder.socket.rawIn.Valid()
    modifies InputOf(holder)
    ensures holder.socket == null ==> r == NoSocket
    ensures holder.socket != null ==>
      var d := DecodeFullyAt(holder.socket.rawIn.data, old(holder.socket.rawIn.pos));
      r == d.result && holder.socket.rawIn.pos == d.consumed
  {
    if holder.socket == null {
      return NoSocket;
    }
    var input := holder.socket.rawIn;
    var nameLen := ReadLength(input);
    if nameLen < 0 {
      return NegativeArraySize;
    }
    var ok, nameBytes := ReadBodyFully(input, nameLen, chunk);
    if !ok {
      return Truncated;
    }
    r := ReceiveImageFully(input, nameBytes, chunk);
  }

  /** The image half of `ReceiveProfileInfoFully`, once the name is in. */
  method ReceiveImageFully(input: ByteInput, nameBytes: seq<Byte>, chunk: nat) returns (r: Received)
    requires input.Valid()
    modifies input
    ensures input.Valid()
    ensures var d := DecodeImageFullyAt(input.data, old(input.pos), nameBytes);
      r == d.result && input.pos == d.consumed
  {
    var imgLen := ReadLength(input);
    if imgLen < 0 {
      return NegativeArraySize;
    }
    var ok, imgBytes := ReadBodyFully(input, imgLen, chunk);
    if !ok {
      return Truncated;
    }
    r := Profile(nameBytes, imgBytes);
  }

  /** Round trip of the corrected decoder, with no assumption on how the transport splits the frame. */
  lemma {:induction false} FullyRoundTrip(nameBytes: seq<Byte>, imgBytes: seq<Byte>, rest: seq<Byte>)
    requires |nameBytes| < TwoTo31 && |imgBytes| < TwoTo31
    ensures DecodeFullyAt(Frame(nameBytes, imgBytes) + rest, 0)
      == Decoded(Profile(nameBytes, imgBytes), |Frame(nameBytes, imgBytes)|)
  {
    var f := Frame(nameBytes, imgBytes);
    var data := f + rest;
    var m := |nameBytes|;
    FrameLayout(nameBytes, imgBytes);
    assert data[..|f|] == f;
    assert data[0..4] == LengthPrefix(m);
    PrefixReadsBack(data, 0, m);
    assert data[4..4 + m] == nameBytes;
    assert data[4 + m..8 + m] == LengthPrefix(|imgBytes|);
    PrefixReadsBack(data, 4 + m, |imgBytes|);
    assert data[8 + m..8 + m + |imgBytes|] == imgBytes;
  }

  /** The corrected decoder reports a stream that ends inside the name as Truncated. */
  lemma {:induction false} FullyReportsTruncation(size: Size, body: seq<Byte>)
    requires |body| < size
    ensures DecodeFullyAt(LengthPrefix(size) + body, 0).result == Truncated
  {
    PrefixReadsBack(LengthPrefix(size) + body, 0, size);
  }
}
