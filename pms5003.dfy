/**
 * Acceptance and decoding of a PMS5003 particulate-sensor packet, as the
 * collection loop does it with the (count, bytes) pair read from the
 * bit-banged serial line: a packet of more than 32 bytes is cut to its first
 * 32 bytes, must start with 0x42 0x4d, and is unpacked as 16 big-endian
 * unsigned 16-bit words (`struct` format ">" followed by sixteen "H").
 */
module Pms5003 {

  type Byte = x: int | 0 <= x < 256
  type Word = x: int | 0 <= x < 0x1_0000

  const FrameLength: nat := 32
  const FrameWords: nat := 16
  const StartByte1: Byte := 0x42
  const StartByte2: Byte := 0x4d

  /** What the serial read returns: a byte count and the bytes themselves. */
  datatype Packet = Packet(count: int, data: seq<Byte>)

  /** Outcome of one attempt to decode a packet. */
  datatype Reading =
    | NoPacket               // count <= 32: nothing is decoded this tick
    | BadHeader              // the two start bytes are not 0x42 0x4d
    | Fault                  // an IndexError or struct.error would be raised
    | Frame(words: seq<Word>)

  /** Python's clamping of a slice start `start` over a list of length `n`. */
  function SliceStart(start: int, n: nat): (k: nat)
    ensures k <= n
    ensures 0 <= start <= n ==> k == start
    ensures start < 0 && 0 <= start + n as int ==> k == start + n as int
    ensures start + n as int < 0 ==> k == 0
    ensures start > n ==> k == n
  {
    if start < 0 then (if start + n as int < 0 then 0 else start + n as int)
    else if start > n then n
    else start
  }

  /** The list that `del data[start:]` leaves behind. */
  function DelFrom(data: seq<Byte>, start: int): (r: seq<Byte>)
    ensures |r| <= |data| && r == data[..|r|]
  {
    data[..SliceStart(start, |data|)]
  }

  /** When the list really holds `count` bytes, `del data[32-count:]` keeps exactly the first 32, in order. */
  lemma TruncateKeepsFrame(data: seq<Byte>, count: int)
    requires count > FrameLength && |data| == count
    ensures DelFrom(data, FrameLength - count) == data[..FrameLength]
  {
  }

  /** A big-endian unsigned 16-bit word from its high and low bytes. */
  function Be16(hi: Byte, lo: Byte): (w: Word)
    ensures w / 256 == hi && w % 256 == lo
  {
    256 * (hi as int) + (lo as int)
  }

  /** `struct.unpack` of big-endian unsigned 16-bit words. */
  function BigEndianWords(d: seq<Byte>): (w: seq<Word>)
    requires |d| % 2 == 0
    ensures |w| == |d| / 2
    ensures forall i :: 0 <= i < |w| ==> w[i] == Be16(d[2 * i], d[2 * i + 1])
  {
    if d == [] then []
    else
      var rest := BigEndianWords(d[2..]);
      assert forall i :: 1 <= i < |rest| + 1 ==> d[2 * i] == d[2..][2 * (i - 1)] && d[2 * i + 1] == d[2..][2 * (i - 1) + 1];
      [Be16(d[0], d[1])] + rest
  }

  /** `struct.pack` of big-endian unsigned 16-bit words: the inverse of BigEndianWords. */
  function WordBytes(w: seq<Word>): (d: seq<Byte>)
    ensures |d| == 2 * |w|
  {
    if w == [] then [] else [w[0] / 256, w[0] % 256] + WordBytes(w[1..])
  }

  lemma {:induction false} UnpackPack(w: seq<Word>)
    ensures BigEndianWords(WordBytes(w)) == w
  {
    if w != [] {
      UnpackPack(w[1..]);
      assert WordBytes(w)[2..] == WordBytes(w[1..]);
    }
  }

  lemma {:induction false} PackUnpack(d: seq<Byte>)
    requires |d| % 2 == 0
    ensures WordBytes(BigEndianWords(d)) == d
  {
    if d != [] {
      PackUnpack(d[2..]);
      var w := BigEndianWords(d);
      assert w[1..] == BigEndianWords(d[2..]);
      assert d == [d[0], d[1]] + d[2..];
    }
  }

  /** The acceptance test and decoding of the collection loop, with Python's failures as `Fault`. */
  function Decode(p: Packet): (r: Reading)
    ensures r.Frame? ==> |r.words| == FrameWords && r.words[0] == 0x424D
    ensures r.Frame? <==>
      p.count > FrameLength &&
      |DelFrom(p.data, FrameLength - p.count)| == FrameLength &&
      p.data[0] == StartByte1 && p.data[1] == StartByte2
    ensures r.NoPacket? <==> p.count <= FrameLength
  {
    if p.count <= FrameLength then NoPacket
    else
      var d := DelFrom(p.data, FrameLength - p.count);
      if |d| == 0 then Fault
      else if d[0] != StartByte1 then BadHeader
      else if |d| == 1 then Fault
      else if d[1] != StartByte2 then BadHeader
      else if |d| != FrameLength then Fault
      else Frame(BigEndianWords(d))
  }

  /** A packet of exactly 32 bytes is not decoded. */
  lemma ExactFrameLengthRejected(data: seq<Byte>)
    requires |data| == FrameLength
    ensures Decode(Packet(|data|, data)) == NoPacket
  {
  }

  /**
   * For a packet whose count is its length, as the serial read returns it:
   * decoding never faults, it succeeds exactly when the count exceeds 32 and the
   * start bytes match, and then word i is bytes 2i and 2i+1 read big-endian.
   */
  lemma DecodeSerialPacket(p: Packet)
    requires |p.data| == p.count
    ensures !Decode(p).Fault?
    ensures Decode(p).Frame? <==> p.count > FrameLength && p.data[0] == StartByte1 && p.data[1] == StartByte2
    ensures Decode(p).Frame? ==> Decode(p).words == BigEndianWords(p.data[..FrameLength])
    ensures Decode(p).Frame? ==> forall i :: 0 <= i < FrameWords ==>
      Decode(p).words[i] == 256 * (p.data[2 * i] as int) + p.data[2 * i + 1] as int
  {
    if p.count > FrameLength {
      TruncateKeepsFrame(p.data, p.count);
    }
  }

  /** The frame a set of words is sent as: decoding it gives the words back. */
  lemma {:induction false} DecodeEncodedFrame(w: seq<Word>, tail: seq<Byte>)
    requires |w| == FrameWords && w[0] == 0x424D && |tail| > 0
    ensures Decode(Packet(|WordBytes(w) + tail|, WordBytes(w) + tail)) == Frame(w)
  {
    var d := WordBytes(w) + tail;
    TruncateKeepsFrame(d, |d|);
    assert d[..FrameLength] == WordBytes(w);
    assert WordBytes(w)[..2] == [w[0] / 256, w[0] % 256];
    UnpackPack(w);
  }

  /** Bytes 2i and 2i + 1 of the transmitted frame are the high and low byte of word i. */
  lemma {:induction false} WordBytesAt(w: seq<Word>, i: nat)
    requires i < |w|
    ensures WordBytes(w)[2 * i] == w[i] / 256 && WordBytes(w)[2 * i + 1] == w[i] % 256
  {
    if i > 0 {
      WordBytesAt(w[1..], i - 1);
    }
  }

  /** PM1.0 (standard particle): the big-endian value of bytes 4 and 5 of the frame the words are sent as. */
  function Pm1(w: seq<Word>): (r: Word)
    requires |w| == FrameWords
    ensures r == Be16(WordBytes(w)[4], WordBytes(w)[5])
  {
    WordBytesAt(w, 2); w[2]
  }

  /** PM2.5 (standard particle): the big-endian value of bytes 6 and 7. */
  function Pm25(w: seq<Word>): (r: Word)
    requires |w| == FrameWords
    ensures r == Be16(WordBytes(w)[6], WordBytes(w)[7])
  {
    WordBytesAt(w, 3); w[3]
  }

  /** PM10 (standard particle): the big-endian value of bytes 8 and 9. */
  function Pm10(w: seq<Word>): (r: Word)
    requires |w| == FrameWords
    ensures r == Be16(WordBytes(w)[8], WordBytes(w)[9])
  {
    WordBytesAt(w, 4); w[4]
  }

  /** Where the three readings sit in the serial packet: bytes 4-5, 6-7 and 8-9. */
  lemma ReadingsFromBytes(p: Packet)
    requires |p.data| == p.count && Decode(p).Frame?
    ensures Pm1(Decode(p).words) == 256 * (p.data[4] as int) + p.data[5] as int
    ensures Pm25(Decode(p).words) == 256 * (p.data[6] as int) + p.data[7] as int
    ensures Pm10(Decode(p).words) == 256 * (p.data[8] as int) + p.data[9] as int
  {
    DecodeSerialPacket(p);
    assert Decode(p).words[2] == 256 * (p.data[2 * 2] as int) + p.data[2 * 2 + 1] as int;
    assert Decode(p).words[3] == 256 * (p.data[2 * 3] as int) + p.data[2 * 3 + 1] as int;
    assert Decode(p).words[4] == 256 * (p.data[2 * 4] as int) + p.data[2 * 4 + 1] as int;
  }
}
