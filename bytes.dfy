/** Unsigned big-endian fields of a byte buffer, read the way Node's
    Buffer.readUInt16BE and Buffer.readUInt32BE read them, and the
    encoders that write them back. */
module Bytes {

  /** One octet of a decoded WebSocket payload. */
  type Byte = b: int | 0 <= b < 256

  const Two16: nat := 0x1_0000
  const Two32: nat := 0x1_0000_0000

  /** buffer.readUInt16BE(off): two bytes, most significant first. */
  function BE16(b: seq<Byte>, off: nat): (r: nat)
    requires off + 2 <= |b|
    ensures r < Two16
  {
    (b[off] as int) * 0x100 + b[off + 1]
  }

  /** buffer.readUInt32BE(off): four bytes, most significant first. */
  function BE32(b: seq<Byte>, off: nat): (r: nat)
    requires off + 4 <= |b|
    ensures r < Two32
  {
    (b[off] as int) * 0x100_0000 + (b[off + 1] as int) * 0x1_0000 + (b[off + 2] as int) * 0x100 + b[off + 3]
  }

  /** The two bytes that BE16 reads back as v. */
  function EncodeU16(v: nat): (r: seq<Byte>)
    requires v < Two16
    ensures |r| == 2 && BE16(r, 0) == v
  {
    [v / 0x100, v % 0x100]
  }

  /** The four bytes that BE32 reads back as v. */
  function EncodeU32(v: nat): (r: seq<Byte>)
    requires v < Two32
    ensures |r| == 4 && BE32(r, 0) == v
  {
    var hi, lo := v / Two16, v % Two16;
    [hi / 0x100, hi % 0x100, lo / 0x100, lo % 0x100]
  }

  /** Reading a field and writing it back gives the bytes that were read. */
  lemma EncodeBE16(b: seq<Byte>, off: nat)
    requires off + 2 <= |b|
    ensures EncodeU16(BE16(b, off)) == b[off..off + 2]
  {
  }

  lemma EncodeBE32(b: seq<Byte>, off: nat)
    requires off + 4 <= |b|
    ensures EncodeU32(BE32(b, off)) == b[off..off + 4]
  {
  }
}
