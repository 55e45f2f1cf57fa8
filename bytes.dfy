/** Byte strings and the little-endian integers that `struct.unpack('<…')` reads from them. */
module Bytes {

  /** One octet of a Python `bytes` value. */
  type byte = b: int | 0 <= b < 256

  /** The format character `H` under `<`: an unsigned 16-bit little-endian integer at offset `i`. */
  function U16(s: seq<byte>, i: nat): (r: nat)
    requires i + 2 <= |s|
    ensures r < 0x1_0000
    ensures r % 256 == s[i] && r / 256 == s[i + 1]
  {
    s[i] as int + 256 * (s[i + 1] as int)
  }

  /** The format character `L` under `<`: an unsigned 32-bit little-endian integer at offset `i`. */
  function U32(s: seq<byte>, i: nat): (r: nat)
    requires i + 4 <= |s|
    ensures r < 0x1_0000_0000
    ensures r % 0x1_0000 == U16(s, i) && r / 0x1_0000 == U16(s, i + 2)
  {
    U16(s, i) + 0x1_0000 * U16(s, i + 2)
  }

  /** The two bytes `struct.pack('<H', x)` writes. */
  function EncodeU16(x: nat): (r: seq<byte>)
    requires x < 0x1_0000
    ensures |r| == 2 && U16(r, 0) == x
  {
    [x % 256, x / 256]
  }

  /** The four bytes `struct.pack('<L', x)` writes. */
  function EncodeU32(x: nat): (r: seq<byte>)
    requires x < 0x1_0000_0000
    ensures |r| == 4 && U32(r, 0) == x
  {
    var lo, hi := EncodeU16(x % 0x1_0000), EncodeU16(x / 0x1_0000);
    assert U16(lo + hi, 0) == U16(lo, 0) && U16(lo + hi, 2) == U16(hi, 0);
    lo + hi
  }

  /** Reading a 16-bit field and writing it back gives the same two bytes. */
  lemma EncodeU16OfU16(s: seq<byte>, i: nat)
    requires i + 2 <= |s|
    ensures EncodeU16(U16(s, i)) == s[i..i + 2]
  {
  }

  /** Reading a 32-bit field and writing it back gives the same four bytes. */
  lemma EncodeU32OfU32(s: seq<byte>, i: nat)
    requires i + 4 <= |s|
    ensures EncodeU32(U32(s, i)) == s[i..i + 4]
  {
    EncodeU16OfU16(s, i);
    EncodeU16OfU16(s, i + 2);
    assert s[i..i + 4] == s[i..i + 2] + s[i + 2..i + 4];
  }
}
