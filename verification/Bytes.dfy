/** Bytes, and how three of them are regrouped into four values of six bits and
    back again: neither way loses a bit. Everything here is arithmetic on
    numbers below 256 and 64, which the codec is built from. */
module Bytes {

  // Bytes are eight-bit vectors, so that masks, shifts and the truncation to `unsigned char` are those of
  // the source.

  type Byte = bv8

  lemma NextByte(b: Byte)
    requires b < 255
    ensures (b + 1) as int == b as int + 1
  {
  }

  /** The cast from an integer. */
  function ToByte(n: nat): (b: Byte)
    requires n < 256
    ensures b as int == n
  {
    if n == 0 then 0
    else
      BytesBelow(ToByte(n - 1), 255);
      NextByte(ToByte(n - 1));
      ToByte(n - 1) + 1
  }

  lemma BytesBelow(b: Byte, limit: Byte)
    ensures b < limit <==> b as int < limit as int
  {
  }

  lemma SameByte(a: Byte, b: Byte)
    requires a as int == b as int
    ensures a == b
  {
    assert (a as int) as Byte == a && (b as int) as Byte == b;
  }

  // ---------------------------------------------------------------- regrouping three bytes and four sextets

  function First(a: Byte): (v: Byte)
    ensures v < 64
  {
    (a & 0xfc) >> 2
  }

  function Second(a: Byte, b: Byte): (v: Byte)
    ensures v < 64
  {
    ((a & 0x03) << 4) + ((b & 0xf0) >> 4)
  }

  function Third(b: Byte, c: Byte): (v: Byte)
    ensures v < 64
  {
    ((b & 0x0f) << 2) + ((c & 0xc0) >> 6)
  }

  function Fourth(c: Byte): (v: Byte)
    ensures v < 64
  {
    c & 0x3f
  }

  function Byte0(p: Byte, q: Byte): Byte {
    (p << 2) + ((q & 0x30) >> 4)
  }

  function Byte1(q: Byte, r: Byte): Byte {
    ((q & 0x0f) << 4) + ((r & 0x3c) >> 2)
  }

  function Byte2(r: Byte, t: Byte): Byte {
    ((r & 0x03) << 6) + t
  }

  lemma BytesReturn(a: Byte, b: Byte, c: Byte)
    ensures Byte0(First(a), Second(a, b)) == a
    ensures Byte1(Second(a, b), Third(b, c)) == b
    ensures Byte2(Third(b, c), Fourth(c)) == c
  {
  }

  lemma SextetsReturn(p: Byte, q: Byte, r: Byte, t: Byte)
    requires p < 64 && q < 64 && r < 64 && t < 64
    ensures First(Byte0(p, q)) == p
    ensures Second(Byte0(p, q), Byte1(q, r)) == q
    ensures Third(Byte1(q, r), Byte2(r, t)) == r
    ensures Fourth(Byte2(r, t)) == t
  {
  }

  /** The bits after the last byte are zero in an encoding. */
  lemma LastSextet(p: Byte, q: Byte, r: Byte)
    requires p < 64 && q < 64 && r < 64
    ensures Second(Byte0(p, q), 0) == q <==> q & 0x0f == 0
    ensures Third(Byte1(q, r), 0) == r <==> r & 0x03 == 0
  {
  }

  /** Bit i of a byte, from the most significant one. */
  predicate Bit(b: Byte, i: nat)
    requires i < 8
  {
    var mask: Byte := match i
      case 0 => 0x80
      case 1 => 0x40
      case 2 => 0x20
      case 3 => 0x10
      case 4 => 0x08
      case 5 => 0x04
      case 6 => 0x02
      case _ => 0x01;
    b & mask != 0
  }

  lemma EachBitOfByte0(p: Byte, q: Byte, i: nat)
    requires p < 64 && q < 64 && i < 8
    ensures Bit(Byte0(p, q), i) == if i < 6 then Bit(p, i + 2) else Bit(q, i - 4)
  {
  }

  lemma EachBitOfByte1(q: Byte, r: Byte, i: nat)
    requires q < 64 && r < 64 && i < 8
    ensures Bit(Byte1(q, r), i) == if i < 4 then Bit(q, i + 4) else Bit(r, i - 2)
  {
  }

  lemma EachBitOfByte2(r: Byte, t: Byte, i: nat)
    requires r < 64 && t < 64 && i < 8
    ensures Bit(Byte2(r, t), i) == if i < 2 then Bit(r, i + 6) else Bit(t, i)
  {
  }
}
