/*
 * Byte, word and counter types shared by every part of the emulator model.
 *
 * A C++ `Byte` (uint8_t) is a `bv8`, so the bitwise operators of the source
 * are the bit-vector operators. A `Word` (uint16_t) and a `u32` are bounded
 * integers; every place where the source wraps them around is written out
 * with an explicit `% 0x1_0000` or `% 0x1_0000_0000`.
 */
module Bits {

  datatype Option<T> = None | Some(value: T)

  type Word = x: int | 0 <= x < 0x1_0000
  type U32 = x: int | 0 <= x < 0x1_0000_0000

  const WORD_MOD: int := 0x1_0000
  const U32_MOD: int := 0x1_0000_0000

  /** The single-bit mask `1 << n`, spelled out so that no integer is converted to a bit-vector. */
  function Mask(n: nat): (m: bv8)
    requires n < 8
  {
    if n == 0 then 0x01 else if n == 1 then 0x02 else if n == 2 then 0x04
    else if n == 3 then 0x08 else if n == 4 then 0x10 else if n == 5 then 0x20
    else if n == 6 then 0x40 else 0x80
  }

  /** Bit `n` of `x`, bit 0 being the least significant. */
  predicate BitOf(x: bv8, n: nat)
    requires n < 8
  {
    x & Mask(n) != 0
  }

  /** Bit 7, the sign bit of a byte read as two's complement. */
  predicate Negative(x: bv8)
  {
    x & 0x80 != 0
  }

  /** The byte holding `x mod 256` (a C++ narrowing to uint8_t). */
  function ToByte(x: int): (b: bv8)
    ensures b as int == x % 256
  {
    ByteExists(x % 256);
    var b: bv8 :| ValueOf(b) == x % 256;
    b
  }

  /**
   * The byte whose value is `x`, assembled from its two nibbles bit by bit;
   * this is the one place where an integer becomes a byte.
   */
  function ByteOfValue(x: int): (b: bv8)
    requires 0 <= x < 256
    ensures b as int == x
  {
    var hi := Nibble(x / 16);
    var lo := Nibble(x % 16);
    JoinNibbles(hi, lo);
    (hi << 4) | lo
  }

  function Nibble(x: int): (b: bv8)
    requires 0 <= x < 16
    ensures b as int == x
  {
    var x2 := x - (if x >= 8 then 8 else 0);
    var x1 := x2 - (if x2 >= 4 then 4 else 0);
    var x0 := x1 - (if x1 >= 2 then 2 else 0);
    BitIf(x >= 8, 0x08) | BitIf(x2 >= 4, 0x04) | BitIf(x1 >= 2, 0x02) | BitIf(x0 >= 1, 0x01)
  }

  function BitIf(on: bool, mask: bv8): bv8
  {
    if on then mask else 0
  }

  /** Low byte of a word: `w & 0xFF`. */
  function Lo(w: Word): (b: bv8)
    ensures b as int == w % 256
  {
    ToByte(w)
  }

  /** High byte of a word, its page number: `w >> 8`. */
  function Hi(w: Word): (b: bv8)
    ensures b as int == w / 256
  {
    ToByte(w / 256)
  }

  /** The little-endian word `(hi << 8) | lo`. */
  function MakeWord(lo: bv8, hi: bv8): (w: Word)
    ensures Lo(w) == lo && Hi(w) == hi
  {
    var w := lo as int + 256 * hi as int;
    assert w % 256 == lo as int && w / 256 == hi as int;
    BytesEqual(Lo(w), lo);
    BytesEqual(Hi(w), hi);
    w
  }

  /** A byte read as a signed two's-complement number (C++ `int8_t`). */
  function Signed(x: bv8): (r: int)
    ensures -128 <= r < 128
    ensures r % 256 == x as int
    ensures r < 0 <==> Negative(x)
    ensures r == SignedOf(x as int)
  {
    SignBit(x);
    SignedOf(x as int)
  }

  /** The two's-complement reading of a byte value. */
  function SignedOf(x: int): (r: int)
    requires 0 <= x < 256
    ensures -128 <= r < 128 && r % 256 == x
    ensures r < 0 <==> x >= 128
  {
    if x < 128 then x else x - 256
  }

  // ---------------------------------------------------------------
  // Bridges between the bit-vector and the integer view of a byte
  // ---------------------------------------------------------------

  /** The numeric value of a byte, a name for `b as int` to hang quantifiers on. */
  function ValueOf(b: bv8): int
  {
    b as int
  }

  lemma ByteExists(x: int)
    requires 0 <= x < 256
    ensures exists b: bv8 :: ValueOf(b) == x
  {
    var b := ByteOfValue(x);
    assert ValueOf(b) == x;
  }

  lemma JoinNibbles(hi: bv8, lo: bv8)
    requires hi < 16 && lo < 16
    ensures ((hi << 4) | lo) as int == 16 * hi as int + lo as int
  {
  }

  lemma IntOfByte(b: bv8)
    ensures (b as int) as bv8 == b
  {
  }

  /** Two bytes with the same numeric value are the same byte. */
  lemma BytesEqual(a: bv8, b: bv8)
    requires a as int == b as int
    ensures a == b
  {
    IntOfByte(a);
    IntOfByte(b);
  }

  lemma ByteRange(b: bv8)
    ensures 0 <= b as int < 256
  {
  }

  /** Reduction modulo 256 of a value within one period either side of zero. */
  lemma SmallMod(d: int)
    requires -256 <= d < 512
    ensures d < 0 ==> d % 256 == d + 256
    ensures 0 <= d < 256 ==> d % 256 == d
    ensures 256 <= d ==> d % 256 == d - 256
  {
  }

  lemma SignBit(x: bv8)
    ensures Negative(x) <==> x as int >= 128
  {
  }

  /** A word is determined by its two bytes: `MakeWord` inverts `Lo`/`Hi`. */
  lemma WordOfBytes(w: Word)
    ensures MakeWord(Lo(w), Hi(w)) == w
  {
    var v := MakeWord(Lo(w), Hi(w));
    assert v % 256 == w % 256 && v / 256 == w / 256;
  }
}
