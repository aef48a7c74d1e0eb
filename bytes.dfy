/** Byte-level helpers of the ROBOTIS DREAM extension: the little-endian byte
    split used when a register address, a register value or a checksum is
    written into a packet, and the signed 32-bit number that JavaScript's
    bitwise operators produce. */
module Bytes {

  /** One octet of a packet, as the JavaScript array element it is. */
  type Byte = b: int | 0 <= b < 256

  /** The low and high halves of a 32-bit pattern. */
  function Low16(x: bv32): bv16 { (x & 0xFFFF) as bv16 }
  function High16(x: bv32): bv16 { (x >> 16) as bv16 }

  /** The number a JavaScript bitwise operator yields for the 32-bit pattern
      `x`: its two's-complement value. */
  function SignedValue(x: bv32): (n: int)
    ensures -0x8000_0000 <= n < 0x8000_0000
    ensures n % 0x1_0000 == Low16(x) as int
  {
    var hi, lo := High16(x) as int, Low16(x) as int;
    var h := if hi < 0x8000 then hi else hi - 0x1_0000;
    ModOfShifted(h, lo);
    h * 0x1_0000 + lo
  }

  /** Adding a multiple of 2^16 does not change the remainder. */
  lemma ModOfShifted(h: int, lo: int)
    requires 0 <= lo < 0x1_0000
    ensures (h * 0x1_0000 + lo) % 0x1_0000 == lo
  {
  }

  /** `a & 0xff`. The operator first reduces `a` modulo 2^32 and then keeps
      the low eight bits, which for an integer is the (Euclidean) remainder
      modulo 256. */
  function GetLowByte(a: int): Byte
  {
    a % 256
  }

  /** `(a >> 8) & 0xff`. The arithmetic shift of the 32-bit image is a
      division rounded down, and 256 divides 2^32, so for an integer this is
      the low byte of the floor quotient by 256 (Dafny's `/` rounds down for
      a positive divisor). */
  function GetHighByte(a: int): Byte
  {
    (a / 256) % 256
  }

  /** The two helpers take a 16-bit value apart and nothing is lost. */
  lemma LowHighRecompose(a: int)
    requires 0 <= a < 0x1_0000
    ensures 0 <= GetLowByte(a) < 256 && 0 <= GetHighByte(a) < 256
    ensures GetHighByte(a) * 256 + GetLowByte(a) == a
  {
  }

  /** Only the low 16 bits of a number reach the packet: two numbers that
      agree modulo 2^16 give the same low and high byte. */
  lemma BytesDependOnLow16(a: int, b: int)
    requires a % 0x1_0000 == b % 0x1_0000
    ensures GetLowByte(a) == GetLowByte(b)
    ensures GetHighByte(a) == GetHighByte(b)
  {
    var qa, qb := a / 0x1_0000, b / 0x1_0000;
    var r := a % 0x1_0000;
    assert a == qa * 0x1_0000 + r && b == qb * 0x1_0000 + r;
    assert a / 256 == qa * 256 + r / 256;
    assert b / 256 == qb * 256 + r / 256;
  }

  /** The bytes of the number a 32-bit pattern stands for are those of its
      low 16 bits, whatever the bits above carry. */
  lemma SignedValueBytes(x: bv32)
    ensures GetLowByte(SignedValue(x)) == GetLowByte(Low16(x) as int)
    ensures GetHighByte(SignedValue(x)) == GetHighByte(Low16(x) as int)
  {
    var n, l := SignedValue(x), Low16(x) as int;
    assert 0 <= l < 0x1_0000;
    LowIsOwnRemainder(l);
    BytesDependOnLow16(n, l);
  }

  /** A number below 2^16 is its own remainder modulo 2^16. */
  lemma LowIsOwnRemainder(l: int)
    requires 0 <= l < 0x1_0000
    ensures l % 0x1_0000 == l
  {
  }

  /** For any integer, the two bytes recombine to the number modulo 2^16:
      what reaches the packet of a value outside 16 bits. */
  lemma LowHighModulo(a: int)
    ensures GetHighByte(a) * 256 + GetLowByte(a) == a % 0x1_0000
  {
    var r := a % 0x1_0000;
    assert r % 0x1_0000 == r;
    BytesDependOnLow16(a, r);
    LowHighRecompose(r);
  }
}
