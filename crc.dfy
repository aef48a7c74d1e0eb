/** The checksum of the ROBOTIS DREAM packets: a table-driven CRC-16 that
    consumes one byte per step, most significant bit first, with generator
    polynomial 0x8005 (the CRC of ROBOTIS Dynamixel Protocol 2.0). */
module Crc16 {
  import opened Bytes

  const Polynomial: bv16 := 0x8005

  /** The 256-entry lookup table, entry by entry as the extension embeds it
      (written as 32 rows of eight, so that an entry is found quickly). */
  const CrcTable: seq<bv16> :=
    [0x0000, 0x8005, 0x800F, 0x000A, 0x801B, 0x001E, 0x0014, 0x8011] +
    [0x8033, 0x0036, 0x003C, 0x8039, 0x0028, 0x802D, 0x8027, 0x0022] +
    [0x8063, 0x0066, 0x006C, 0x8069, 0x0078, 0x807D, 0x8077, 0x0072] +
    [0x0050, 0x8055, 0x805F, 0x005A, 0x804B, 0x004E, 0x0044, 0x8041] +
    [0x80C3, 0x00C6, 0x00CC, 0x80C9, 0x00D8, 0x80DD, 0x80D7, 0x00D2] +
    [0x00F0, 0x80F5, 0x80FF, 0x00FA, 0x80EB, 0x00EE, 0x00E4, 0x80E1] +
    [0x00A0, 0x80A5, 0x80AF, 0x00AA, 0x80BB, 0x00BE, 0x00B4, 0x80B1] +
    [0x8093, 0x0096, 0x009C, 0x8099, 0x0088, 0x808D, 0x8087, 0x0082] +
    [0x8183, 0x0186, 0x018C, 0x8189, 0x0198, 0x819D, 0x8197, 0x0192] +
    [0x01B0, 0x81B5, 0x81BF, 0x01BA, 0x81AB, 0x01AE, 0x01A4, 0x81A1] +
    [0x01E0, 0x81E5, 0x81EF, 0x01EA, 0x81FB, 0x01FE, 0x01F4, 0x81F1] +
    [0x81D3, 0x01D6, 0x01DC, 0x81D9, 0x01C8, 0x81CD, 0x81C7, 0x01C2] +
    [0x0140, 0x8145, 0x814F, 0x014A, 0x815B, 0x015E, 0x0154, 0x8151] +
    [0x8173, 0x0176, 0x017C, 0x8179, 0x0168, 0x816D, 0x8167, 0x0162] +
    [0x8123, 0x0126, 0x012C, 0x8129, 0x0138, 0x813D, 0x8137, 0x0132] +
    [0x0110, 0x8115, 0x811F, 0x011A, 0x810B, 0x010E, 0x0104, 0x8101] +
    [0x8303, 0x0306, 0x030C, 0x8309, 0x0318, 0x831D, 0x8317, 0x0312] +
    [0x0330, 0x8335, 0x833F, 0x033A, 0x832B, 0x032E, 0x0324, 0x8321] +
    [0x0360, 0x8365, 0x836F, 0x036A, 0x837B, 0x037E, 0x0374, 0x8371] +
    [0x8353, 0x0356, 0x035C, 0x8359, 0x0348, 0x834D, 0x8347, 0x0342] +
    [0x03C0, 0x83C5, 0x83CF, 0x03CA, 0x83DB, 0x03DE, 0x03D4, 0x83D1] +
    [0x83F3, 0x03F6, 0x03FC, 0x83F9, 0x03E8, 0x83ED, 0x83E7, 0x03E2] +
    [0x83A3, 0x03A6, 0x03AC, 0x83A9, 0x03B8, 0x83BD, 0x83B7, 0x03B2] +
    [0x0390, 0x8395, 0x839F, 0x039A, 0x838B, 0x038E, 0x0384, 0x8381] +
    [0x0280, 0x8285, 0x828F, 0x028A, 0x829B, 0x029E, 0x0294, 0x8291] +
    [0x82B3, 0x02B6, 0x02BC, 0x82B9, 0x02A8, 0x82AD, 0x82A7, 0x02A2] +
    [0x82E3, 0x02E6, 0x02EC, 0x82E9, 0x02F8, 0x82FD, 0x82F7, 0x02F2] +
    [0x02D0, 0x82D5, 0x82DF, 0x02DA, 0x82CB, 0x02CE, 0x02C4, 0x82C1] +
    [0x8243, 0x0246, 0x024C, 0x8249, 0x0258, 0x825D, 0x8257, 0x0252] +
    [0x0270, 0x8275, 0x827F, 0x027A, 0x826B, 0x026E, 0x0264, 0x8261] +
    [0x0220, 0x8225, 0x822F, 0x022A, 0x823B, 0x023E, 0x0234, 0x8231] +
    [0x8213, 0x0216, 0x021C, 0x8219, 0x0208, 0x820D, 0x8207, 0x0202]

  /** Row 1 holds the generator polynomial itself. */
  lemma TableHoldsPolynomial()
    ensures |CrcTable| == 256
    ensures CrcTable[0] == 0 && CrcTable[1] == Polynomial
  {
  }

  // ---------------------------------------------------------------------
  // The engine with a 16-bit accumulator

  /** `((crc_accum >> 8) ^ byte) & 0xff`: the table row a step reads. */
  function TableIndex(acc: bv16, x: bv8): (i: nat)
    ensures i < 256 && i < |CrcTable|
  {
    (((acc >> 8) as bv8) ^ x) as int
  }

  /** One step of the loop, with the shifted accumulator cut to 16 bits. */
  function Step(acc: bv16, x: bv8): bv16
  {
    (acc << 8) ^ CrcTable[TableIndex(acc, x)]
  }

  /** A packet byte as the eight-bit pattern the XOR combines. */
  function Octet(b: Byte): bv8 { b as bv8 }

  /** The checksum of `data` started from `seed`: the steps applied to the
      bytes from left to right. */
  function Crc(seed: bv16, data: seq<Byte>): bv16
    decreases |data|
  {
    if data == [] then seed
    else Step(Crc(seed, data[..|data| - 1]), Octet(data[|data| - 1]))
  }

  lemma CrcOfEmpty(seed: bv16)
    ensures Crc(seed, []) == seed
  {
  }

  /** Checksumming a block equals checksumming a prefix and then the rest,
      seeded with the prefix's checksum. */
  lemma {:induction false} CrcAppend(seed: bv16, a: seq<Byte>, b: seq<Byte>)
    ensures Crc(seed, a + b) == Crc(Crc(seed, a), b)
    decreases |b|
  {
    if b == [] {
      assert a + b == a;
    } else {
      var b' := b[..|b| - 1];
      assert (a + b)[..|a + b| - 1] == a + b';
      CrcAppend(seed, a, b');
    }
  }

  // ---------------------------------------------------------------------
  // The loop as JavaScript runs it: the accumulator is a 32-bit integer,
  // `<<` is never masked and `>>` is the arithmetic (sign-filling) shift.

  /** `x >> 8` on a signed 32-bit integer. */
  function ShiftRightSigned8(x: bv32): bv32
  {
    if x & 0x8000_0000 == 0 then x >> 8 else (x >> 8) | 0xFF00_0000
  }

  /** `((crc_accum >> 8) ^ data_blk_ptr[j]) & 0xff` on the 32-bit
      accumulator: always a row of the table. */
  function JsTableIndex(acc: bv32, x: bv8): (i: nat)
    ensures i < 256 && i < |CrcTable|
  {
    (((ShiftRightSigned8(acc) ^ (x as bv32)) & 0xFF) as bv8) as int
  }

  function JsStep(acc: bv32, x: bv8): bv32
  {
    (acc << 8) ^ Widen(CrcTable[JsTableIndex(acc, x)])
  }

  /** A table entry as the 32-bit integer JavaScript XORs it as. */
  function Widen(t: bv16): bv32 { t as bv32 }

  function JsCrc(seed: bv32, data: seq<Byte>): bv32
    decreases |data|
  {
    if data == [] then seed
    else JsStep(JsCrc(seed, data[..|data| - 1]), Octet(data[|data| - 1]))
  }

  /** Only bits 8..15 of the accumulator name the row, and the sign-filling
      shift does not reach them. */
  lemma JsIndexAgrees(acc: bv32, x: bv8)
    ensures ((ShiftRightSigned8(acc) ^ (x as bv32)) & 0xFF) as bv8 == ((Low16(acc) >> 8) as bv8) ^ x
  {
  }

  /** Bits above 15 of the shifted accumulator never come back down. */
  lemma JsShiftAgrees(acc: bv32, t: bv16)
    ensures Low16((acc << 8) ^ Widen(t)) == (Low16(acc) << 8) ^ t
  {
  }

  /** The unmasked step reads the same table row as the masked one, and the
      low 16 bits of its result are the masked step's result. */
  lemma JsRowAgrees(acc: bv32, x: bv8)
    ensures JsTableIndex(acc, x) == TableIndex(Low16(acc), x)
  {
    JsIndexAgrees(acc, x);
  }

  lemma JsStepAgrees(acc: bv32, x: bv8)
    ensures Low16(JsStep(acc, x)) == Step(Low16(acc), x)
  {
    JsRowAgrees(acc, x);
    JsShiftAgrees(acc, CrcTable[TableIndex(Low16(acc), x)]);
  }

  /** Masking agrees with the unmasked accumulator: the low 16 bits of the
      JavaScript result are the 16-bit checksum. */
  lemma {:induction false} JsCrcAgrees(seed: bv32, data: seq<Byte>)
    ensures Low16(JsCrc(seed, data)) == Crc(Low16(seed), data)
    decreases |data|
  {
    if data != [] {
      var init := data[..|data| - 1];
      JsCrcAgrees(seed, init);
      JsStepAgrees(JsCrc(seed, init), Octet(data[|data| - 1]));
    }
  }

  /** The block the loop reads: `data_blk_size` elements of `data_blk_ptr`,
      where an index past the end reads `undefined`, which `^` takes as 0. */
  function Block(data: seq<Byte>, size: nat): seq<Byte>
  {
    seq(size, j requires 0 <= j < size => if j < |data| then data[j] else 0)
  }

  /** `size` zero octets. */
  function Zeros(size: nat): seq<Byte>
  {
    seq(size, _ => 0)
  }

  /** A size within the array reads a prefix of it. */
  lemma BlockOfPrefix(data: seq<Byte>, size: nat)
    requires size <= |data|
    ensures Block(data, size) == data[..size]
  {
  }

  /** A size past the end reads the whole array followed by zeros. */
  lemma BlockPadsWithZeros(data: seq<Byte>, size: nat)
    requires |data| <= size
    ensures Block(data, size) == data + Zeros(size - |data|)
  {
    assert forall j :: 0 <= j < size ==> Block(data, size)[j] == (data + Zeros(size - |data|))[j];
  }

  lemma BlockOfWholeArray(data: seq<Byte>)
    ensures Block(data, |data|) == data
  {
    BlockOfPrefix(data, |data|);
  }

  /** `updateCRC(crc_accum, data_blk_ptr, data_blk_size)`. */
  method UpdateCrc(crcAccum: bv32, dataBlk: seq<Byte>, dataBlkSize: nat) returns (r: bv32)
    ensures r == JsCrc(crcAccum, Block(dataBlk, dataBlkSize))
    ensures Low16(r) == Crc(Low16(crcAccum), Block(dataBlk, dataBlkSize))
    ensures dataBlkSize == 0 ==> r == crcAccum
  {
    ghost var blk := Block(dataBlk, dataBlkSize);
    r := crcAccum;
    var j := 0;
    while j < dataBlkSize
      invariant 0 <= j <= dataBlkSize
      invariant r == JsCrc(crcAccum, blk[..j])
    {
      var d := if j < |dataBlk| then dataBlk[j] else 0;
      var i := JsTableIndex(r, Octet(d));
      assert blk[j] == d;
      JsCrcExtend(crcAccum, blk, j);
      r := (r << 8) ^ Widen(CrcTable[i]);
      j := j + 1;
    }
    assert blk[..dataBlkSize] == blk;
    JsCrcAgrees(crcAccum, blk);
  }

  /** The JavaScript loop composes the same way: a block run from a seed
      equals a prefix run from it followed by the rest run from the prefix's
      result, bits above 15 included. */
  lemma {:induction false} JsCrcAppend(seed: bv32, a: seq<Byte>, b: seq<Byte>)
    ensures JsCrc(seed, a + b) == JsCrc(JsCrc(seed, a), b)
    decreases |b|
  {
    if b == [] {
      assert a + b == a;
    } else {
      var b' := b[..|b| - 1];
      assert (a + b)[..|a + b| - 1] == a + b';
      JsCrcAppend(seed, a, b');
    }
  }

  /** One more element of the block is one more step. */
  lemma JsCrcExtend(seed: bv32, blk: seq<Byte>, j: nat)
    requires j < |blk|
    ensures JsCrc(seed, blk[..j + 1]) == JsStep(JsCrc(seed, blk[..j]), Octet(blk[j]))
  {
    assert blk[..j + 1][..j] == blk[..j];
  }
}
