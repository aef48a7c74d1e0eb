/** ROBOTIS Dynamixel Protocol 2.0 instruction packets as the extension
    frames them: the header 0xFF 0xFF 0xFD 0x00, the device id, a
    little-endian length, the instruction, its parameters and a
    little-endian CRC-16 over everything before it. */
module Packet {
  import opened Wrappers
  import opened Bytes
  import opened Crc16

  const Header: seq<Byte> := [0xFF, 0xFF, 0xFD, 0x00]

  /** `INST_WRITE`, the only instruction the extension sends. */
  const InstWrite: Byte := 3

  /** What an instruction packet carries. */
  datatype Frame = Frame(id: Byte, instruction: Byte, params: seq<Byte>)

  /** The two checksum bytes appended to `body`: the CRC seeded with 0, low
      byte first. */
  function CrcBytes(body: seq<Byte>): seq<Byte>
  {
    var c := Crc(0, body) as int;
    [GetLowByte(c), GetHighByte(c)]
  }

  /** The little-endian length field, at offsets 5 and 6. */
  function LengthField(p: seq<Byte>): int
    requires |p| >= 7
  {
    p[5] as int + 256 * (p[6] as int)
  }

  /** The packet that carries `f`. Its length field counts the instruction,
      the parameters and the two checksum bytes. */
  function Encode(f: Frame): (p: seq<Byte>)
    requires |f.params| + 3 < 0x1_0000
    ensures |p| == |f.params| + 10
    ensures p[..4] == Header && p[4] == f.id && p[7] == f.instruction
    ensures LengthField(p) == |p| - 7
    ensures p[8..|p| - 2] == f.params
    ensures p[|p| - 2..] == CrcBytes(p[..|p| - 2])
  {
    var body := Body(f);
    LowHighRecompose(|f.params| + 3);
    assert body[8..] == f.params;
    body + CrcBytes(body)
  }

  /** Everything the checksum covers: header, id, length, instruction and
      parameters. */
  function Body(f: Frame): seq<Byte>
  {
    var len := |f.params| + 3;
    Header + [f.id, GetLowByte(len), GetHighByte(len), f.instruction] + f.params
  }

  /** Reads a packet back: `None` unless the header, the length field and
      the checksum are all as `Encode` writes them. */
  function Decode(p: seq<Byte>): Option<Frame>
  {
    if |p| < 10 || p[..4] != Header || LengthField(p) != |p| - 7
       || p[|p| - 2..] != CrcBytes(p[..|p| - 2])
    then None
    else Some(Frame(p[4], p[7], p[8..|p| - 2]))
  }

  /** Every frame the encoder can write is read back unchanged. */
  lemma DecodeEncode(f: Frame)
    requires |f.params| + 3 < 0x1_0000
    ensures Decode(Encode(f)) == Some(f)
  {
  }

  /** A packet that reads back is exactly the encoding of what it carries:
      the encoding is the only accepted form. */
  lemma EncodeDecode(p: seq<Byte>)
    requires Decode(p).Some?
    ensures |Decode(p).value.params| + 3 < 0x1_0000
    ensures Encode(Decode(p).value) == p
  {
    var f := Decode(p).value;
    var q := Encode(f);
    assert |q| == |p|;
    LowHighRecompose(|p| - 7);
    assert |p| - 7 < 0x1_0000 by {
      assert p[5] < 256 && p[6] < 256;
    }
    assert q[..4] == p[..4];
    assert q[5] == GetLowByte(|p| - 7) == p[5] && q[6] == GetHighByte(|p| - 7) == p[6] by {
      LowHighRecompose(|p| - 7);
      assert LengthField(p) == |p| - 7;
    }
    assert q[..|q| - 2] == p[..|p| - 2] by {
      forall k | 0 <= k < |p| - 2
        ensures q[k] == p[k]
      {
        if k < 4 {
          assert q[k] == q[..4][k] && p[k] == p[..4][k];
        } else if k >= 8 {
          assert q[k] == q[8..|q| - 2][k - 8] && p[k] == p[8..|p| - 2][k - 8];
        }
      }
    }
    assert q[|q| - 2..] == p[|p| - 2..];
    assert q == q[..|q| - 2] + q[|q| - 2..] && p == p[..|p| - 2] + p[|p| - 2..];
  }

  /** `writeBytePacket(id, address, value)`: a WRITE of one byte to the
      register at `address`, built by pushing one byte at a time. */
  method WriteBytePacket(id: Byte, address: int, value: Byte) returns (packet: seq<Byte>)
    ensures |packet| == 13 && LengthField(packet) == |packet| - 7
    ensures packet[..11] == Header + [id, 0x06, 0x00, InstWrite] + [GetLowByte(address), GetHighByte(address), value]
    ensures packet[11..] == CrcBytes(packet[..11])
    ensures packet == Encode(Frame(id, InstWrite, [GetLowByte(address), GetHighByte(address), value]))
    ensures Decode(packet) == Some(Frame(id, InstWrite, [GetLowByte(address), GetHighByte(address), value]))
  {
    packet := [];
    packet := packet + [0xFF];
    packet := packet + [0xFF];
    packet := packet + [0xFD];
    packet := packet + [0x00];
    packet := packet + [id];
    packet := packet + [0x06];
    packet := packet + [0x00];
    packet := packet + [InstWrite];
    packet := packet + [GetLowByte(address)];
    packet := packet + [GetHighByte(address)];
    packet := packet + [value];
    ghost var f := Frame(id, InstWrite, [GetLowByte(address), GetHighByte(address), value]);
    WriteBody(f);
    assert packet == Body(f);
    var crc := UpdateCrc(0, packet, |packet|);
    Finish(f, crc);
    packet := packet + [GetLowByte(SignedValue(crc))];
    packet := packet + [GetHighByte(SignedValue(crc))];
    assert packet[..11] == Body(f);
  }

  /** `writeWordPacket(id, address, value)`: a WRITE of a 16-bit value,
      low byte first, to the register at `address`. */
  method WriteWordPacket(id: Byte, address: int, value: int) returns (packet: seq<Byte>)
    ensures |packet| == 14 && LengthField(packet) == |packet| - 7
    ensures packet[..12] == Header + [id, 0x07, 0x00, InstWrite]
                            + [GetLowByte(address), GetHighByte(address), GetLowByte(value), GetHighByte(value)]
    ensures packet[12..] == CrcBytes(packet[..12])
    ensures packet == Encode(Frame(id, InstWrite, [GetLowByte(address), GetHighByte(address),
                                                   GetLowByte(value), GetHighByte(value)]))
    ensures Decode(packet) == Some(Frame(id, InstWrite, [GetLowByte(address), GetHighByte(address),
                                                         GetLowByte(value), GetHighByte(value)]))
  {
    packet := [];
    packet := packet + [0xFF];
    packet := packet + [0xFF];
    packet := packet + [0xFD];
    packet := packet + [0x00];
    packet := packet + [id];
    packet := packet + [0x07];
    packet := packet + [0x00];
    packet := packet + [InstWrite];
    packet := packet + [GetLowByte(address)];
    packet := packet + [GetHighByte(address)];
    packet := packet + [GetLowByte(value)];
    packet := packet + [GetHighByte(value)];
    ghost var f := Frame(id, InstWrite, [GetLowByte(address), GetHighByte(address),
                                         GetLowByte(value), GetHighByte(value)]);
    WriteBody(f);
    assert packet == Body(f);
    var crc := UpdateCrc(0, packet, |packet|);
    Finish(f, crc);
    packet := packet + [GetLowByte(SignedValue(crc))];
    packet := packet + [GetHighByte(SignedValue(crc))];
    assert packet[..12] == Body(f);
  }

  /** Appending the two bytes JavaScript takes from the loop result to the
      body of a short frame gives the frame's encoding, which reads back. */
  lemma Finish(f: Frame, crc: bv32)
    requires |f.params| <= 4
    requires Low16(crc) == Crc(Low16(0), Block(Body(f), |Body(f)|))
    ensures Body(f) + [GetLowByte(SignedValue(crc)), GetHighByte(SignedValue(crc))] == Encode(f)
    ensures Decode(Encode(f)) == Some(f)
  {
    AppendChecksum(Body(f), crc);
    DecodeEncode(f);
  }

  /** The body of a short frame, spelled out byte by byte. */
  lemma WriteBody(f: Frame)
    requires |f.params| <= 4
    ensures Body(f) == Header + [f.id, |f.params| + 3, 0, f.instruction] + f.params
  {
    var len := |f.params| + 3;
    assert GetLowByte(len) == len && GetHighByte(len) == 0;
  }

  /** The bytes JavaScript takes from the unmasked loop result are the
      checksum bytes of the block. */
  lemma AppendChecksum(body: seq<Byte>, crc: bv32)
    requires Low16(crc) == Crc(Low16(0), Block(body, |body|))
    ensures [GetLowByte(SignedValue(crc)), GetHighByte(SignedValue(crc))] == CrcBytes(body)
  {
    BlockOfWholeArray(body);
    SignedValueBytes(crc);
  }
}
