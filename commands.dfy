/** How the two blocks of the extension map their arguments onto register
    writes: `servoPower` writes a 16-bit speed to the servo on port 3 or 4,
    `setSound` writes one byte to the buzzer register. Both address the
    controller with id 200. */
module Commands {
  import opened Wrappers
  import opened Bytes
  import opened Packet

  const ControllerId: Byte := 200
  const Port3Address := 152
  const Port4Address := 154
  const SoundAddress := 84
  const CounterclockwiseOffset := 1023

  /** The register of the servo on `port`. Any other port string leaves the
      address `undefined`, whose low and high bytes are both 0. */
  function PortAddress(port: string): int
  {
    if port == "port-3" then Port3Address
    else if port == "port-4" then Port4Address
    else 0
  }

  /** The offset that folds the direction into the speed value; `None` for an
      unknown direction, where the offset stays `undefined`. */
  function DirectionOffset(direction: string): Option<int>
  {
    if direction == "Clockwise" then Some(0)
    else if direction == "Counterclockwise" then Some(CounterclockwiseOffset)
    else None
  }

  /** Division rounding toward zero, as `ToInt32` truncates a quotient. */
  function TruncDiv(a: int, d: int): int
    requires d > 0
  {
    if a >= 0 then a / d else -((-a) / d)
  }

  /** The number `servoPower` hands to the word encoder, as the byte helpers
      see it. A power of 0 is falsy and is sent unchanged; otherwise the
      value is `1023 * power / 100 + d`, truncated toward zero by `ToInt32`.
      With an unknown direction the sum is `NaN`, whose bytes are 0. */
  function ServoValue(direction: string, power: int): int
  {
    if power == 0 then 0
    else match DirectionOffset(direction)
      case Some(d) => TruncDiv(1023 * power + 100 * d, 100)
      case None => 0
  }

  /** The packet `servoPower(port, direction, power)` sends. */
  function ServoPacket(port: string, direction: string, power: int): seq<Byte>
  {
    var address, value := PortAddress(port), ServoValue(direction, power);
    Encode(Frame(ControllerId, InstWrite, [GetLowByte(address), GetHighByte(address),
                                           GetLowByte(value), GetHighByte(value)]))
  }

  /** The packet `setSound(arg)` sends. */
  function SoundPacket(arg: Byte): seq<Byte>
  {
    Encode(Frame(ControllerId, InstWrite, [GetLowByte(SoundAddress), GetHighByte(SoundAddress), arg]))
  }

  /** Zero power means zero speed, in either direction. */
  lemma ZeroPowerStops(direction: string)
    ensures ServoValue(direction, 0) == 0
  {
  }

  /** A power percentage gives a speed in [0, 1023] clockwise and, when it is
      not 0, 1023 plus that speed counterclockwise. */
  lemma ServoValueOfPercentage(power: int)
    requires 0 <= power <= 100
    ensures ServoValue("Clockwise", power) == 1023 * power / 100
    ensures 0 <= ServoValue("Clockwise", power) <= 1023
    ensures power != 0 ==> ServoValue("Counterclockwise", power) == 1023 + 1023 * power / 100
    ensures power != 0 ==> 1033 <= ServoValue("Counterclockwise", power) <= 2046
  {
  }

  /** The direction can be read back off the value: every nonzero clockwise
      speed lies below every nonzero counterclockwise one. */
  lemma DirectionsNeverOverlap(p: int, q: int)
    requires 0 < p <= 100 && 0 < q <= 100
    ensures ServoValue("Clockwise", p) < ServoValue("Counterclockwise", q)
  {
    ServoValueOfPercentage(p);
    ServoValueOfPercentage(q);
  }

  /** More power never means a lower speed value in the same direction. */
  lemma ServoValueMonotone(direction: string, p: int, q: int)
    requires DirectionOffset(direction).Some?
    requires 0 < p <= q
    ensures ServoValue(direction, p) <= ServoValue(direction, q)
  {
    var d := DirectionOffset(direction).value;
    assert 1023 * p + 100 * d <= 1023 * q + 100 * d;
    assert 0 <= 1023 * p + 100 * d;
  }

  /** A servo packet is a WRITE to id 200 at the port's register, and for a
      percentage in [0, 100] its two value bytes recombine to exactly the
      speed value: nothing is lost to the byte split. */
  lemma ServoPacketCarries(port: string, direction: string, power: int)
    requires 0 <= power <= 100
    ensures |ServoPacket(port, direction, power)| == 14
    ensures Decode(ServoPacket(port, direction, power)).Some?
    ensures var f := Decode(ServoPacket(port, direction, power)).value;
      f.id == ControllerId && f.instruction == InstWrite && |f.params| == 4
      && f.params[0] as int + 256 * (f.params[1] as int) == PortAddress(port)
      && f.params[2] as int + 256 * (f.params[3] as int) == ServoValue(direction, power)
  {
    var address, value := PortAddress(port), ServoValue(direction, power);
    var f := Frame(ControllerId, InstWrite, [GetLowByte(address), GetHighByte(address),
                                             GetLowByte(value), GetHighByte(value)]);
    DecodeEncode(f);
    LowHighRecompose(address);
    assert 0 <= value <= 2046 by {
      if DirectionOffset(direction).Some? {
        ServoValueOfPercentage(power);
      }
    }
    LowHighRecompose(value);
  }

  /** For any power at all, the servo packet is a 14-byte WRITE to id 200 at
      the port's register, and its value bytes carry the speed value modulo
      2^16. */
  lemma ServoPacketAnyPower(port: string, direction: string, power: int)
    ensures |ServoPacket(port, direction, power)| == 14
    ensures Decode(ServoPacket(port, direction, power)).Some?
    ensures var f := Decode(ServoPacket(port, direction, power)).value;
      f.id == ControllerId && f.instruction == InstWrite && |f.params| == 4
      && f.params[0] as int + 256 * (f.params[1] as int) == PortAddress(port)
      && f.params[2] as int + 256 * (f.params[3] as int) == ServoValue(direction, power) % 0x1_0000
  {
    var address, value := PortAddress(port), ServoValue(direction, power);
    var f := Frame(ControllerId, InstWrite, [GetLowByte(address), GetHighByte(address),
                                             GetLowByte(value), GetHighByte(value)]);
    DecodeEncode(f);
    LowHighRecompose(address);
    LowHighModulo(value);
  }

  /** A sound packet is a one-byte WRITE of the tone to register 84. */
  lemma SoundPacketCarries(arg: Byte)
    ensures |SoundPacket(arg)| == 13
    ensures Decode(SoundPacket(arg)) == Some(Frame(ControllerId, InstWrite, [SoundAddress, 0, arg]))
  {
    DecodeEncode(Frame(ControllerId, InstWrite, [GetLowByte(SoundAddress), GetHighByte(SoundAddress), arg]));
  }
}
