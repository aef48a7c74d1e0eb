# ROBOTIS DREAM extension: checksum, packet framing and link session

This project models the peripheral side of the ROBOTIS DREAM extension of a
block-programming host: the `RobotisDream` class in
`src/extensions/scratch3_robotisdream/index.js`. It proves properties of that model.
The core has three parts.

- **Checksum** (`crc.dfy`, module `Crc16`). The table-driven CRC-16 of ROBOTIS
  Dynamixel Protocol 2.0 uses generator polynomial 0x8005 and consumes one byte
  per step, most significant bit first. The 256-entry table is a constant.
  - `UpdateCrc` is the JavaScript loop as it runs: a 32-bit accumulator that
    is never masked, and an arithmetic right shift.
  - It is proved equal to the function `JsCrc`. `JsCrc` in turn is proved to
    agree, in its low 16 bits, with the 16-bit specification `Crc`.
- **Byte helpers** (`bytes.dfy`, module `Bytes`). `getLowByte` and
  `getHighByte` are modelled on integers, together with the signed 32-bit
  number that a JavaScript bitwise operator yields.
- **Instruction packets** (`packet.dfy`, module `Packet`). `writeBytePacket`
  and `writeWordPacket` are methods that push one byte at a time.
  - Both are proved equal to the general encoder `Encode` of a frame (id,
    instruction, parameters).
  - Its partner `Decode` reads a packet back. The two are proved inverse in
    both directions.
- **Commands** (`commands.dfy`, module `Commands`). This is how `servoPower`
  and `setSound` map their arguments onto a register write to controller id 200.
- **Session** (`session.dfy`, module `Session`). The busy gate, the busy
  timeout, the 45000 ms watchdog, and the transport handle made by `scan`.
  - The class `RobotisDream` has the object's four fields (`_ble`, `_busy`,
    `_busyTimeoutID`, `_timeoutID`). Beside them, as fields, it holds the host
    they talk to:
    - a millisecond clock;
    - the running timers by id (`setTimeout` and `setInterval` share one pool
      of ids, and `clearTimeout` stops either kind);
    - the writes handed to transports, and those whose completion is still
      outstanding;
    - the teardown and link-error requests made of the transports.
  - Each handler and each host event (write completed, timer fired, time
    passes, link lost) is a method. Its new state is given by a transition
    function on the value `SessionState`.
  - `Inv` is a session invariant. Every transition is proved to preserve it.
    The properties of the session are proved about the transition functions.
  - Scenario methods drive the class through the sequences that the code's
    own behaviour describes.

`wrappers.dfy` holds the `Option` type.

Three facts about the code that the model keeps as they are:

- `disconnect` and `reset` never clear `_ble`. `reset` does not tear the
  transport down and does not touch `_busy`.
- `_onConnect` does not stop a watchdog that is already running. A second
  connect without a `reset` in between leaves two intervals running.
- The table is the most-significant-bit-first table of polynomial 0x8005:
  row 1 is 0x8005, and the step shifts left.

## Model

| member | source | states |
|---|---|---|
| Bytes.SignedValue | src/extensions/scratch3_robotisdream/index.js:203-206 | the number the loop's bitwise result stands for is a signed 32-bit value, and it agrees with the result's low 16 bits modulo 2^16 |
| Bytes.GetLowByte | src/extensions/scratch3_robotisdream/index.js:190-192 | definition: `a & 0xff` on an integer, its remainder modulo 256 |
| Bytes.GetHighByte | src/extensions/scratch3_robotisdream/index.js:194-196 | definition: `(a >> 8) & 0xff` on an integer, the remainder modulo 256 of its floor quotient by 256 |
| Bytes.LowHighRecompose | src/extensions/scratch3_robotisdream/index.js:190-196 | both helpers return a byte, and for 0 <= a < 65536 high * 256 + low == a |
| Bytes.BytesDependOnLow16 | src/extensions/scratch3_robotisdream/index.js:190-196 | two numbers equal modulo 2^16 have the same low and the same high byte |
| Bytes.LowHighModulo | src/extensions/scratch3_robotisdream/index.js:190-196 | for every integer, high * 256 + low is the number modulo 2^16 |
| Bytes.SignedValueBytes | src/extensions/scratch3_robotisdream/index.js:161-163 | the bytes taken from the unmasked loop result are the bytes of its low 16 bits |
| Crc16.TableHoldsPolynomial | src/extensions/scratch3_robotisdream/index.js:103-140 | the table has 256 entries, entry 0 is 0 and entry 1 is the polynomial 0x8005 |
| Crc16.TableIndex | src/extensions/scratch3_robotisdream/index.js:202 | the row a 16-bit step reads always lies in [0, 255], inside the table |
| Crc16.JsTableIndex | src/extensions/scratch3_robotisdream/index.js:202 | the row the unmasked 32-bit step reads, with sign-filling shift, always lies inside the table |
| Crc16.Step | src/extensions/scratch3_robotisdream/index.js:202-203 | definition: one loop step with the accumulator cut to 16 bits |
| Crc16.Crc | src/extensions/scratch3_robotisdream/index.js:198-207 | definition: the 16-bit checksum, the steps applied to the bytes from left to right |
| Crc16.ShiftRightSigned8 | src/extensions/scratch3_robotisdream/index.js:202 | definition: `>> 8` on a signed 32-bit integer, filling with the sign bit |
| Crc16.JsStep | src/extensions/scratch3_robotisdream/index.js:202-203 | definition: one loop step on the unmasked 32-bit accumulator |
| Crc16.JsCrc | src/extensions/scratch3_robotisdream/index.js:198-207 | definition: the loop's result on the unmasked 32-bit accumulator |
| Crc16.CrcOfEmpty | src/extensions/scratch3_robotisdream/index.js:198-207 | an empty block leaves the seed unchanged |
| Crc16.CrcAppend | src/extensions/scratch3_robotisdream/index.js:198-207 | the 16-bit checksum of a + b equals the checksum of b seeded with the checksum of a |
| Crc16.JsCrcAppend | src/extensions/scratch3_robotisdream/index.js:198-207 | the same composition holds for the unmasked 32-bit loop |
| Crc16.JsIndexAgrees | src/extensions/scratch3_robotisdream/index.js:202 | the sign-filling shift does not reach the eight bits that choose the row |
| Crc16.JsShiftAgrees | src/extensions/scratch3_robotisdream/index.js:203 | bits above 15 of the unmasked shift never return to the low 16 bits |
| Crc16.JsRowAgrees | src/extensions/scratch3_robotisdream/index.js:202 | the unmasked step reads the same table row as the 16-bit step |
| Crc16.JsStepAgrees | src/extensions/scratch3_robotisdream/index.js:202-203 | the low 16 bits after one unmasked step are the 16-bit step of the low 16 bits |
| Crc16.JsCrcAgrees | src/extensions/scratch3_robotisdream/index.js:198-207 | masking agrees with the unmasked loop: the low 16 bits of the 32-bit result are the 16-bit checksum |
| Crc16.Block | src/extensions/scratch3_robotisdream/index.js:201-202 | definition: the `data_blk_size` elements the loop reads, where an index past the array reads as 0 |
| Crc16.BlockOfPrefix | src/extensions/scratch3_robotisdream/index.js:201-202 | a size within the array reads exactly that prefix of the array |
| Crc16.BlockPadsWithZeros | src/extensions/scratch3_robotisdream/index.js:201-202 | a size past the end reads the whole array followed by zeros |
| Crc16.BlockOfWholeArray | src/extensions/scratch3_robotisdream/index.js:161 | passing the array's own length reads exactly the array |
| Crc16.UpdateCrc | src/extensions/scratch3_robotisdream/index.js:198-207 | the loop returns the unmasked checksum of the block; its low 16 bits are the 16-bit checksum; with size 0 it returns the seed |
| Crc16.JsCrcExtend | src/extensions/scratch3_robotisdream/index.js:201-204 | one more element of the block is one more loop step |
| Packet.CrcBytes | src/extensions/scratch3_robotisdream/index.js:161-163 | definition: the low and then the high byte of the checksum of a body seeded with 0 |
| Packet.Body | src/extensions/scratch3_robotisdream/index.js:149-160 | definition: header, id, little-endian length (instruction, parameters and checksum), instruction and parameters |
| Packet.Encode | src/extensions/scratch3_robotisdream/index.js:148-188 | the packet has the header, the id at offset 4, the instruction at 7, the parameters before the checksum, a length field equal to the packet length minus 7, and the checksum of everything before it in its last two bytes |
| Packet.Decode | src/extensions/scratch3_robotisdream/index.js:148-188 | definition: reads a packet back, `None` unless its header, length field and checksum have the form the builders write; its meaning is stated by `DecodeEncode` and `EncodeDecode` |
| Packet.DecodeEncode | src/extensions/scratch3_robotisdream/index.js:148-188 | every frame the encoder can write reads back unchanged |
| Packet.EncodeDecode | src/extensions/scratch3_robotisdream/index.js:148-188 | a packet that reads back is exactly the encoding of its frame |
| Packet.WriteBytePacket | src/extensions/scratch3_robotisdream/index.js:148-166 | 13 bytes: header, id, length 6, WRITE, low and high byte of the address, the value, then the low and high byte of the checksum of the first 11; the length field is the length minus 7; the packet is the encoding of that frame and reads back as it |
| Packet.WriteWordPacket | src/extensions/scratch3_robotisdream/index.js:168-188 | 14 bytes: header, id, length 7, WRITE, the address and then the value low byte first, then the checksum of the first 12; the length field is the length minus 7; the packet is the encoding of that frame and reads back as it |
| Packet.Finish | src/extensions/scratch3_robotisdream/index.js:161-163 | the body followed by the two bytes taken from the loop result is the frame's encoding |
| Packet.WriteBody | src/extensions/scratch3_robotisdream/index.js:149-160 | the body of a short frame has the length bytes (number of parameters + 3) and 0 |
| Packet.AppendChecksum | src/extensions/scratch3_robotisdream/index.js:161-163 | the two bytes taken from the unmasked loop result are the checksum bytes of the body |
| Commands.PortAddress | src/extensions/scratch3_robotisdream/index.js:217 | definition: 152 for "port-3", 154 for "port-4", and for any other port the `undefined` address, whose bytes are 0 |
| Commands.DirectionOffset | src/extensions/scratch3_robotisdream/index.js:218 | definition: 0 for "Clockwise", 1023 for "Counterclockwise", none for any other direction |
| Commands.TruncDiv | src/extensions/scratch3_robotisdream/index.js:220 | definition: the quotient rounded toward zero, as `ToInt32` truncates the byte helpers' operand |
| Commands.ServoValue | src/extensions/scratch3_robotisdream/index.js:219-221 | definition: 0 for a falsy power, otherwise `1023 * power / 100 + d` truncated toward zero, and 0 (`NaN`) for an unknown direction |
| Commands.ServoPacket | src/extensions/scratch3_robotisdream/index.js:210-225 | definition: the word write to controller 200 at the port's register of the servo value |
| Commands.SoundPacket | src/extensions/scratch3_robotisdream/index.js:229-231 | definition: the byte write to controller 200 at register 84 of the tone |
| Commands.ZeroPowerStops | src/extensions/scratch3_robotisdream/index.js:219-221 | a power of 0 is falsy and sends speed 0, in any direction |
| Commands.ServoValueOfPercentage | src/extensions/scratch3_robotisdream/index.js:218-221 | a power p in [0, 100] sends 1023 * p / 100 clockwise, which lies in [0, 1023], and 1023 more counterclockwise when p is not 0 |
| Commands.DirectionsNeverOverlap | src/extensions/scratch3_robotisdream/index.js:218-220 | for powers in (0, 100], every clockwise speed is below every counterclockwise speed |
| Commands.ServoValueMonotone | src/extensions/scratch3_robotisdream/index.js:219-221 | in a known direction and for positive powers, more power never gives a smaller speed value |
| Commands.ServoPacketCarries | src/extensions/scratch3_robotisdream/index.js:210-227 | for a power in [0, 100], the servo packet is 14 bytes and reads back as a WRITE to id 200 whose address bytes recombine to the port's register (152, 154, or 0 when the port is unknown) and whose value bytes recombine to exactly the speed |
| Commands.ServoPacketAnyPower | src/extensions/scratch3_robotisdream/index.js:210-227 | for every power, the servo packet is 14 bytes and reads back as a WRITE to id 200 at the port's register, whose value bytes recombine to the speed value modulo 2^16 |
| Commands.SoundPacketCarries | src/extensions/scratch3_robotisdream/index.js:229-233 | the sound packet is 13 bytes and reads back as a WRITE to id 200 of the tone to register 84 |
| Session.Connected | src/extensions/scratch3_robotisdream/index.js:293-300 | definition of `isConnected()`: a transport is held and it reports a connection |
| Session.AfterScan | src/extensions/scratch3_robotisdream/index.js:239-254 | definition: tear down the transport held, if any, and hold a new unconnected one |
| Session.AfterReset | src/extensions/scratch3_robotisdream/index.js:281-287 | definition: stop the recorded watchdog, if any, and forget its id |
| Session.AfterDisconnect | src/extensions/scratch3_robotisdream/index.js:270-276 | definition: tear down the transport held, if any, then `reset` |
| Session.AfterSend | src/extensions/scratch3_robotisdream/index.js:307-335 | definition: unchanged when not connected or busy; otherwise close the gate, arm a 5000 ms busy timeout, record its id and hand out one write |
| Session.AfterWriteCompleted | src/extensions/scratch3_robotisdream/index.js:329-334 | definition: open the gate and stop the currently recorded busy timeout |
| Session.AfterBusyTimeout | src/extensions/scratch3_robotisdream/index.js:323-325 | definition: the timeout is gone and the gate is open |
| Session.AfterConnect | src/extensions/scratch3_robotisdream/index.js:341-348 | definition: the transport is connected and a new 45000 ms watchdog is armed and recorded |
| Session.AfterMessage | src/extensions/scratch3_robotisdream/index.js:355-366 | definition: stop the recorded watchdog and arm and record a new one |
| Session.AfterWatchdog | src/extensions/scratch3_robotisdream/index.js:344-347 | definition: report to the current transport, and the interval runs again |
| Session.AfterElapse | src/extensions/scratch3_robotisdream/index.js:323-325 | definition: the clock advances |
| Session.AfterLinkLost | src/extensions/scratch3_robotisdream/index.js:293-300 | definition: the transport no longer reports a connection |
| Session.InitialInv | src/extensions/scratch3_robotisdream/index.js:61-101 | a new object satisfies the invariant, runs no watchdog and is not connected |
| Session.ScanKeepsInv | src/extensions/scratch3_robotisdream/index.js:239-254 | `scan` preserves the invariant |
| Session.ResetKeepsInv | src/extensions/scratch3_robotisdream/index.js:281-287 | `reset` preserves the invariant |
| Session.DisconnectKeepsInv | src/extensions/scratch3_robotisdream/index.js:270-276 | `disconnect` preserves the invariant |
| Session.SendKeepsInv | src/extensions/scratch3_robotisdream/index.js:307-335 | `send` preserves the invariant |
| Session.WriteCompletedKeepsInv | src/extensions/scratch3_robotisdream/index.js:329-334 | a write completion preserves the invariant |
| Session.BusyTimeoutKeepsInv | src/extensions/scratch3_robotisdream/index.js:323-325 | the busy timeout firing preserves the invariant |
| Session.ConnectKeepsInv | src/extensions/scratch3_robotisdream/index.js:341-348 | `_onConnect` preserves the invariant |
| Session.MessageKeepsInv | src/extensions/scratch3_robotisdream/index.js:355-366 | `_onMessage` preserves the invariant |
| Session.WatchdogKeepsInv | src/extensions/scratch3_robotisdream/index.js:344-347 | a watchdog report, after which the interval runs again, preserves the invariant |
| Session.ElapseKeepsInv | src/extensions/scratch3_robotisdream/index.js:323-325 | time passing, while no timer is overdue, preserves the invariant |
| Session.LinkLostKeepsInv | src/extensions/scratch3_robotisdream/index.js:293-300 | the transport losing its connection preserves the invariant |
| Session.SendGate | src/extensions/scratch3_robotisdream/index.js:293-335 | `send` issues a write exactly when connected and not busy, issues at most one, keeps the earlier ones, closes the gate whenever connected, and changes nothing otherwise |
| Session.GateReopensInTime | src/extensions/scratch3_robotisdream/index.js:317-325 | the clock cannot pass 5000 ms while the gate is closed before the busy timeout fires |
| Session.ScanReplacesTransport | src/extensions/scratch3_robotisdream/index.js:239-254 | `scan` tears down the held transport, holds a new unconnected one, and leaves the gate and the timers alone |
| Session.BusyTimeoutOpensGate | src/extensions/scratch3_robotisdream/index.js:323-325 | the busy timeout firing opens the gate and leaves no busy timeout running |
| Session.CompletionClearsCurrentTimeout | src/extensions/scratch3_robotisdream/index.js:329-334 | any completion opens the gate and stops the currently recorded busy timeout, leaving only watchdogs |
| Session.ConnectArmsOneWatchdog | src/extensions/scratch3_robotisdream/index.js:341-348 | with no watchdog running, `_onConnect` leaves exactly one, the recorded one, due a full 45000 ms later |
| Session.ConnectKeepsOldWatchdog | src/extensions/scratch3_robotisdream/index.js:341-348 | with a watchdog recorded, `_onConnect` does not stop it, so the recorded one is no longer the only one |
| Session.MessageRearmsWatchdog | src/extensions/scratch3_robotisdream/index.js:355-366 | when no watchdog runs beside the recorded one, `_onMessage` keeps exactly one watchdog, the recorded one, due a full 45000 ms later |
| Session.QuietWhileDataFlows | src/extensions/scratch3_robotisdream/index.js:355-366 | when no watchdog runs beside the recorded one, no watchdog is due within less than 45000 ms after a message |
| Session.ResetStopsWatchdog | src/extensions/scratch3_robotisdream/index.js:281-287 | when no watchdog runs beside the recorded one, `reset` leaves no watchdog and no recorded id, and leaves the gate and the busy timeout unchanged |
| Session.DisconnectKeepsHandle | src/extensions/scratch3_robotisdream/index.js:270-276 | `disconnect` tears down the held transport but keeps the handle, and the session is no longer connected |
| Session.RobotisDream.constructor | src/extensions/scratch3_robotisdream/index.js:61-101 | no handle, gate open, no ids, no timers |
| Session.RobotisDream.IsConnected | src/extensions/scratch3_robotisdream/index.js:293-300 | `isConnected()` is `Connected` of the object's state |
| Session.RobotisDream.Scan | src/extensions/scratch3_robotisdream/index.js:239-254 | the new state is the `scan` transition of the old one |
| Session.RobotisDream.Reset | src/extensions/scratch3_robotisdream/index.js:281-287 | the new state is the `reset` transition of the old one |
| Session.RobotisDream.Disconnect | src/extensions/scratch3_robotisdream/index.js:270-276 | the new state is a teardown followed by `reset` |
| Session.RobotisDream.Send | src/extensions/scratch3_robotisdream/index.js:307-335 | the new state is the `send` transition: dropped when not connected or busy, otherwise gate closed, a 5000 ms timeout armed and one write logged |
| Session.RobotisDream.WriteCompleted | src/extensions/scratch3_robotisdream/index.js:329-334 | the new state is the completion transition |
| Session.RobotisDream.BusyTimeoutFired | src/extensions/scratch3_robotisdream/index.js:323-325 | the new state is the busy-timeout transition |
| Session.RobotisDream.OnConnect | src/extensions/scratch3_robotisdream/index.js:341-348 | the new state is the `_onConnect` transition |
| Session.RobotisDream.OnMessage | src/extensions/scratch3_robotisdream/index.js:355-366 | the new state is the `_onMessage` transition |
| Session.RobotisDream.WatchdogFired | src/extensions/scratch3_robotisdream/index.js:344-347 | the new state is the watchdog-report transition |
| Session.RobotisDream.Elapse | src/extensions/scratch3_robotisdream/index.js:323-325 | time advances only while no running timer falls due earlier; nothing else changes |
| Session.RobotisDream.LinkLost | src/extensions/scratch3_robotisdream/index.js:293-300 | the transport stops reporting a connection; nothing else changes |
| Session.RobotisDream.ServoPower | src/extensions/scratch3_robotisdream/index.js:210-227 | the new state is the `send` transition for the servo packet |
| Session.RobotisDream.SetSound | src/extensions/scratch3_robotisdream/index.js:229-233 | the new state is the `send` transition for the sound packet |
| Session.BusyGateScenario | src/extensions/scratch3_robotisdream/index.js:312-334 | send A, send B, completion, send C logs exactly [A, C] |
| Session.BusyTimeoutScenario | src/extensions/scratch3_robotisdream/index.js:317-325 | a write that never completes holds the gate until the 5000 ms timeout fires, and then the next write goes out |
| Session.StaleCompletion | src/extensions/scratch3_robotisdream/index.js:323-334 | a late completion of a timed-out write opens the gate while a newer write is outstanding, and stops the newer write's timeout |
| Session.WatchdogScenario | src/extensions/scratch3_robotisdream/index.js:341-366 | with messages 44999 ms apart the clock may advance and no watchdog is due before the next message (asserted after the second pause); 45000 ms of silence produce one report to the transport |
| Session.DoubleConnectScenario | src/extensions/scratch3_robotisdream/index.js:341-366 | after a second connect and a message, the first watchdog is still running, and `disconnect` stops only the recorded one |
| Session.DisconnectScenario | src/extensions/scratch3_robotisdream/index.js:270-335 | after `disconnect` the handle is still set, the transport was torn down, and `send` drops its write |
| Session.CommandScenario | src/extensions/scratch3_robotisdream/index.js:210-233 | `servoPower` and `setSound` hand the transport exactly the servo and sound packets |

## Left out

- The BLE transport is not part of this model. It is foreign I/O: discovery,
  `connect(id)`/`connectPeripheral`, the read subscription made by
  `_onConnect`, and what `handleDisconnectError` does. The transport's
  `isConnected()` is an abstract flag. Its `disconnect()` is modelled as
  recorded and making that flag false. Whether and when the transport calls
  the `reset` and `_onConnect` callbacks is left to the caller of the methods.
- Base64 encoding in `send` and decoding in `_onMessage` is left out. The
  write log holds the raw packet, and the inbound payload is discarded, as the
  code discards it.
- Real timers: the host is assumed to fire every timer when it is due, and the
  clock advances only up to the next deadline. Jitter and late firing are not
  modelled.
- Timer ids start at 1 and grow, as browsers hand them out, so the
  truthiness test `if (this._timeoutID)` in `reset` becomes "an id is
  recorded".
- Commands.ServoValue: power is an integer. A fractional power and the
  floating-point quotient `1023 * power / 100` are not modelled; the integer
  quotient truncated toward zero is what the byte helpers keep of it for a
  whole-number power. `NaN` (unknown direction) is modelled as 0, and so is an
  unknown port's `undefined` address.
- Session.RobotisDream.SetSound: the tone is a byte. The string-to-number
  coercion of a menu value and a tone outside [0, 255] are not modelled.
- Crc16.TableHoldsPolynomial: only rows 0 and 1 are checked against the
  polynomial. The other 254 entries are taken as the constant the code embeds
  and are not derived from 0x8005 in the proof.
- `Packet.Decode` has no counterpart in the code, which never decodes an
  instruction packet. It serves as the partner against which the encoder is
  proved.
- The `Scratch3RobotisDreamBlocks` class (block metadata, menus, `parseInt`
  of the power, 50 ms delays) is left out because it is UI registration.
  Also left out: `console.log`, runtime registration, the unused
  `INST_NONE`, `INST_READ` and `BLESendInterval`, and the read
  characteristic.
