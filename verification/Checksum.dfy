/** The 8 bit checksum of a surface: CRC-8 with polynomial 0x07, initial value 0 and no reflection,
    which is what the SMBus variant of the CRC library computes. */
module Checksum {

  type byte = bv8

  function ShiftBits(crc: byte, bits: nat): byte
    decreases bits
  {
    if bits == 0 then crc
    else ShiftBits(if crc & 0x80 != 0 then (crc << 1) ^ 0x07 else crc << 1, bits - 1)
  }

  function Crc8From(crc: byte, data: seq<byte>): byte
    decreases |data|
  {
    if data == [] then crc else Crc8From(ShiftBits(crc ^ data[0], 8), data[1..])
  }

  function Crc8(data: seq<byte>): byte {
    Crc8From(0, data)
  }

  /** Two different blocks with the same checksum: an 8 bit hash cannot tell them apart. */
  lemma Crc8Collides()
    ensures Crc8([0, 0, 1, 7]) == Crc8([0, 0, 0, 0])
  {
    assert ShiftBits(0, 8) == ShiftBits(0, 6) == ShiftBits(0, 4) == ShiftBits(0, 2) == 0;
    assert ShiftBits(1, 8) == ShiftBits(4, 6) == ShiftBits(16, 4) == ShiftBits(64, 2) == 7;
    assert Crc8([0, 0, 1, 7]) == Crc8From(0, [0, 1, 7]) == Crc8From(0, [1, 7]) == Crc8From(7, [7]) == Crc8From(0, []);
    assert Crc8([0, 0, 0, 0]) == Crc8From(0, [0, 0, 0]) == Crc8From(0, [0, 0]) == Crc8From(0, [0]) == Crc8From(0, []);
  }
}
