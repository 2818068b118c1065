// CalculateCrc32 from BaseLib: the standard reflected CRC-32 of IEEE 802.3
// (polynomial 0xEDB88320, initial value and final xor 0xFFFFFFFF), written
// bit by bit.
module Crc32 {

  import opened Uefi

  const Polynomial: bv32 := 0xEDB8_8320

  /** One shift of the reflected CRC register. */
  function ShiftBit(c: bv32): bv32 {
    if c & 1 == 1 then (c >> 1) ^ Polynomial else c >> 1
  }

  function ShiftBits(c: bv32, n: nat): bv32
    decreases n
  {
    if n == 0 then c else ShiftBits(ShiftBit(c), n - 1)
  }

  /** Feeds one byte into the register. */
  function UpdateByte(c: bv32, b: Byte): bv32 {
    ShiftBits(c ^ (b as bv32), 8)
  }

  function Update(c: bv32, data: seq<Byte>): bv32
    decreases |data|
  {
    if data == [] then c else Update(UpdateByte(c, data[0]), data[1..])
  }

  /** The checksum as an unsigned 32-bit value. */
  function CalculateCrc32(data: seq<Byte>): U32 {
    (!Update(0xFFFF_FFFF, data)) as int
  }

  /** The register is fed byte by byte: a split buffer gives the same CRC
      as the whole one. */
  lemma {:induction false} UpdateAppend(c: bv32, a: seq<Byte>, b: seq<Byte>)
    ensures Update(c, a + b) == Update(Update(c, a), b)
    decreases |a|
  {
    if a == [] {
      assert a + b == b;
    } else {
      assert (a + b)[0] == a[0];
      assert (a + b)[1..] == a[1..] + b;
      UpdateAppend(UpdateByte(c, a[0]), a[1..], b);
    }
  }
}
