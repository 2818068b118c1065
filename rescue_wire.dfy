// The serial-line protocol of the flash-rescue PEIM: block size, time
// units, the six command opcodes and the two packed three-byte packets
// exchanged with the host utility.
module RescueWire {

  import opened Uefi

  /** The unit of checksum, erase and write. */
  const SizeBlock: nat := 4096
  const MsInSecond: nat := 1000
  const NsInSecond: nat := 1_000_000_000

  const CommandHello: Byte := 0x10
  const CommandChecksum: Byte := 0x11
  const CommandRead: Byte := 0x12
  const CommandWrite: Byte := 0x13
  const CommandReset: Byte := 0x14
  const CommandExit: Byte := 0x15

  /** Value of RESPONSE.Acknowledge that means "ACK". */
  const Acknowledged: Byte := 1

  /** Both packets are packed structures of one UINT8 and one UINT16. */
  const PacketSize: nat := 3

  datatype Command = Command(opcode: Byte, blockNumber: U16)
  datatype Response = Response(acknowledge: Byte, size: U16)

  /** A UINT16 as it lies in memory on a little-endian machine. */
  function U16ToBytes(v: U16): (r: seq<Byte>)
    ensures |r| == 2 && r[0] as int + 0x100 * r[1] as int == v
  {
    [v % 0x100, v / 0x100]
  }

  function U16FromBytes(lo: Byte, hi: Byte): U16 {
    lo as int + 0x100 * hi as int
  }

  /** A UINT32 as it lies in memory, least significant byte first. */
  function U32ToBytes(v: U32): (r: seq<Byte>)
    ensures |r| == 4
    ensures r[0] as int + 0x100 * r[1] as int + 0x1_0000 * r[2] as int + 0x100_0000 * r[3] as int == v
  {
    [v % 0x100, (v / 0x100) % 0x100, (v / 0x1_0000) % 0x100, v / 0x100_0000]
  }

  function U32FromBytes(b: seq<Byte>): U32
    requires |b| == 4
  {
    b[0] as int + 0x100 * b[1] as int + 0x1_0000 * b[2] as int + 0x100_0000 * b[3] as int
  }

  function SerializeCommand(c: Command): (r: seq<Byte>)
    ensures |r| == PacketSize && r[0] == c.opcode
  {
    [c.opcode] + U16ToBytes(c.blockNumber)
  }

  /** Reads a COMMAND out of exactly three bytes; anything else is not one. */
  function ParseCommand(s: seq<Byte>): (r: Option<Command>)
    ensures r.Some? <==> |s| == PacketSize
    ensures r.Some? ==> r.value.opcode == s[0]
  {
    if |s| != PacketSize then None else Some(Command(s[0], U16FromBytes(s[1], s[2])))
  }

  function SerializeResponse(r: Response): (s: seq<Byte>)
    ensures |s| == PacketSize && s[0] == r.acknowledge
  {
    [r.acknowledge] + U16ToBytes(r.size)
  }

  function ParseResponse(s: seq<Byte>): (r: Option<Response>)
    ensures r.Some? <==> |s| == PacketSize
    ensures r.Some? ==> r.value.acknowledge == s[0]
  {
    if |s| != PacketSize then None else Some(Response(s[0], U16FromBytes(s[1], s[2])))
  }

  lemma CommandRoundTrip(c: Command)
    ensures ParseCommand(SerializeCommand(c)) == Some(c)
  {
  }

  lemma CommandBytesRoundTrip(s: seq<Byte>)
    requires |s| == PacketSize
    ensures SerializeCommand(ParseCommand(s).value) == s
  {
  }

  lemma ResponseRoundTrip(r: Response)
    ensures ParseResponse(SerializeResponse(r)) == Some(r)
  {
  }

  lemma ResponseBytesRoundTrip(s: seq<Byte>)
    requires |s| == PacketSize
    ensures SerializeResponse(ParseResponse(s).value) == s
  {
  }

  lemma U32RoundTrip(v: U32)
    ensures U32FromBytes(U32ToBytes(v)) == v
  {
  }

  lemma U32BytesRoundTrip(b: seq<Byte>)
    requires |b| == 4
    ensures U32ToBytes(U32FromBytes(b)) == b
  {
    var v := U32FromBytes(b);
    assert v % 0x100 == b[0];
    assert v / 0x100 == b[1] as int + 0x100 * b[2] as int + 0x1_0000 * b[3] as int;
    assert (v / 0x100) % 0x100 == b[1];
    assert v / 0x1_0000 == b[2] as int + 0x100 * b[3] as int;
    assert v / 0x100_0000 == b[3];
  }

  /** Flash address of a block: BlockNumber * SIZE_BLOCK. */
  function BlockAddress(blockNumber: U16): (a: nat)
    ensures a % SizeBlock == 0 && a / SizeBlock == blockNumber
    ensures a + SizeBlock <= 0x1000_0000
  {
    blockNumber * SizeBlock
  }

  /** Distinct block numbers name disjoint 4 KiB ranges. */
  lemma BlocksDisjoint(b1: U16, b2: U16, o1: nat, o2: nat)
    requires o1 < SizeBlock && o2 < SizeBlock
    requires BlockAddress(b1) + o1 == BlockAddress(b2) + o2
    ensures b1 == b2 && o1 == o2
  {
  }

  /** The six opcodes are the consecutive values 0x10 to 0x15. */
  lemma OpcodesConsecutive()
    ensures [CommandHello, CommandChecksum, CommandRead, CommandWrite, CommandReset, CommandExit]
         == seq(6, i => 0x10 + i)
  {
  }
}
