// FlashRescueBoardCommon.c: the handshake, the two block handlers and the
// session loop, run against the Platform object. Each method is proved to
// do exactly what its function in RescueCommonSpec describes.
module RescueCommon {

  import opened Uefi
  import opened RescueWire
  import opened RescuePlatform
  import opened RescueCommonSpec
  import Crc32

  method SendHelloPacket(p: Platform, pcds: Pcds) returns (status: EfiStatus)
    modifies p
    ensures status == SendHelloPacketSpec(p.oracle, pcds, old(p.State())).0
    ensures p.State() == SendHelloPacketSpec(p.oracle, pcds, old(p.State())).1
  {
    var waitTimeout := pcds.userspaceHostWaitTimeout;
    var commandPacket := HelloCommand;
    var responsePacket := p.oracle.staleResponse;
    var timeCounter := 0;
    ghost var attempts := HelloAttempts(waitTimeout);
    ghost var done := 0;
    ghost var goal := Hello(p.State(), responsePacket, attempts);
    while timeCounter < waitTimeout
      invariant timeCounter == HelloIntervalMs * done && done <= attempts
      invariant timeCounter < waitTimeout <==> done < attempts
      invariant goal == Hello(p.State(), responsePacket, attempts - done)
      decreases waitTimeout - timeCounter
    {
      p.SerialPortWrite(SerializeCommand(commandPacket));
      var got := p.SerialPortRead(PacketSize);
      responsePacket := ParseResponse(Overlay(SerializeResponse(responsePacket), 0, got)).value;
      if responsePacket.acknowledge == Acknowledged {
        return Success;
      }
      // MicroSecondDelay (250 ms) is not modelled.
      timeCounter := timeCounter + HelloIntervalMs;
      done := done + 1;
    }
    return Timeout;
  }

  method SendBlockChecksum(p: Platform, blockNumber: U16)
    modifies p
    ensures p.State() == SendBlockChecksumSpec(p.oracle, old(p.State()), blockNumber)
  {
    var spi := p.GetSpiPpi();
    if !spi {
      return;
    }
    var address := BlockAddress(blockNumber);
    var ok, blockData := p.FlashReadBlock(address);
    if !ok {
      return;
    }
    var crc := Crc32.CalculateCrc32(blockData);
    p.SerialPortWrite(SerializeResponse(Response(Acknowledged, p.oracle.staleSize)));
    p.SerialPortWrite(U32ToBytes(crc));
  }

  /** One chunk of the receive loop: read it into the buffer at `index`,
      then acknowledge it. */
  method ReceiveChunk(p: Platform, blockData: array<Byte>, index: nat, xferBlockSize: nat, ack: seq<Byte>)
    requires ValidChunk(xferBlockSize) && blockData.Length == SizeBlock
    requires index < SizeBlock && index % xferBlockSize == 0
    modifies p, blockData
    ensures index + xferBlockSize <= SizeBlock && (index + xferBlockSize) % xferBlockSize == 0
    ensures ReceiveChunks(old(p.State()), old(blockData[..]), index, xferBlockSize, ack)
         == ReceiveChunks(p.State(), blockData[..], index + xferBlockSize, xferBlockSize, ack)
  {
    ReceiveChunksStep(p.State(), blockData[..], index, xferBlockSize, ack);
    // MicroSecondDelay (33 ms) is not modelled.
    ghost var buf := blockData[..];
    var got := p.SerialPortRead(xferBlockSize);
    forall k | 0 <= k < |got| {
      blockData[index + k] := got[k];
    }
    assert blockData[..] == Overlay(buf, index, got) by {
      forall k | 0 <= k < SizeBlock
        ensures blockData[..][k] == Overlay(buf, index, got)[k]
      {
        OverlayAt(buf, index, got, k);
      }
    }
    p.SerialPortWrite(ack);
  }

  /** The chunk loop of WriteBlock: reads the block into `blockData` one
      PcdDataXferPacketSize chunk at a time and ACKs every chunk. */
  method ReceiveBlock(p: Platform, blockData: array<Byte>, xferBlockSize: nat, ack: seq<Byte>)
    requires ValidChunk(xferBlockSize) && blockData.Length == SizeBlock
    modifies p, blockData
    ensures p.State() == ReceiveChunks(old(p.State()), old(blockData[..]), 0, xferBlockSize, ack).0
    ensures blockData[..] == ReceiveChunks(old(p.State()), old(blockData[..]), 0, xferBlockSize, ack).1
  {
    ghost var goal := ReceiveChunks(p.State(), blockData[..], 0, xferBlockSize, ack);
    var index := 0;
    while index < SizeBlock
      invariant 0 <= index <= SizeBlock && index % xferBlockSize == 0
      invariant goal == ReceiveChunks(p.State(), blockData[..], index, xferBlockSize, ack)
      decreases SizeBlock - index
    {
      ReceiveChunk(p, blockData, index, xferBlockSize, ack);
      index := index + xferBlockSize;
    }
  }

  method WriteBlock(p: Platform, pcds: Pcds, blockNumber: U16)
    requires ValidChunk(pcds.dataXferPacketSize) && |p.oracle.staleBlock| == SizeBlock
    modifies p
    ensures p.State() == WriteBlockSpec(p.oracle, pcds.dataXferPacketSize, old(p.State()), blockNumber)
  {
    var xferBlockSize := pcds.dataXferPacketSize;
    var spi := p.GetSpiPpi();
    if !spi {
      return;
    }
    var address := BlockAddress(blockNumber);
    var ack := SerializeResponse(Response(Acknowledged, p.oracle.staleSize));
    p.SerialPortWrite(ack);
    var blockData := new Byte[SizeBlock](i requires 0 <= i < SizeBlock => p.oracle.staleBlock[i]);
    assert blockData[..] == p.oracle.staleBlock;
    ReceiveBlock(p, blockData, xferBlockSize, ack);
    var erased := p.FlashEraseBlock(address);
    if !erased {
      return;
    }
    var written := p.FlashWriteBlock(address, blockData[..]);
  }

  /** The command dispatch inside the session loop; `stop` is NoUserspaceExit cleared. */
  method DispatchCommand(p: Platform, pcds: Pcds, commandPacket: Command) returns (stop: bool)
    requires ValidChunk(pcds.dataXferPacketSize) && |p.oracle.staleBlock| == SizeBlock
    modifies p
    ensures p.State() == DispatchSpec(p.oracle, pcds.dataXferPacketSize, old(p.State()), commandPacket).0
    ensures stop == DispatchSpec(p.oracle, pcds.dataXferPacketSize, old(p.State()), commandPacket).1
  {
    stop := false;
    if commandPacket.opcode == CommandChecksum {
      SendBlockChecksum(p, commandPacket.blockNumber);
    } else if commandPacket.opcode == CommandWrite {
      WriteBlock(p, pcds, commandPacket.blockNumber);
    } else if commandPacket.opcode == CommandReset {
      p.PerformSystemReset();
      stop := true;
    } else if commandPacket.opcode == CommandExit {
      stop := true;
    }
  }

  /** One pass of the session loop, up to its timeout test: what is left of
      the session afterwards is what was left before it. */
  method ServeOnce(p: Platform, pcds: Pcds, command: Command, last: nat)
    returns (commandPacket: Command, stop: bool, lastServicedTimeNs: nat, now: nat)
    requires WellFormed(p.oracle) && ValidChunk(pcds.dataXferPacketSize)
    requires 0 < p.clockReads && p.oracle.clock(p.clockReads - 1) < last + LivenessTimeoutNs
    modifies p
    ensures old(p.clockReads) < p.clockReads && now == p.oracle.clock(p.clockReads - 1)
    ensures |p.input| <= old(|p.input|)
    ensures lastServicedTimeNs == last || |p.input| < old(|p.input|)
    ensures ServeSpec(p.oracle, pcds.dataXferPacketSize, old(p.State()), command, last) ==
      ServeRest(p.oracle, pcds.dataXferPacketSize, p.State(), stop, commandPacket, lastServicedTimeNs, now)
  {
    ghost var pass := ServePass(p.oracle, pcds.dataXferPacketSize, p.State(), command, last);
    commandPacket, stop, lastServicedTimeNs := command, false, last;
    var pending := p.SerialPortPoll();
    if pending {
      // MicroSecondDelay (10 ms) is not modelled.
      var got := p.SerialPortRead(PacketSize);
      commandPacket := ParseCommand(Overlay(SerializeCommand(commandPacket), 0, got)).value;
      stop := DispatchCommand(p, pcds, commandPacket);
      lastServicedTimeNs := p.GetTimeInNanoSecond();
    }
    now := p.GetTimeInNanoSecond();
    assert commandPacket == pass.command && p.State() == pass.env && stop == pass.stop;
    assert lastServicedTimeNs == pass.serviced && now == pass.now;
    ServeUnfolds(p.oracle, pcds.dataXferPacketSize, old(p.State()), command, last);
  }

  method PerformFlash(p: Platform, pcds: Pcds) returns (status: EfiStatus)
    requires WellFormed(p.oracle) && ValidChunk(pcds.dataXferPacketSize)
    modifies p
    ensures status == PerformFlashSpec(p.oracle, pcds.dataXferPacketSize, old(p.State())).0
    ensures p.State() == PerformFlashSpec(p.oracle, pcds.dataXferPacketSize, old(p.State())).1
  {
    var ok := p.SpiServiceInit();
    if !ok {
      return DeviceError;
    }
    var noUserspaceExit := true;
    var commandPacket := p.oracle.staleCommand;
    var lastServicedTimeNs: nat := p.GetTimeInNanoSecond();
    ghost var goal := ServeSpec(p.oracle, pcds.dataXferPacketSize, p.State(), commandPacket, lastServicedTimeNs);
    while noUserspaceExit
      invariant 0 < p.clockReads && p.oracle.clock(p.clockReads - 1) < lastServicedTimeNs + LivenessTimeoutNs
      invariant noUserspaceExit ==>
        goal == ServeSpec(p.oracle, pcds.dataXferPacketSize, p.State(), commandPacket, lastServicedTimeNs)
      invariant !noUserspaceExit ==> goal.0 == Success && goal.1 == p.State()
      decreases noUserspaceExit, |p.input|, lastServicedTimeNs + LivenessTimeoutNs - p.oracle.clock(p.clockReads - 1)
    {
      var stop, now;
      commandPacket, stop, lastServicedTimeNs, now := ServeOnce(p, pcds, commandPacket, lastServicedTimeNs);
      noUserspaceExit := !stop;
      if now - lastServicedTimeNs >= LivenessTimeoutNs {
        return Timeout;
      }
    }
    return Success;
  }
}
