// The world the flash-rescue PEIM talks to: the serial port, the SPI
// flash behind the PCH SPI2 PPI, the nanosecond clock, and the PEI
// services (PPI database, page allocation, PE/COFF loader, PCD patch).
// Each service is a value-level function on Env, and a method of the
// Platform class that performs the same change in place.
module RescuePlatform {

  import opened Uefi
  import opened RescueWire

  /** What the SPI flash was asked to do, in order. */
  datatype FlashOp =
    | FlashReadOp(address: nat)
    | FlashEraseOp(address: nat)
    | FlashWriteOp(address: nat, data: seq<Byte>)

  datatype PpiGuid = PchSpi2PpiGuid | FlashRescueReadyInMemoryPpiGuid | OtherPpiGuid(id: nat)

  /** The interface pointer of an installed PPI. */
  datatype Interface = NullInterface | InterfaceAt(address: nat)

  /** PEI-phase services the entry point calls, in order. */
  datatype PeiEvent =
    | SpiServiceInit
    | FindSectionData
    | GetImageInfo
    | AllocatePages(pages: nat)
    | LoadImage(address: nat)
    | RelocateImage(address: nat)
    | InstallPpi(guid: PpiGuid, iface: Interface)
    | CallEntryPoint(address: nat)
    | FreePages(address: nat, pages: nat)

  /** Everything the code can change. */
  datatype Env = Env(
    input: seq<Byte>,                 // bytes the host has sent and the PEIM has not read
    output: seq<Byte>,                // bytes the PEIM has written to the serial port
    flash: map<nat, seq<Byte>>,       // 4 KiB blocks of the BIOS region by address
    flashOps: seq<FlashOp>,
    clockReads: nat,                  // how many times the clock has been read
    ppis: map<PpiGuid, Interface>,    // the PEI PPI database
    debugPrintErrorLevel: nat,        // PcdDebugPrintErrorLevel
    trail: seq<PeiEvent>,
    coldReset: bool)                  // ResetCold() has been requested

  /** Everything the code reads but does not control: the answers of the
      services, the clock, and stale stack contents of uninitialised
      locals. */
  datatype Oracle = Oracle(
    readFaults: set<nat>,
    eraseFaults: set<nat>,
    writeFaults: set<nat>,
    spiInitOk: bool,
    imageSize: nat,
    allocOk: bool,
    allocBase: nat,
    entryPoint: nat,
    clock: nat -> nat,
    staleResponse: Response,
    staleCommand: Command,
    staleSize: U16,
    staleBlock: seq<Byte>)

  /** The clock advances on every reading. */
  ghost predicate Ticking(clock: nat -> nat) {
    forall j: nat, k: nat :: j < k ==> clock(j) < clock(k)
  }

  ghost predicate WellFormed(o: Oracle) {
    Ticking(o.clock) && |o.staleBlock| == SizeBlock
  }

  /** Every block the flash map holds is one whole 4 KiB block. */
  predicate FlashBlocks(e: Env) {
    forall a :: a in e.flash ==> |e.flash[a]| == SizeBlock
  }

  /** The two build-time PCDs the PEIM reads. */
  datatype Pcds = Pcds(dataXferPacketSize: U16, userspaceHostWaitTimeout: U32)

  /** A transfer chunk must be positive and divide the block size. The PCD
      is not checked at run time: 0 would loop forever, and a size that does
      not divide 4096 would overrun the block buffer. */
  predicate ValidChunk(x: nat) {
    0 < x && SizeBlock % x == 0
  }

  function Min(a: nat, b: nat): nat {
    if a <= b then a else b
  }

  /** The bytes a non-blocking read of n bytes receives. */
  function Take(s: seq<Byte>, n: nat): (r: seq<Byte>)
    ensures |r| == Min(n, |s|) && r == s[..|r|]
  {
    s[..Min(n, |s|)]
  }

  function Drop(s: seq<Byte>, n: nat): (r: seq<Byte>)
    ensures s == Take(s, n) + r
  {
    s[Min(n, |s|)..]
  }

  /** A buffer after `got` has been copied into it at offset `at`. */
  function Overlay(buf: seq<Byte>, at: nat, got: seq<Byte>): (r: seq<Byte>)
    requires at + |got| <= |buf|
    ensures |r| == |buf|
  {
    buf[..at] + got + buf[at + |got|..]
  }

  lemma OverlayAt(buf: seq<Byte>, at: nat, got: seq<Byte>, k: nat)
    requires at + |got| <= |buf| && k < |buf|
    ensures Overlay(buf, at, got)[k] == if at <= k < at + |got| then got[k - at] else buf[k]
  {
  }

  lemma DropDrop(s: seq<Byte>, a: nat, b: nat)
    ensures Drop(Drop(s, a), b) == Drop(s, a + b)
  {
  }

  lemma TakeDrop(s: seq<Byte>, a: nat, b: nat)
    ensures Take(s, a) + Take(Drop(s, a), b) == Take(s, a + b)
  {
  }

  /** Concatenation of k copies of s. */
  function Repeat(s: seq<Byte>, k: nat): seq<Byte> {
    if k == 0 then [] else s + Repeat(s, k - 1)
  }

  // ---- the services as functions on Env ----

  function SerialRead(e: Env, n: nat): (seq<Byte>, Env) {
    (Take(e.input, n), e.(input := Drop(e.input, n)))
  }

  function SerialWrite(e: Env, bytes: seq<Byte>): Env {
    e.(output := e.output + bytes)
  }

  function ReadClock(o: Oracle, e: Env): (nat, Env) {
    (o.clock(e.clockReads), e.(clockReads := e.clockReads + 1))
  }

  predicate FlashOk(faults: set<nat>, e: Env, address: nat) {
    address in e.flash && address !in faults
  }

  function FlashRead(o: Oracle, e: Env, address: nat): (bool, Env) {
    (FlashOk(o.readFaults, e, address), e.(flashOps := e.flashOps + [FlashReadOp(address)]))
  }

  /** A block after erase: every byte 0xFF. */
  function ErasedBlock(): (b: seq<Byte>)
    ensures |b| == SizeBlock && forall k :: 0 <= k < |b| ==> b[k] == 0xFF
  {
    seq(SizeBlock, _ => 0xFF)
  }

  function FlashErase(o: Oracle, e: Env, address: nat): (bool, Env) {
    (FlashOk(o.eraseFaults, e, address),
     e.(flash := if FlashOk(o.eraseFaults, e, address) then e.flash[address := ErasedBlock()] else e.flash,
        flashOps := e.flashOps + [FlashEraseOp(address)]))
  }

  function FlashWrite(o: Oracle, e: Env, address: nat, data: seq<Byte>): (bool, Env) {
    var ok := FlashOk(o.writeFaults, e, address);
    (ok, e.(flash := if ok then e.flash[address := data] else e.flash,
            flashOps := e.flashOps + [FlashWriteOp(address, data)]))
  }

  function Record(e: Env, ev: PeiEvent): Env {
    e.(trail := e.trail + [ev])
  }

  /** EFI_SIZE_TO_PAGES: the number of 4 KiB pages that hold `size` bytes. */
  function SizeToPages(size: nat): (pages: nat)
    ensures pages * 4096 >= size
    ensures pages == 0 || (pages - 1) * 4096 < size
  {
    size / 4096 + (if size % 4096 != 0 then 1 else 0)
  }

  /** The PEI-phase world, changed in place by the services the PEIM calls. */
  class Platform {
    var input: seq<Byte>
    var output: seq<Byte>
    var flash: map<nat, seq<Byte>>
    var flashOps: seq<FlashOp>
    var clockReads: nat
    var ppis: map<PpiGuid, Interface>
    var debugPrintErrorLevel: nat
    var trail: seq<PeiEvent>
    var coldReset: bool
    const oracle: Oracle

    constructor (e: Env, o: Oracle)
      ensures State() == e && oracle == o
    {
      input, output, flash, flashOps := e.input, e.output, e.flash, e.flashOps;
      clockReads, ppis, debugPrintErrorLevel := e.clockReads, e.ppis, e.debugPrintErrorLevel;
      trail, coldReset := e.trail, e.coldReset;
      oracle := o;
    }

    function State(): Env
      reads this
    {
      Env(input, output, flash, flashOps, clockReads, ppis, debugPrintErrorLevel, trail, coldReset)
    }

    method Assign(e: Env)
      modifies this
      ensures State() == e
    {
      input, output, flash, flashOps := e.input, e.output, e.flash, e.flashOps;
      clockReads, ppis, debugPrintErrorLevel := e.clockReads, e.ppis, e.debugPrintErrorLevel;
      trail, coldReset := e.trail, e.coldReset;
    }

    /** SerialPortPoll: is a byte waiting? */
    method SerialPortPoll() returns (pending: bool)
      ensures pending <==> |input| > 0
    {
      pending := |input| > 0;
    }

    /** SerialPortRead(n): the bytes that arrived, at most n of them. */
    method SerialPortRead(n: nat) returns (got: seq<Byte>)
      modifies this
      ensures got == SerialRead(old(State()), n).0
      ensures State() == SerialRead(old(State()), n).1
    {
      got := Take(input, n);
      input := Drop(input, n);
    }

    method SerialPortWrite(bytes: seq<Byte>)
      modifies this
      ensures State() == SerialWrite(old(State()), bytes)
    {
      output := output + bytes;
    }

    /** GetTimeInNanoSecond(GetPerformanceCounter()). */
    method GetTimeInNanoSecond() returns (t: nat)
      modifies this
      ensures t == ReadClock(oracle, old(State())).0
      ensures State() == ReadClock(oracle, old(State())).1
    {
      t := oracle.clock(clockReads);
      clockReads := clockReads + 1;
    }

    method PeiServicesLocatePpi(g: PpiGuid) returns (found: bool)
      ensures found <==> g in ppis
    {
      found := g in ppis;
    }

    method PeiServicesInstallPpi(g: PpiGuid, iface: Interface)
      modifies this
      ensures State() == Record(old(State()), InstallPpi(g, iface)).(ppis := old(ppis)[g := iface])
    {
      trail := trail + [InstallPpi(g, iface)];
      ppis := ppis[g := iface];
    }

    method SpiServiceInit() returns (ok: bool)
      modifies this
      ensures ok == oracle.spiInitOk
      ensures State() == Record(old(State()), PeiEvent.SpiServiceInit)
    {
      trail := trail + [PeiEvent.SpiServiceInit];
      ok := oracle.spiInitOk;
    }

    method FlashReadBlock(address: nat) returns (ok: bool, data: seq<Byte>)
      modifies this
      ensures ok == FlashRead(oracle, old(State()), address).0
      ensures State() == FlashRead(oracle, old(State()), address).1
      ensures ok ==> data == flash[address]
    {
      ok := FlashOk(oracle.readFaults, State(), address);
      flashOps := flashOps + [FlashReadOp(address)];
      data := if ok then flash[address] else [];
    }

    method FlashEraseBlock(address: nat) returns (ok: bool)
      modifies this
      ensures ok == FlashErase(oracle, old(State()), address).0
      ensures State() == FlashErase(oracle, old(State()), address).1
    {
      ok := FlashOk(oracle.eraseFaults, State(), address);
      if ok { flash := flash[address := ErasedBlock()]; }
      flashOps := flashOps + [FlashEraseOp(address)];
    }

    method FlashWriteBlock(address: nat, data: seq<Byte>) returns (ok: bool)
      modifies this
      ensures ok == FlashWrite(oracle, old(State()), address, data).0
      ensures State() == FlashWrite(oracle, old(State()), address, data).1
    {
      ok := FlashOk(oracle.writeFaults, State(), address);
      if ok { flash := flash[address := data]; }
      flashOps := flashOps + [FlashWriteOp(address, data)];
    }

    /** GetSpiPpi: is the PCH SPI2 PPI installed? (A NULL result is "no".) */
    method GetSpiPpi() returns (found: bool)
      ensures found <==> PchSpi2PpiGuid in ppis
    {
      found := PeiServicesLocatePpi(PchSpi2PpiGuid);
    }

    /** PerformSystemReset: asks for a cold reset (ResetCold). */
    method PerformSystemReset()
      modifies this
      ensures State() == old(State()).(coldReset := true)
    {
      coldReset := true;
    }

    method PatchPcdSetDebugPrintErrorLevel(level: nat)
      modifies this
      ensures State() == old(State()).(debugPrintErrorLevel := level)
    {
      debugPrintErrorLevel := level;
    }

    method Note(ev: PeiEvent)
      modifies this
      ensures State() == Record(old(State()), ev)
    {
      trail := trail + [ev];
    }

    /** PeiServicesAllocatePages: the oracle decides success and the base. */
    method PeiServicesAllocatePages(pages: nat) returns (ok: bool, base: nat)
      modifies this
      ensures ok == oracle.allocOk && base == oracle.allocBase
      ensures State() == Record(old(State()), AllocatePages(pages))
    {
      trail := trail + [AllocatePages(pages)];
      ok, base := oracle.allocOk, oracle.allocBase;
    }
  }
}
