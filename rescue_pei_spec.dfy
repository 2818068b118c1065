// FlashRescueBoardPei.c's entry point as a function on Env, and what it
// promises: the second entry serves the host, the first entry hands over
// to a copy of the PEIM in memory only after a handshake.
module RescuePeiSpec {

  import opened Uefi
  import opened RescueWire
  import opened RescuePlatform
  import opened RescueCommonSpec

  /** EFI_SIZE_TO_PAGES((UINT32)ImageSize). */
  function ImagePages(o: Oracle): nat {
    SizeToPages(o.imageSize % 0x1_0000_0000)
  }

  /** The PEI trail of a first entry up to the page allocation. */
  function PreparationEvents(o: Oracle): seq<PeiEvent> {
    [FindSectionData, GetImageInfo, AllocatePages(ImagePages(o))]
  }

  /** The rest of the PEI trail of a first entry, when the copy runs. */
  function HandoverEvents(o: Oracle): seq<PeiEvent> {
    [LoadImage(o.allocBase), RelocateImage(o.allocBase),
     InstallPpi(FlashRescueReadyInMemoryPpiGuid, NullInterface), CallEntryPoint(o.entryPoint)]
  }

  /** After the handshake: debug output silenced, the PEIM's image looked
      up and pages requested for its copy. */
  function Prepared(o: Oracle, e: Env): Env {
    e.(debugPrintErrorLevel := 0, trail := e.trail + PreparationEvents(o))
  }

  /** The copy loaded, relocated and entered with the marker PPI installed. */
  function HandedOver(o: Oracle, e: Env): Env {
    e.(trail := e.trail + HandoverEvents(o),
       ppis := e.ppis[FlashRescueReadyInMemoryPpiGuid := NullInterface])
  }

  function EntryPointSpec(o: Oracle, pcds: Pcds, e: Env): (EfiStatus, Env)
    requires WellFormed(o) && ValidChunk(pcds.dataXferPacketSize)
    decreases if FlashRescueReadyInMemoryPpiGuid in e.ppis then 0 else 1
  {
    if FlashRescueReadyInMemoryPpiGuid in e.ppis then
      (Success, PerformFlashSpec(o, pcds.dataXferPacketSize, e).1)
    else
      var (hello, e1) := SendHelloPacketSpec(o, pcds, e);
      if hello != Success then (Success, e1)
      else
        var e2 := Prepared(o, e1);
        if !o.allocOk then (OutOfResources, e2)
        else
          var e3 := HandedOver(o, e2);
          var (_, e4) := EntryPointSpec(o, pcds, e3);
          (Success, Record(Record(e4, SpiServiceInit), FreePages(o.allocBase, ImagePages(o))))
  }

  /** Second entry (the marker PPI is installed): the session runs and its
      status is dropped in favour of SUCCESS. */
  lemma SecondEntryServes(o: Oracle, pcds: Pcds, e: Env)
    requires WellFormed(o) && ValidChunk(pcds.dataXferPacketSize)
    requires FlashRescueReadyInMemoryPpiGuid in e.ppis
    ensures EntryPointSpec(o, pcds, e) == (Success, PerformFlashSpec(o, pcds.dataXferPacketSize, e).1)
  {
  }

  /** First entry without an ACK: SUCCESS, and only the serial port has been
      used; the debug level, the PPI database and the PEI trail are as they
      were. */
  lemma FirstEntryWithoutHost(o: Oracle, pcds: Pcds, e: Env)
    requires WellFormed(o) && ValidChunk(pcds.dataXferPacketSize)
    requires FlashRescueReadyInMemoryPpiGuid !in e.ppis
    requires SendHelloPacketSpec(o, pcds, e).0 != Success
    ensures var (status, r) := EntryPointSpec(o, pcds, e);
      status == Success && r == e.(input := r.input, output := r.output)
  {
    HelloShape(e, o.staleResponse, HelloAttempts(pcds.userspaceHostWaitTimeout));
  }

  /** First entry with an ACK: debug output is switched off and pages are
      requested for the image. If none are granted the result is
      OUT_OF_RESOURCES and the marker is not installed; otherwise the copy is
      loaded, relocated, the marker is installed with a NULL interface before
      the copy's entry point runs (which then serves the host), and the SPI
      services are re-initialised before exactly the allocated pages are
      freed. */
  lemma FirstEntryWithHost(o: Oracle, pcds: Pcds, e: Env)
    requires WellFormed(o) && ValidChunk(pcds.dataXferPacketSize)
    requires FlashRescueReadyInMemoryPpiGuid !in e.ppis
    requires SendHelloPacketSpec(o, pcds, e).0 == Success
    ensures var (status, r) := EntryPointSpec(o, pcds, e);
      var t := SendHelloPacketSpec(o, pcds, e).1.trail + PreparationEvents(o);
      r.debugPrintErrorLevel == 0
      && (!o.allocOk ==> status == OutOfResources && r.ppis == e.ppis && r.trail == t)
      && (o.allocOk ==>
            status == Success
            && r.ppis == e.ppis[FlashRescueReadyInMemoryPpiGuid := NullInterface]
            && r.trail == t + HandoverEvents(o)
                 + [SpiServiceInit, SpiServiceInit, FreePages(o.allocBase, ImagePages(o))])
  {
    HelloKeepsPei(o, pcds, e);
    if o.allocOk {
      FirstEntryHandsOver(o, pcds, e);
    }
  }

  /** The handshake touches only the serial port and the clock-free parts of Env. */
  lemma HelloKeepsPei(o: Oracle, pcds: Pcds, e: Env)
    ensures var r := SendHelloPacketSpec(o, pcds, e).1;
      r.ppis == e.ppis && r.trail == e.trail && r.debugPrintErrorLevel == e.debugPrintErrorLevel
  {
    HelloShape(e, o.staleResponse, HelloAttempts(pcds.userspaceHostWaitTimeout));
  }

  /** With pages granted, the first entry's result is the nested second
      entry's, followed by the SPI re-initialisation and the freeing. */
  lemma FirstEntryHandsOver(o: Oracle, pcds: Pcds, e: Env)
    requires WellFormed(o) && ValidChunk(pcds.dataXferPacketSize)
    requires FlashRescueReadyInMemoryPpiGuid !in e.ppis
    requires SendHelloPacketSpec(o, pcds, e).0 == Success && o.allocOk
    ensures var r := EntryPointSpec(o, pcds, e).1;
      var e1 := SendHelloPacketSpec(o, pcds, e).1;
      EntryPointSpec(o, pcds, e).0 == Success
      && r.debugPrintErrorLevel == 0
      && r.ppis == e1.ppis[FlashRescueReadyInMemoryPpiGuid := NullInterface]
      && r.trail == e1.trail + PreparationEvents(o) + HandoverEvents(o)
           + [SpiServiceInit, SpiServiceInit, FreePages(o.allocBase, ImagePages(o))]
  {
    var e1 := SendHelloPacketSpec(o, pcds, e).1;
    var e3 := HandedOver(o, Prepared(o, e1));
    SecondEntryServes(o, pcds, e3);
    PerformFlashOutcome(o, pcds.dataXferPacketSize, e3);
    var t := PerformFlashSpec(o, pcds.dataXferPacketSize, e3).1.trail;
    assert t + [SpiServiceInit] + [FreePages(o.allocBase, ImagePages(o))]
        == e1.trail + PreparationEvents(o) + HandoverEvents(o)
           + [SpiServiceInit, SpiServiceInit, FreePages(o.allocBase, ImagePages(o))];
  }

  /** The entry point returns SUCCESS or OUT_OF_RESOURCES; the only PPI it
      can add is the marker, and it removes none. */
  lemma EntryPointPpis(o: Oracle, pcds: Pcds, e: Env)
    requires WellFormed(o) && ValidChunk(pcds.dataXferPacketSize)
    ensures var (status, r) := EntryPointSpec(o, pcds, e);
      (status == Success || status == OutOfResources)
      && e.ppis.Keys <= r.ppis.Keys <= e.ppis.Keys + {FlashRescueReadyInMemoryPpiGuid}
  {
    if FlashRescueReadyInMemoryPpiGuid in e.ppis {
      PerformFlashOutcome(o, pcds.dataXferPacketSize, e);
    } else if SendHelloPacketSpec(o, pcds, e).0 == Success {
      FirstEntryWithHost(o, pcds, e);
    } else {
      FirstEntryWithoutHost(o, pcds, e);
    }
  }
}
