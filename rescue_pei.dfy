// FlashRescueBoardPeiEntryPoint against the Platform object. The call of
// the relocated copy's entry point is a recursive call: the copy is the
// same code, entered with the marker PPI installed.
module RescuePei {

  import opened Uefi
  import opened RescueWire
  import opened RescuePlatform
  import opened RescueCommonSpec
  import opened RescuePeiSpec
  import RescueCommon

  /** Silence debug output, find the PEIM's image and ask for pages for a copy. */
  method PrepareCopy(p: Platform) returns (granted: bool, peimCopy: nat, pages: nat)
    modifies p
    ensures granted == p.oracle.allocOk && peimCopy == p.oracle.allocBase && pages == ImagePages(p.oracle)
    ensures p.State() == Prepared(p.oracle, old(p.State()))
  {
    p.PatchPcdSetDebugPrintErrorLevel(0);
    p.Note(FindSectionData);
    p.Note(GetImageInfo);
    var imageSize := p.oracle.imageSize;
    pages := SizeToPages(imageSize % 0x1_0000_0000);
    granted, peimCopy := p.PeiServicesAllocatePages(pages);
  }

  /** Load and relocate the copy, install the marker PPI and record the jump
      to the copy's entry point. */
  method HandOver(p: Platform, peimCopy: nat)
    requires peimCopy == p.oracle.allocBase
    modifies p
    ensures p.State() == HandedOver(p.oracle, old(p.State()))
  {
    p.Note(LoadImage(peimCopy));
    p.Note(RelocateImage(peimCopy));
    // FlushBiosHack is not modelled.
    p.PeiServicesInstallPpi(FlashRescueReadyInMemoryPpiGuid, NullInterface);
    p.Note(CallEntryPoint(p.oracle.entryPoint));
  }

  method FlashRescueBoardPeiEntryPoint(p: Platform, pcds: Pcds) returns (status: EfiStatus)
    requires WellFormed(p.oracle) && ValidChunk(pcds.dataXferPacketSize)
    modifies p
    ensures status == EntryPointSpec(p.oracle, pcds, old(p.State())).0
    ensures p.State() == EntryPointSpec(p.oracle, pcds, old(p.State())).1
    decreases if FlashRescueReadyInMemoryPpiGuid in p.ppis then 0 else 1
  {
    var ready := p.PeiServicesLocatePpi(FlashRescueReadyInMemoryPpiGuid);
    if ready {
      var flashStatus := RescueCommon.PerformFlash(p, pcds);
      return Success;
    }
    // MicroSecondDelay (3 s) is not modelled.
    var hello := RescueCommon.SendHelloPacket(p, pcds);
    if hello != Success {
      return Success;
    }
    var granted, peimCopy, pages := PrepareCopy(p);
    if !granted {
      return OutOfResources;
    }
    HandOver(p, peimCopy);
    var copyStatus := FlashRescueBoardPeiEntryPoint(p, pcds);
    var spiStatus := p.SpiServiceInit();
    p.Note(FreePages(peimCopy, pages));
    return Success;
  }
}
