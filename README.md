# Early flash rescue, Juno configuration manager and Aspire VN7-572G board code, in Dafny

This project models several pieces of an EDK II platform tree and proves what they promise.

- **Early SPI flash rescue PEIM.** The serial-line wire format: six opcodes and two packed 3-byte packets.
  - The HELLO handshake with its bounded number of attempts.
  - The command loop: CHECKSUM, WRITE, RESET and EXIT, plus the 10-second liveness timeout.
  - The CHECKSUM and WRITE handlers.
  - The PEIM's two-entry bootstrap. The first entry makes the handshake, then copies the PEIM into memory, installs the "ready in memory" marker PPI and calls the copy's entry point. The copy finds the marker and serves the host.
  - The serial port, SPI flash, clock, PEI services and reset are one `Platform` object (`rescue_platform.dfy`). The handler and loop methods work on that object. Each method is proved equal to a function on the `Env` value (`rescue_common_spec.dfy`, `rescue_pei_spec.dfy`), and the lemmas state the properties of those functions.
- **Juno configuration manager.**
  - The platform repository is modelled by array lengths and element identities. A token is the address `At(field, index)` of a repository element; `Null` is `CM_NULL_TOKEN`.
  - The namespace and object dispatchers gate availability on the Juno revision.
  - The by-token handlers and element searches.
  - The CPC population: all or nothing across both PSD domains, and only on Juno R2 with relaxation bit 0 set.
- **Aspire VN7-572G board code.**
  - PEI board detection: the EC ADC register sequence, the composition of the 10-bit value and the board-ID thresholds. The EC index I/O ports are an object whose register file and port log the methods update.
  - DXE hooks:
    - the EC time word and how its bytes are sent;
    - the EC's time request;
    - the reset hook and its registration;
    - the HII board-setup form's callback, `ExtractConfig`, `RouteConfig` and installation.
- **HDMI I2C debug port's TPL guard.** The raise/restore state machine and its exit-boot-services event.

## How to read the model

- Everything the code reads from outside is a parameter or a field of an oracle value. This covers:
  - a serial byte queue;
  - a strictly increasing clock;
  - PCDs;
  - SCMI answers;
  - EC responses;
  - HII routing answers;
  - the variable store.
- The airtight claims are the `ensures` clauses of the lemmas listed below.
- Each method states its outcome as the value of a specification function. The lemmas then state the properties of that function.
- Where the source and its comments disagree, the model follows the code. Examples:
  - The ACK packets of CHECKSUM and WRITE carry a `Size` field the code never assigns. On the wire they are `[0x01, stale, stale]`, not `[0x01, 0, 0]`.
  - The comment "time could be negative (before 2016)" in `EcSendTime` is not what the arithmetic does. With the full year in `EFI_TIME.Year`, the sign bit of the 32-bit word is set exactly when `(Year - 2000) mod 64 >= 32`; see `AspireDxeSpec.EcTimeNegative`.

## Model

| member | source | states |
|---|---|---|
| RescueWire.SerializeCommand | Features/Intel/Debugging/EarlySpiFlashRescueFeaturePkg/FlashRescueBoardPei/FlashRescueBoard.h:26-30 | a COMMAND is exactly 3 bytes, opcode first |
| RescueWire.ParseCommand | Features/Intel/Debugging/EarlySpiFlashRescueFeaturePkg/FlashRescueBoardPei/FlashRescueBoard.h:26-30 | exactly the 3-byte inputs parse as a COMMAND, and byte 0 is the opcode |
| RescueWire.SerializeResponse | Features/Intel/Debugging/EarlySpiFlashRescueFeaturePkg/FlashRescueBoardPei/FlashRescueBoard.h:32-36 | a RESPONSE is exactly 3 bytes, Acknowledge first |
| RescueWire.ParseResponse | Features/Intel/Debugging/EarlySpiFlashRescueFeaturePkg/FlashRescueBoardPei/FlashRescueBoard.h:32-36 | exactly the 3-byte inputs parse as a RESPONSE |
| RescueWire.U16ToBytes | Features/Intel/Debugging/EarlySpiFlashRescueFeaturePkg/FlashRescueBoardPei/FlashRescueBoard.h:29 | the two bytes are BlockNumber little-endian: lo + 256·hi is the value |
| RescueWire.U32ToBytes | Features/Intel/Debugging/EarlySpiFlashRescueFeaturePkg/FlashRescueBoardPei/FlashRescueBoardCommon.c:100 | the four CRC bytes recompose to the CRC, least significant first |
| RescueWire.CommandRoundTrip | Features/Intel/Debugging/EarlySpiFlashRescueFeaturePkg/FlashRescueBoardPei/FlashRescueBoard.h:26-30 | parsing a serialised command gives it back |
| RescueWire.CommandBytesRoundTrip | Features/Intel/Debugging/EarlySpiFlashRescueFeaturePkg/FlashRescueBoardPei/FlashRescueBoard.h:26-30 | serialising a parsed 3-byte packet gives the bytes back |
| RescueWire.ResponseRoundTrip | Features/Intel/Debugging/EarlySpiFlashRescueFeaturePkg/FlashRescueBoardPei/FlashRescueBoard.h:32-36 | parsing a serialised response gives it back |
| RescueWire.ResponseBytesRoundTrip | Features/Intel/Debugging/EarlySpiFlashRescueFeaturePkg/FlashRescueBoardPei/FlashRescueBoard.h:32-36 | serialising a parsed 3-byte response gives the bytes back |
| RescueWire.U32RoundTrip | Features/Intel/Debugging/EarlySpiFlashRescueFeaturePkg/FlashRescueBoardPei/FlashRescueBoardCommon.c:100 | reading back the four bytes sent for a UINT32 gives the UINT32 |
| RescueWire.U32BytesRoundTrip | Features/Intel/Debugging/EarlySpiFlashRescueFeaturePkg/FlashRescueBoardPei/FlashRescueBoardCommon.c:100 | every 4-byte sequence is the image of its UINT32 |
| RescueWire.BlockAddress | Features/Intel/Debugging/EarlySpiFlashRescueFeaturePkg/FlashRescueBoardPei/FlashRescueBoardCommon.c:82 | the address is BlockNumber·4096 with no range check; it is block-aligned, and its last byte is at most 65535·4096 + 4095 |
| RescueWire.BlocksDisjoint | Features/Intel/Debugging/EarlySpiFlashRescueFeaturePkg/FlashRescueBoardPei/FlashRescueBoard.h:14 | different block numbers address disjoint 4 KiB ranges |
| RescueWire.OpcodesConsecutive | Features/Intel/Debugging/EarlySpiFlashRescueFeaturePkg/FlashRescueBoardPei/FlashRescueBoard.h:19-24 | HELLO, CHECKSUM, READ, WRITE, RESET and EXIT are 0x10 to 0x15 in that order |
| RescuePlatform.SizeToPages | Features/Intel/Debugging/EarlySpiFlashRescueFeaturePkg/FlashRescueBoardPei/FlashRescueBoardPei.c:190 | EFI_SIZE_TO_PAGES is the least page count covering the size |
| RescuePlatform.Platform.GetSpiPpi | Features/Intel/Debugging/EarlySpiFlashRescueFeaturePkg/FlashRescueBoardPei/FlashRescueBoardPei.c:35-53 | non-NULL exactly when the PCH SPI2 PPI is installed |
| RescuePlatform.Platform.PerformSystemReset | Features/Intel/Debugging/EarlySpiFlashRescueFeaturePkg/FlashRescueBoardPei/FlashRescueBoardPei.c:60-68 | a cold reset is requested and nothing else changes |
| RescueCommonSpec.HelloAttempts | Features/Intel/Debugging/EarlySpiFlashRescueFeaturePkg/FlashRescueBoardPei/FlashRescueBoardCommon.c:44 | the loop runs ⌈WaitTimeout/250⌉ times: the least n with 250·n ≥ WaitTimeout (without the 32-bit wrap-around, see Left out) |
| RescueCommonSpec.HelloShape | Features/Intel/Debugging/EarlySpiFlashRescueFeaturePkg/FlashRescueBoardPei/FlashRescueBoardCommon.c:38-56 | SUCCESS or TIMEOUT after k HELLO packets (command 0x10, block 0), 1 ≤ k ≤ attempts (k = 0 with no budget), k = attempts on TIMEOUT; 3k input bytes consumed and nothing else touched |
| RescueCommonSpec.HelloSucceedsIff | Features/Intel/Debugging/EarlySpiFlashRescueFeaturePkg/FlashRescueBoardPei/FlashRescueBoardCommon.c:44-51 | with the replies delivered, SUCCESS exactly when one of the first `attempts` responses has Acknowledge = 1 |
| RescueCommonSpec.HelloStopsAtFirstAck | Features/Intel/Debugging/EarlySpiFlashRescueFeaturePkg/FlashRescueBoardPei/FlashRescueBoardCommon.c:44-51 | when the first ACK arrives as reply j (all earlier replies NAK), the handshake returns SUCCESS after exactly j + 1 HELLO packets, having consumed exactly j + 1 replies and left the rest of the input unread |
| RescueCommonSpec.HelloZeroTimeout | Features/Intel/Debugging/EarlySpiFlashRescueFeaturePkg/FlashRescueBoardPei/FlashRescueBoardCommon.c:44 | with WaitTimeout 0, no packet is sent and the result is TIMEOUT |
| RescueCommonSpec.ChecksumOutcome | Features/Intel/Debugging/EarlySpiFlashRescueFeaturePkg/FlashRescueBoardPei/FlashRescueBoardCommon.c:76-100 | no SPI PPI or a failed read writes nothing; otherwise the output is one ACK packet and the 4-byte CRC-32 of the block at BlockNumber·4096, taken over exactly 4096 bytes when every flash block is whole; flash is never modified |
| RescueCommonSpec.ReceiveChunks | Features/Intel/Debugging/EarlySpiFlashRescueFeaturePkg/FlashRescueBoardPei/FlashRescueBoardCommon.c:135-147 | the chunk loop keeps the 4096-byte buffer and touches only the serial queues; it never grows the input |
| RescueCommonSpec.ReceiveChunksClosedForm | Features/Intel/Debugging/EarlySpiFlashRescueFeaturePkg/FlashRescueBoardPei/FlashRescueBoardCommon.c:135-147 | from offset i the loop consumes 4096 − i bytes in order into the buffer at i and writes one ACK per remaining chunk |
| RescueCommonSpec.WriteBlockOutcome | Features/Intel/Debugging/EarlySpiFlashRescueFeaturePkg/FlashRescueBoardPei/FlashRescueBoardCommon.c:121-166 | with the SPI PPI: 1 + 4096/X ACKs, 4096 input bytes consumed into the block, one erase, and a write of that block only when the erase succeeded |
| RescueCommonSpec.WriteBlockSpec | Features/Intel/Debugging/EarlySpiFlashRescueFeaturePkg/FlashRescueBoardPei/FlashRescueBoardCommon.c:121-166 | WRITE keeps every flash block 4096 bytes long: the erase stores 4096 bytes of 0xFF and the write stores the 4096-byte receive buffer |
| RescueCommonSpec.WriteBlockNoSpi | Features/Intel/Debugging/EarlySpiFlashRescueFeaturePkg/FlashRescueBoardPei/FlashRescueBoardCommon.c:121-124 | without the SPI PPI, WRITE sends no ACK and changes nothing |
| RescueCommonSpec.ReceivedWholeBlock | Features/Intel/Debugging/EarlySpiFlashRescueFeaturePkg/FlashRescueBoardPei/FlashRescueBoardCommon.c:134-142 | when 4096 bytes have arrived, the block programmed is exactly the first 4096 input bytes |
| RescueCommonSpec.WriteThenChecksum | Features/Intel/Debugging/EarlySpiFlashRescueFeaturePkg/FlashRescueBoardPei/FlashRescueBoardCommon.c:95-166 | after a fault-free WRITE, a CHECKSUM of that block answers the CRC-32 of the bytes sent |
| RescueCommonSpec.DispatchSpec | Features/Intel/Debugging/EarlySpiFlashRescueFeaturePkg/FlashRescueBoardPei/FlashRescueBoardCommon.c:206-223 | the loop stops exactly on RESET or EXIT; a handler leaves the clock, PPIs, PEI trail and debug level alone and keeps every flash block 4096 bytes long |
| RescueCommonSpec.DispatchIgnores | Features/Intel/Debugging/EarlySpiFlashRescueFeaturePkg/FlashRescueBoardPei/FlashRescueBoardCommon.c:221-222 | every opcode other than CHECKSUM, WRITE, RESET and EXIT (HELLO and READ included) changes nothing and does not stop the loop |
| RescueCommonSpec.ServePass | Features/Intel/Debugging/EarlySpiFlashRescueFeaturePkg/FlashRescueBoardPei/FlashRescueBoardCommon.c:199-228 | one pass reads the clock again; with a packet waiting it consumes input and refreshes LastServicedTimeNs after the handler; idle, it only reads the clock; every flash block stays 4096 bytes long |
| RescueCommonSpec.ServeFrame | Features/Intel/Debugging/EarlySpiFlashRescueFeaturePkg/FlashRescueBoardPei/FlashRescueBoardCommon.c:199-236 | the loop ends in SUCCESS or TIMEOUT, leaves the PPIs, PEI trail and debug level as they were, and keeps every flash block 4096 bytes long |
| RescueCommonSpec.ServeIdleTimesOut | Features/Intel/Debugging/EarlySpiFlashRescueFeaturePkg/FlashRescueBoardPei/FlashRescueBoardCommon.c:228-233 | with no input the loop returns TIMEOUT at the first clock reading at least 10 s after the last refresh, and not before |
| RescueCommonSpec.ServeExit | Features/Intel/Debugging/EarlySpiFlashRescueFeaturePkg/FlashRescueBoardPei/FlashRescueBoardCommon.c:218-236 | EXIT consumes its packet and returns SUCCESS, or TIMEOUT when the clock reading after the refresh is already 10 s past it |
| RescueCommonSpec.ServeReset | Features/Intel/Debugging/EarlySpiFlashRescueFeaturePkg/FlashRescueBoardPei/FlashRescueBoardCommon.c:213-217 | RESET requests the cold reset and ends the loop like EXIT |
| RescueCommonSpec.ServeContinues | Features/Intel/Debugging/EarlySpiFlashRescueFeaturePkg/FlashRescueBoardPei/FlashRescueBoardCommon.c:205-225 | any other packet is dispatched, the loop goes on, and LastServicedTimeNs becomes the time read after the handler |
| RescueCommonSpec.PerformFlashOutcome | Features/Intel/Debugging/EarlySpiFlashRescueFeaturePkg/FlashRescueBoardPei/FlashRescueBoardCommon.c:190-236 | SpiServiceInit failing gives DEVICE_ERROR before any serial read; otherwise SUCCESS or TIMEOUT; PPIs and debug level unchanged; every flash block stays 4096 bytes long |
| RescueCommon.SendHelloPacket | Features/Intel/Debugging/EarlySpiFlashRescueFeaturePkg/FlashRescueBoardPei/FlashRescueBoardCommon.c:29-57 | the loop's status and effects are those of the handshake function |
| RescueCommon.SendBlockChecksum | Features/Intel/Debugging/EarlySpiFlashRescueFeaturePkg/FlashRescueBoardPei/FlashRescueBoardCommon.c:65-101 | the effects are those of the checksum function |
| RescueCommon.ReceiveChunk | Features/Intel/Debugging/EarlySpiFlashRescueFeaturePkg/FlashRescueBoardPei/FlashRescueBoardCommon.c:141-146 | one chunk read into BlockData at the XferBlock offset, then its ACK, advances the chunk loop by one step |
| RescueCommon.ReceiveBlock | Features/Intel/Debugging/EarlySpiFlashRescueFeaturePkg/FlashRescueBoardPei/FlashRescueBoardCommon.c:134-147 | the in-place loop over BlockData leaves the buffer and the port as the chunk-loop function says |
| RescueCommon.WriteBlock | Features/Intel/Debugging/EarlySpiFlashRescueFeaturePkg/FlashRescueBoardPei/FlashRescueBoardCommon.c:109-167 | the effects are those of the WRITE function |
| RescueCommon.DispatchCommand | Features/Intel/Debugging/EarlySpiFlashRescueFeaturePkg/FlashRescueBoardPei/FlashRescueBoardCommon.c:206-223 | the switch's effects and its NoUserspaceExit update are those of the dispatch function |
| RescueCommon.ServeOnce | Features/Intel/Debugging/EarlySpiFlashRescueFeaturePkg/FlashRescueBoardPei/FlashRescueBoardCommon.c:200-228 | one pass of the while body reads the clock and never grows the input; LastServicedTimeNs changes only when a packet was consumed |
| RescueCommon.PerformFlash | Features/Intel/Debugging/EarlySpiFlashRescueFeaturePkg/FlashRescueBoardPei/FlashRescueBoardCommon.c:178-237 | the while loop's status and effects are those of the command-loop function |
| RescuePeiSpec.SecondEntryServes | Features/Intel/Debugging/EarlySpiFlashRescueFeaturePkg/FlashRescueBoardPei/FlashRescueBoardPei.c:134-145 | with the marker PPI installed, the entry point runs PerformFlash and returns SUCCESS whatever it returned |
| RescuePeiSpec.FirstEntryWithoutHost | Features/Intel/Debugging/EarlySpiFlashRescueFeaturePkg/FlashRescueBoardPei/FlashRescueBoardPei.c:150-156 | without an ACK the result is SUCCESS; only the serial port was used, with no debug-level change, allocation, relocation or marker |
| RescuePeiSpec.FirstEntryWithHost | Features/Intel/Debugging/EarlySpiFlashRescueFeaturePkg/FlashRescueBoardPei/FlashRescueBoardPei.c:164-231 | after an ACK the debug level is 0; no pages gives OUT_OF_RESOURCES and no marker; otherwise the marker (NULL interface) goes in before the copy runs, then SpiServiceInit, then the allocated page count is freed, and the result is SUCCESS |
| RescuePeiSpec.FirstEntryHandsOver | Features/Intel/Debugging/EarlySpiFlashRescueFeaturePkg/FlashRescueBoardPei/FlashRescueBoardPei.c:200-231 | the relocated entry point takes the second-entry branch; SPI re-initialisation and FreePages follow it |
| RescuePeiSpec.HelloKeepsPei | Features/Intel/Debugging/EarlySpiFlashRescueFeaturePkg/FlashRescueBoardPei/FlashRescueBoardPei.c:153 | the handshake leaves PPIs, PEI trail and debug level untouched |
| RescuePeiSpec.EntryPointPpis | Features/Intel/Debugging/EarlySpiFlashRescueFeaturePkg/FlashRescueBoardPei/FlashRescueBoardPei.c:119-232 | the entry point returns SUCCESS or OUT_OF_RESOURCES; the only PPI it adds is the marker, and it removes none |
| RescuePei.PrepareCopy | Features/Intel/Debugging/EarlySpiFlashRescueFeaturePkg/FlashRescueBoardPei/FlashRescueBoardPei.c:164-195 | debug level 0, the section and image lookups, and an allocation of EFI_SIZE_TO_PAGES((UINT32)ImageSize) pages |
| RescuePei.HandOver | Features/Intel/Debugging/EarlySpiFlashRescueFeaturePkg/FlashRescueBoardPei/FlashRescueBoardPei.c:200-216 | load and relocate at PeimCopy, install the marker with a NULL interface, then call the copy's entry point |
| RescuePei.FlashRescueBoardPeiEntryPoint | Features/Intel/Debugging/EarlySpiFlashRescueFeaturePkg/FlashRescueBoardPei/FlashRescueBoardPei.c:119-232 | the status and effects are those of the entry-point function, the relocated call included |
| JunoRepository.Length | Platform/ARM/JunoPkg/ConfigurationManager/ConfigurationManagerDxe/ConfigurationManager.c:37-121 | every repository array is non-empty; the ACPI table list field holds the whole generator list |
| JunoRepository.DescribedTables | Platform/ARM/JunoPkg/ConfigurationManager/ConfigurationManagerDxe/ConfigurationManager.c:1586-1601 | a descriptor of the table list names exactly Count generators |
| JunoHandlers.HandleCmObject | Platform/ARM/JunoPkg/ConfigurationManager/ConfigurationManagerDxe/ConfigurationManager.c:780-801 | the descriptor carries the object ID, data pointer, size and count given, and is well formed (`Describes`) exactly when the pointer is NULL with a zero count, or addresses `count` ≥ 1 elements that all lie inside one field with the size of `count` such elements; a pointer outside the repository never yields a well-formed descriptor |
| JunoHandlers.FindElementByToken | Platform/ARM/JunoPkg/ConfigurationManager/ConfigurationManagerDxe/ConfigurationManager.c:1175-1453 | the for-loop shared by the six element searches finds the element whose address is the token, as the element-search function says |
| JunoHandlers.ElementSearchFinds | Platform/ARM/JunoPkg/ConfigurationManager/ConfigurationManagerDxe/ConfigurationManager.c:1175-1207 | SUCCESS exactly when the token is the address of an element; then Count = 1 of that element; otherwise NOT_FOUND with the descriptor untouched |
| JunoHandlers.TimerFrameSearch | Platform/ARM/JunoPkg/ConfigurationManager/ConfigurationManagerDxe/ConfigurationManager.c:1131-1158 | the GT block's timer-frame token yields the whole frame array; any other is NOT_FOUND; NULL arguments are INVALID_PARAMETER |
| JunoHandlers.ObjRefSearch | Platform/ARM/JunoPkg/ConfigurationManager/ConfigurationManagerDxe/ConfigurationManager.c:1471-1538 | GetCmObjRefs succeeds exactly for the token of a reference list |
| JunoHandlers.RunHandler | Platform/ARM/JunoPkg/ConfigurationManager/ConfigurationManagerDxe/ConfigurationManager.c:1131-1538 | every token handler rejects NULL This or descriptor and leaves the descriptor untouched on failure |
| JunoHandlers.HandleCmObjectRefByToken | Platform/ARM/JunoPkg/ConfigurationManager/ConfigurationManagerDxe/ConfigurationManager.c:824-856 | CM_NULL_TOKEN returns the whole array; the object ID is always the one asked for |
| JunoHandlers.HandleCmObjectSearchPlatformRepo | Platform/ARM/JunoPkg/ConfigurationManager/ConfigurationManagerDxe/ConfigurationManager.c:877-907 | CM_NULL_TOKEN is INVALID_PARAMETER; the object ID is always the one asked for |
| JunoHandlers.HandlersDescribe | Platform/ARM/JunoPkg/ConfigurationManager/ConfigurationManagerDxe/ConfigurationManager.c:1131-1538 | a successful handler's descriptor addresses repository elements, starting at the token |
| JunoDispatch.WholeField | Platform/ARM/JunoPkg/ConfigurationManager/ConfigurationManagerDxe/ConfigurationManager.c:780-801 | a whole-array descriptor starts at element 0 and counts every element |
| JunoDispatch.AcpiTableCount | Platform/ARM/JunoPkg/ConfigurationManager/ConfigurationManagerDxe/ConfigurationManager.c:1586-1601 | the reported table count never exceeds the list |
| JunoDispatch.GetStandardNameSpaceObject | Platform/ARM/JunoPkg/ConfigurationManager/ConfigurationManagerDxe/ConfigurationManager.c:1555-1617 | NULL This or CmObject gives INVALID_PARAMETER |
| JunoDispatch.GetArchCommonNameSpaceObject | Platform/ARM/JunoPkg/ConfigurationManager/ConfigurationManagerDxe/ConfigurationManager.c:1635-1808 | NULL This or CmObject gives INVALID_PARAMETER |
| JunoDispatch.GetArmNameSpaceObject | Platform/ARM/JunoPkg/ConfigurationManager/ConfigurationManagerDxe/ConfigurationManager.c:1825-1956 | NULL This or CmObject gives INVALID_PARAMETER |
| JunoDispatch.GetOemNameSpaceObject | Platform/ARM/JunoPkg/ConfigurationManager/ConfigurationManagerDxe/ConfigurationManager.c:1973-2003 | every OEM object is NOT_FOUND (INVALID_PARAMETER for NULL arguments) |
| JunoDispatch.SetObject | Platform/ARM/JunoPkg/ConfigurationManager/ConfigurationManagerDxe/ConfigurationManager.c:2080-2088 | always UNSUPPORTED |
| JunoDispatch.GetObjectRejectsNull | Platform/ARM/JunoPkg/ConfigurationManager/ConfigurationManagerDxe/ConfigurationManager.c:2031-2035 | a NULL This or CmObject is INVALID_PARAMETER from the top-level getter |
| JunoDispatch.UnknownObjects | Platform/ARM/JunoPkg/ConfigurationManager/ConfigurationManagerDxe/ConfigurationManager.c:2050-2058 | an unknown namespace is INVALID_PARAMETER; an unserved object of a known namespace, OEM included, is NOT_FOUND |
| JunoDispatch.AcpiTableListByRevision | Platform/ARM/JunoPkg/ConfigurationManager/ConfigurationManagerDxe/ConfigurationManager.c:1586-1601 | the table list reports 11 entries, or 9 on R0 without MCFG and SSDT-PCI, with Size = Count × entry size |
| JunoDispatch.R0HasNoPciNorGTBlock | Platform/ARM/JunoPkg/ConfigurationManager/ConfigurationManagerDxe/ConfigurationManager.c:1695-1707 | on R0 the PCI config-space info, GT block info and GT timer frames are NOT_FOUND |
| JunoDispatch.LaterRevisionsHavePci | Platform/ARM/JunoPkg/ConfigurationManager/ConfigurationManagerDxe/ConfigurationManager.c:1695-1703 | on R1 and R2 the PCI config-space info is SUCCESS with a well-formed descriptor of the whole PciConfigInfo array, for any token |
| JunoDispatch.LaterRevisionsHaveGTBlock | Platform/ARM/JunoPkg/ConfigurationManager/ConfigurationManagerDxe/ConfigurationManager.c:1875-1907 | on R1 and R2 the GT block info is SUCCESS with the whole GTBlockInfo array for any token; the GT block timer frames are SUCCESS with the whole two-frame array for CM_NULL_TOKEN or the array's own token, and NOT_FOUND for any other token |
| JunoDispatch.NullTokenLookups | Platform/ARM/JunoPkg/ConfigurationManager/ConfigurationManagerDxe/ConfigurationManager.c:1736-1747 | CM_NULL_TOKEN returns the whole array; for LPI info the empty descriptor; for CmRef INVALID_PARAMETER |
| JunoDispatch.TokenLookupFindsElement | Platform/ARM/JunoPkg/ConfigurationManager/ConfigurationManagerDxe/ConfigurationManager.c:1196-1206 | a non-null token returns Count = 1 of the matching element, or NOT_FOUND when none matches |
| JunoDispatch.GetObjectSound | Platform/ARM/JunoPkg/ConfigurationManager/ConfigurationManagerDxe/ConfigurationManager.c:2022-2063 | a successful lookup describes repository elements under the object ID asked for; a failed one leaves the descriptor's contents alone |
| JunoDispatch.ArchCommonSound | Platform/ARM/JunoPkg/ConfigurationManager/ConfigurationManagerDxe/ConfigurationManager.c:1635-1808 | the same soundness for the Arch Common namespace |
| JunoDispatch.ArmSound | Platform/ARM/JunoPkg/ConfigurationManager/ConfigurationManagerDxe/ConfigurationManager.c:1825-1956 | the same soundness for the Arm namespace |
| JunoCpcSpec.LinkCpc | Platform/ARM/JunoPkg/ConfigurationManager/ConfigurationManagerDxe/ConfigurationManager.c:1022-1030 | pointing the domain's cores at its CpcInfo keeps the GicC table's length |
| JunoCpcSpec.UnlinkCpc | Platform/ARM/JunoPkg/ConfigurationManager/ConfigurationManagerDxe/ConfigurationManager.c:929-934 | clearing every CpcToken keeps the GicC table's length |
| JunoCpcSpec.ClearCpcSpec | Platform/ARM/JunoPkg/ConfigurationManager/ConfigurationManagerDxe/ConfigurationManager.c:921-937 | ClearCpcInfo keeps the repository's shape |
| JunoCpcSpec.PopulateCpcInfoSpec | Platform/ARM/JunoPkg/ConfigurationManager/ConfigurationManagerDxe/ConfigurationManager.c:952-1044 | PopulateCpcInfo keeps the shape and the revision |
| JunoCpcSpec.PopulateFrom | Platform/ARM/JunoPkg/ConfigurationManager/ConfigurationManagerDxe/ConfigurationManager.c:1062-1070 | the domain loop keeps the shape and the revision |
| JunoCpcSpec.CpcTokens | Platform/ARM/JunoPkg/ConfigurationManager/ConfigurationManagerDxe/ConfigurationManager.c:929-934 | one CpcToken per GicC entry |
| JunoCpcSpec.PsdTokens | Platform/ARM/JunoPkg/ConfigurationManager/ConfigurationManagerDxe/ConfigurationManager.c:992-1012 | one PsdToken per GicC entry |
| JunoCpcSpec.PopulateCpcInfoOutcome | Platform/ARM/JunoPkg/ConfigurationManager/ConfigurationManagerDxe/ConfigurationManager.c:961-1044 | an unknown domain is INVALID_PARAMETER and changes nothing; an error exactly when the domain's SCMI reads fail or give back the default scale, the latter being UNSUPPORTED; failure leaves the CpcTokens; PsdTokens never change; success points GicC 0–1 (big) or 2–5 (little) at that CpcInfo, with the fixed frequencies and cleared counters |
| JunoCpcSpec.PopulateAllOrNothing | Platform/ARM/JunoPkg/ConfigurationManager/ConfigurationManagerDxe/ConfigurationManager.c:1062-1075 | afterwards either all six CpcTokens are linked and both domains succeeded, or all six are CM_NULL_TOKEN; the loop stops at the first failure |
| JunoCpcSpec.InitializeGated | Platform/ARM/JunoPkg/ConfigurationManager/ConfigurationManagerDxe/ConfigurationManager.c:1109-1112 | CPC population runs exactly on Juno R2 with relaxation bit 0 set |
| JunoCpcSpec.DomainsAgreeWithPsd | Platform/ARM/JunoPkg/ConfigurationManager/ConfigurationManagerDxe/ConfigurationManager.c:992-1012 | a core is in a domain exactly when its PsdToken names that domain's PSD info |
| JunoCpcSpec.LinkedTokensResolve | Platform/ARM/JunoPkg/ConfigurationManager/ConfigurationManagerDxe/ConfigurationManager.c:1421-1453 | after a full population every core's CpcToken resolves, through GetObject, to one CpcInfo element |
| JunoCpc.PlatformRepository.constructor | Platform/ARM/JunoPkg/ConfigurationManager/ConfigurationManagerDxe/ConfigurationManager.c:32-764 | the repository as initialised: six GicC entries with CM_NULL_TOKEN CpcTokens, two zeroed CpcInfo entries, revision R0 until InitializePlatformRepository records it |
| JunoCpc.PlatformRepository.ClearCpcInfo | Platform/ARM/JunoPkg/ConfigurationManager/ConfigurationManagerDxe/ConfigurationManager.c:921-937 | the loop sets every GicCInfo CpcToken to CM_NULL_TOKEN in place and returns SUCCESS |
| JunoCpc.PlatformRepository.PopulateCpcInfo | Platform/ARM/JunoPkg/ConfigurationManager/ConfigurationManagerDxe/ConfigurationManager.c:952-1044 | the in-place updates of CpcInfo and GicCInfo are those of the population function |
| JunoCpc.PlatformRepository.PopulateCpcObjects | Platform/ARM/JunoPkg/ConfigurationManager/ConfigurationManagerDxe/ConfigurationManager.c:1053-1076 | the loop with its CpcFailed flag is the domain loop plus the final clear |
| JunoCpc.PlatformRepository.InitializePlatformRepository | Platform/ARM/JunoPkg/ConfigurationManager/ConfigurationManagerDxe/ConfigurationManager.c:1087-1115 | records the revision, populates CPC when allowed, returns SUCCESS |
| AspireDetect.EcWrite | Platform/Intel/KabylakeOpenBoardPkg/AspireVn7Dash572G/Library/BoardInitLib/PeiAspireVn7Dash572GDetect.c:71-73 | 0xFF, then the register, then the value go out on the index ports |
| AspireDetect.EcRead | Platform/Intel/KabylakeOpenBoardPkg/AspireVn7Dash572G/Library/BoardInitLib/PeiAspireVn7Dash572GDetect.c:66-68 | 0xFF and the register go out, then the register's value comes in |
| AspireDetect.StartAdcSample | Platform/Intel/KabylakeOpenBoardPkg/AspireVn7Dash572G/Library/BoardInitLib/PeiAspireVn7Dash572GDetect.c:65-78 | saves ADDAEN, enables the channel, starts the conversion |
| AspireDetect.ReadEcAdcConverter | Platform/Intel/KabylakeOpenBoardPkg/AspireVn7Dash572G/Library/BoardInitLib/PeiAspireVn7Dash572GDetect.c:57-95 | always SUCCESS; the value and the EC afterwards are those of the ADC-read functions |
| AspireDetect.ReadEcAdcOutcome | Platform/Intel/KabylakeOpenBoardPkg/AspireVn7Dash572G/Library/BoardInitLib/PeiAspireVn7Dash572GDetect.c:66-92 | ADDAEN ends as it began; only ADCTRL, ADCDAT and ECIF change; the value is (ADCDAT << 2) \| (ECIF & 0xC0); the port log is the fixed 18-access sequence |
| AspireDetect.ChannelRegisters | Platform/Intel/KabylakeOpenBoardPkg/AspireVn7Dash572G/Library/BoardInitLib/PeiAspireVn7Dash572GDetect.c:71-78 | the enable write is old \| ((1 << Adc) & 0xF) and the control write ((Adc << 1) & 0xF) \| 1: 0x08/0x07 for MODEL_ID, 0x02/0x03 for PCB_VER |
| AspireDetect.AdcValueTenBits | Platform/Intel/KabylakeOpenBoardPkg/AspireVn7Dash572G/Library/BoardInitLib/PeiAspireVn7Dash572GDetect.c:81-87 | the composed value is at most 0x3FF |
| AspireDetect.AdcValueCollides | Platform/Intel/KabylakeOpenBoardPkg/AspireVn7Dash572G/Library/BoardInitLib/PeiAspireVn7Dash572GDetect.c:87 | the ECIF bits land on ADCDAT's bits 4–5 (the inputs of the first finding) |
| AspireDetect.IntendedAdcValueSeparates | Platform/Intel/KabylakeOpenBoardPkg/AspireVn7Dash572G/Library/BoardInitLib/PeiAspireVn7Dash572GDetect.c:84-87 | the intended value keeps ADCDAT in bits 9:2 and ECIF bits 7:6 in bits 1:0 |
| AspireDetect.CollisionChangesClassification | Platform/Intel/KabylakeOpenBoardPkg/AspireVn7Dash572G/Library/BoardInitLib/PeiAspireVn7Dash572GDetect.c:87-124 | the two compositions can classify the same registers differently |
| AspireDetect.ClassifyThresholds | Platform/Intel/KabylakeOpenBoardPkg/AspireVn7Dash572G/Library/BoardInitLib/PeiAspireVn7Dash572GDetect.c:44-124 | with the granularity 3005/1023 = 2: reserved iff ≤ 687, Newgate if ≤ 1008, Rayleigh above |
| AspireDetect.GetAspireVn7Dash572GBoardId | Platform/Intel/KabylakeOpenBoardPkg/AspireVn7Dash572G/Library/BoardInitLib/PeiAspireVn7Dash572GDetect.c:108-133 | returns the PCB-version read's status (SUCCESS); the board id and EC afterwards are those of the board-id functions |
| AspireDetect.GetBoardIdOutcome | Platform/Intel/KabylakeOpenBoardPkg/AspireVn7Dash572G/Library/BoardInitLib/PeiAspireVn7Dash572GDetect.c:115-132 | *BoardId is written only for a non-reserved model-ID reading; both channels are read, model ID first |
| AspireDetect.AspireVn7Dash572GBoardDetect | Platform/Intel/KabylakeOpenBoardPkg/AspireVn7Dash572G/Library/BoardInitLib/PeiAspireVn7Dash572GDetect.c:137-161 | always SUCCESS; the SKU and EC afterwards are those of the detection functions |
| AspireDetect.BoardDetectOutcome | Platform/Intel/KabylakeOpenBoardPkg/AspireVn7Dash572G/Library/BoardInitLib/PeiAspireVn7Dash572GDetect.c:143-160 | a nonzero SKU is left alone with no EC access; the SKU only ever becomes Rayleigh or Newgate; a reserved reading falls back on BoardId's prior contents |
| AspireDetect.StaleBoardIdDecidesSku | Platform/Intel/KabylakeOpenBoardPkg/AspireVn7Dash572G/Library/BoardInitLib/PeiAspireVn7Dash572GDetect.c:141-150 | a reserved reading plus a stack byte equal to the Rayleigh code sets the Rayleigh SKU (the inputs of the second finding) |
| AspireDetect.IntendedDetectIgnoresStaleId | Platform/Intel/KabylakeOpenBoardPkg/AspireVn7Dash572G/Library/BoardInitLib/PeiAspireVn7Dash572GDetect.c:141-160 | the intended detection agrees with the code whenever the reading is not reserved, and otherwise leaves the SKU unchanged |
| AspireDxeSpec.TimeData | Platform/Intel/KabylakeOpenBoardPkg/AspireVn7Dash572G/Library/BoardInitLib/DxeBoardInitLib.c:55-60 | the i-th data byte sent is byte i of the time word |
| AspireDxeSpec.EcTimeIsYearAndFields | Platform/Intel/KabylakeOpenBoardPkg/AspireVn7Dash572G/Library/BoardInitLib/DxeBoardInitLib.c:48-51 | taken modulo 2^32, the word is ((Year − 2000) mod 64)·2^26 plus the packed month, day, hour, minute and second |
| AspireDxeSpec.EcTimeFields | Platform/Intel/KabylakeOpenBoardPkg/AspireVn7Dash572G/Library/BoardInitLib/DxeBoardInitLib.c:48-51 | each field of EFI_TIME can be read back from its bit range of the word |
| AspireDxeSpec.EcTimeNegative | Platform/Intel/KabylakeOpenBoardPkg/AspireVn7Dash572G/Library/BoardInitLib/DxeBoardInitLib.c:33-34 | the INT32 word is negative exactly when (Year − 2000) mod 64 ≥ 32 |
| AspireDxeSpec.ByteWeight | Platform/Intel/KabylakeOpenBoardPkg/AspireVn7Dash572G/Library/BoardInitLib/DxeBoardInitLib.c:55-60 | the weight of byte `index` of the word, the value of the shift by index·8: 1, 0x100, 0x1_0000 or 0x100_0000 |
| AspireDxeSpec.TimeBytesRecompose | Platform/Intel/KabylakeOpenBoardPkg/AspireVn7Dash572G/Library/BoardInitLib/DxeBoardInitLib.c:55-60 | the four bytes, least significant first, recompose the word |
| AspireDxeSpec.SendTimeShape | Platform/Intel/KabylakeOpenBoardPkg/AspireVn7Dash572G/Library/BoardInitLib/DxeBoardInitLib.c:41-62 | a failed GetTime sends nothing; otherwise command 0xE0, exactly 4 data bytes LSB first, then one receive |
| AspireDxeSpec.RequestsTimeSendsIff | Platform/Intel/KabylakeOpenBoardPkg/AspireVn7Dash572G/Library/BoardInitLib/DxeBoardInitLib.c:86-89 | EC RAM 0x79 is read with command 0x90, and the time goes out exactly when its bit 0 is set and GetTime works |
| AspireDxeSpec.ResetHookTraffic | Platform/Intel/KabylakeOpenBoardPkg/AspireVn7Dash572G/Library/BoardInitLib/DxeBoardInitLib.c:125-131 | a shutdown writes 7 to EC 0x76 twice; every other reset type causes no EC traffic |
| AspireDxeSpec.ResetHookLifecycle | Platform/Intel/KabylakeOpenBoardPkg/AspireVn7Dash572G/Library/BoardInitLib/DxeBoardInitLib.c:155-205 | the hook is registered only when the protocol was located, and unregistered only when mResetNotify is non-NULL |
| AspireDxe.DxeBoard.EcSendTime | Platform/Intel/KabylakeOpenBoardPkg/AspireVn7Dash572G/Library/BoardInitLib/DxeBoardInitLib.c:27-68 | the for-loop's EC traffic is that of the send-time function |
| AspireDxe.DxeBoard.EcRequestsTime | Platform/Intel/KabylakeOpenBoardPkg/AspireVn7Dash572G/Library/BoardInitLib/DxeBoardInitLib.c:76-92 | the effects are those of the time-request function |
| AspireDxe.DxeBoard.EcResetSystemHook | Platform/Intel/KabylakeOpenBoardPkg/AspireVn7Dash572G/Library/BoardInitLib/DxeBoardInitLib.c:112-132 | the effects are those of the reset-hook function |
| AspireDxe.DxeBoard.BoardInitAfterPciEnumeration | Platform/Intel/KabylakeOpenBoardPkg/AspireVn7Dash572G/Library/BoardInitLib/DxeBoardInitLib.c:142-164 | returns SUCCESS; time request, then locate and register |
| AspireDxe.DxeBoard.BoardInitEndOfFirmware | Platform/Intel/KabylakeOpenBoardPkg/AspireVn7Dash572G/Library/BoardInitLib/DxeBoardInitLib.c:189-206 | returns SUCCESS; unregisters only with mResetNotify set |
| TplSpec.InertAfterExit | Platform/Intel/KabylakeOpenBoardPkg/Library/I2cHdmiDebugSerialPortLib/I2cDebugPortTplRuntimeDxe.c:47-49 | after exit-boot-services, or with gBS NULL, Raise and Restore change nothing |
| TplSpec.EventCreatedAtMostOnce | Platform/Intel/KabylakeOpenBoardPkg/Library/I2cHdmiDebugSerialPortLib/I2cDebugPortTplRuntimeDxe.c:59-68 | the exit-boot-services event is created at most once, and only while mEvent is NULL |
| TplSpec.RaiseRecordsOnlyBelowNotify | Platform/Intel/KabylakeOpenBoardPkg/Library/I2cHdmiDebugSerialPortLib/I2cDebugPortTplRuntimeDxe.c:70-72 | below TPL_NOTIFY, Raise saves the TPL and raises to NOTIFY; at NOTIFY or above, mPreviousTpl and the TPL stay |
| TplSpec.RestoreIdempotent | Platform/Intel/KabylakeOpenBoardPkg/Library/I2cHdmiDebugSerialPortLib/I2cDebugPortTplRuntimeDxe.c:89-92 | Restore clears mPreviousTpl, so a second Restore does nothing |
| TplSpec.RaiseRestoreRoundTrip | Platform/Intel/KabylakeOpenBoardPkg/Library/I2cHdmiDebugSerialPortLib/I2cDebugPortTplRuntimeDxe.c:70-92 | Raise then Restore, from a TPL below NOTIFY, returns to that TPL |
| TplSpec.NestedRestoreReturnsEarly | Platform/Intel/KabylakeOpenBoardPkg/Library/I2cHdmiDebugSerialPortLib/I2cDebugPortTplRuntimeDxe.c:70-92 | a nested Raise saves nothing, so the first Restore already drops to the original TPL |
| Tpl.TplGuard.constructor | Platform/Intel/KabylakeOpenBoardPkg/Library/I2cHdmiDebugSerialPortLib/I2cDebugPortTplRuntimeDxe.c:14-16 | the statics start at 0, NULL and 0 |
| Tpl.TplGuard.OnExitBootServices | Platform/Intel/KabylakeOpenBoardPkg/Library/I2cHdmiDebugSerialPortLib/I2cDebugPortTplRuntimeDxe.c:27-35 | sets mEndOfBootServices and closes the event |
| Tpl.TplGuard.RaiseTplForI2cDebugPortAccess | Platform/Intel/KabylakeOpenBoardPkg/Library/I2cHdmiDebugSerialPortLib/I2cDebugPortTplRuntimeDxe.c:42-73 | the statics and TPL afterwards are those of the raise function |
| Tpl.TplGuard.RestoreTplAfterI2cDebugPortAccess | Platform/Intel/KabylakeOpenBoardPkg/Library/I2cHdmiDebugSerialPortLib/I2cDebugPortTplRuntimeDxe.c:81-93 | the statics and TPL afterwards are those of the restore function |
| BoardConfigHii.CallbackCheckOrder | Platform/Intel/KabylakeOpenBoardPkg/AspireVn7Dash572G/Library/BoardInitLib/DxeBoardConfigHii.c:231-237 | NULL Value or ActionRequest is INVALID_PARAMETER, then any action but CHANGED is UNSUPPORTED; neither touches the request |
| BoardConfigHii.CallbackAnswers | Platform/Intel/KabylakeOpenBoardPkg/AspireVn7Dash572G/Library/BoardInitLib/DxeBoardConfigHii.c:239-245 | SAVE_EXIT requests FORM_SUBMIT_EXIT, DISCARD_EXIT requests FORM_DISCARD_EXIT, other questions leave the request; all SUCCESS |
| BoardConfigHii.ExtractCheckOrder | Platform/Intel/KabylakeOpenBoardPkg/AspireVn7Dash572G/Library/BoardInitLib/DxeBoardConfigHii.c:90-126 | NULL Progress or Results is rejected before anything is written; *Progress is then Request; a header mismatch is NOT_FOUND, but a NULL Request skips the check; a missing variable is NOT_FOUND; otherwise BlockToConfig's status |
| BoardConfigHii.RouteCheckOrder | Platform/Intel/KabylakeOpenBoardPkg/AspireVn7Dash572G/Library/BoardInitLib/DxeBoardConfigHii.c:157-200 | NULL arguments are INVALID_PARAMETER and a header mismatch NOT_FOUND, changing nothing; past the variable read, SetVariable is called whatever ConfigToBlock returned, and its status is the result |
| BoardConfigHii.SetToDefaultsOutcome | Platform/Intel/KabylakeOpenBoardPkg/AspireVn7Dash572G/Library/BoardInitLib/DxeBoardConfigHii.c:165-200 | resetting to defaults goes through this form's RouteConfig: it reports TRUE exactly when the variable exists and SetVariable succeeds, the defaults are then stored, and otherwise the variable is unchanged |
| BoardConfigHii.InstallVariableLifecycle | Platform/Intel/KabylakeOpenBoardPkg/AspireVn7Dash572G/Library/BoardInitLib/DxeBoardConfigHii.c:270-334 | the form is always published; an absent variable is created zero-filled and reset to defaults, and stays absent when SetVariable fails; a present one is validated and reset to defaults only when validation fails, which takes effect only when SetVariable succeeds; the exact sequence of store calls in each case |
| BoardConfigHii.BoardConfigDriver.HiiSetToDefaults | Platform/Intel/KabylakeOpenBoardPkg/AspireVn7Dash572G/Library/BoardInitLib/DxeBoardConfigHii.c:319 | the flag and the variable store afterwards are those of the reset-to-defaults function |
| BoardConfigHii.BoardConfigDriver.BoardConfigExtractConfig | Platform/Intel/KabylakeOpenBoardPkg/AspireVn7Dash572G/Library/BoardInitLib/DxeBoardConfigHii.c:79-127 | status, *Progress and *Results are those of the extract function |
| BoardConfigHii.BoardConfigDriver.BoardConfigRouteConfig | Platform/Intel/KabylakeOpenBoardPkg/AspireVn7Dash572G/Library/BoardInitLib/DxeBoardConfigHii.c:147-201 | status, *Progress and the variable store are those of the route function |
| BoardConfigHii.BoardConfigDriver.InstallBoardConfigHiiForm | Platform/Intel/KabylakeOpenBoardPkg/AspireVn7Dash572G/Library/BoardInitLib/DxeBoardConfigHii.c:254-339 | the protocols, packages and variable store afterwards are those of the install function |

## Left out

- RescueCommonSpec.HelloAttempts: counts the passes of the HELLO loop with an unbounded counter. TimeCounter is UINTN. On a 32-bit build with PcdUserspaceHostWaitTimeout above 4294967250, `TimeCounter += 250` wraps past 2^32 before it reaches the timeout. Because gcd(250, 2^32) = 2, the wrapped counter eventually takes every even value. So a timeout from 4294967251 to 4294967294 still ends in EFI_TIMEOUT, but only after up to about 2^31 passes. Only 0xFFFFFFFF is never reached, and then the loop ends only on an ACK. The model covers a 64-bit build, or any timeout up to 4294967250.
- RescueCommonSpec.ReceiveChunks, RescueCommonSpec.WriteBlockSpec and RescueCommonSpec.DispatchSpec, together with the session and entry-point functions and methods above them, require `ValidChunk(PcdDataXferPacketSize)`: the PCD is positive and divides 4096. The source never checks this (FlashRescueBoardCommon.c:19 reads the PCD as is). With 0, the chunk loop at lines 135-147 never ends. With a size that does not divide 4096, the last `SerialPortRead` writes past the end of the 4096-byte `BlockData` buffer. Neither case is modelled.
- FlushBiosHack is treated as doing nothing. It only reads volatile memory to work around a cache hazard.
- Time delays are not modelled. This covers MicroSecondDelay, the 3-second wait before HELLO and the per-chunk 33 ms stall.
  - The clock is a strictly increasing function of the number of readings.
  - The 64-bit nanosecond counter is unbounded, so its wrap-around is not modelled.
- SerialPortLib is not part of this model. Its read is modelled as non-blocking:
  - it delivers what has arrived, up to the size asked for;
  - the bytes it does not deliver keep the buffer's previous, stale contents, which are an input.
  - This is what lets a handshake with no host attached time out.
- CalculateCrc32 is the standard reflected CRC-32 (polynomial 0xEDB88320), written out in `crc32.dfy`. No property of it is proved beyond how it splits over concatenated data.
- The internals of PE/COFF loading, the FFS section search and page allocation are outside the model. These calls are recorded as events in a PEI trail, and their results are inputs.
  - Statuses checked only by ASSERT are not modelled.
  - PeimEntryPoint is the entry point called recursively on the state after hand-over.
- The status of PerformFlash is dropped on the second entry, as the source does. ASSERT_EFI_ERROR is not modelled.
- DynamicTablesScmiInfoGetFastChannel and GetJunoRevision are inputs.
  - The bulk contents of the Juno repository initializer are left out; array lengths and element identities are kept.
  - Object sizes are symbolic: SizeOf(count, field).
  - CM_OBJECT_ID bit encoding is replaced by a datatype of namespaces and object IDs.
  - PopulateCpcInfo's check for a NULL repository is not modelled, because the repository always exists.
- The board-ID codes BoardIdNewgateSLx_dGPU and BoardIdRayleighSLx_dGPU are parameters, because their header is not shown. The SKU PCD is passed by value and returned.
- The EC index I/O model latches the selected channel into ADCDAT and ECIF when ADCTRL is written. The sampled values are an input.
- EcLib's SendEcCommand, SendEcData, ReceiveEcData, EcCmd90Read and EcCmd91Write are assumed to succeed.
  - Because of that, the uninitialised Dat after a failed EcCmd90Read is not modelled.
  - ReceiveEcData's byte is an input.
  - The bodies of both EcCommands.c files are not part of this model.
- AspireDxeSpec.EcTime: the C expression shifts UINT16 and UINT8 fields in `int` and stores the result in INT32. The model takes the sum minus 0x40000000 modulo 2^32 and does not model signed overflow as undefined.
- BoardInitReadyToBoot only returns EFI_SUCCESS, so it is not modelled.
- gBS->RaiseTPL and RestoreTPL are modelled without their own preconditions (no lowering by RaiseTPL, no raising by RestoreTPL). CloseEvent is a flag.
- The HII routing helpers are answers of a Services value. This covers BlockToConfig, ConfigToBlock, HiiIsConfigHdrMatch and HiiValidateSettings.
  - HiiSetToDefaults is modelled as the form browser handing the standard defaults to this form's RouteConfig: NOT_FOUND while the variable is absent, otherwise a SetVariable of the defaults. The browser's own ExtractConfig call and its parsing of the configuration strings are not modelled, so the defaults are assumed to be passed over whole.
  - GetVariable fails only with NOT_FOUND for a missing variable. Buffer-size and device errors are not modelled.
  - ConfigToBlock's update of DataSize is not modelled.
  - HiiAddPackages, InstallMultipleProtocolInterfaces and HiiConstructConfigHdr are assumed to succeed, as their ASSERTs say.
- UninstallBoardConfigHiiForm is not modelled, because it only undoes the installation.
- Helper methods split the source's straight-line code into named steps, without changing what it does: EcRead, EcWrite, StartAdcSample, ReceiveChunk, DispatchCommand, ServeOnce, PrepareCopy, HandOver, FindElementByToken.
- AspireDetect.AspireVn7Dash572GBoardDetect and AspireDetect.ReadEcAdcConverter keep the source's behaviour as written: the composition and the uninitialised BoardId of the two findings below. The corrected definitions are stated and proved beside them but do not replace them.

## Findings

| source | as written | input that shows it | evidently intended | confidence | as-written member | corrected member |
|---|---|---|---|---|---|---|
| Platform/Intel/KabylakeOpenBoardPkg/AspireVn7Dash572G/Library/BoardInitLib/PeiAspireVn7Dash572GDetect.c:87 | `*DataBuffer \|= ECIF & 0xc0` ORs ECIF bits 7:6 into bits 7:6 of the value, on top of ADCDAT bits 5:4 | ADCDAT = 0x30, ECIF = 0x00 and ADCDAT = 0x00, ECIF = 0xC0 both give 0xC0; ADCDAT = 0xAB, ECIF = 0xC0 classifies as Newgate instead of reserved | ECIF bits 7:6 become the two low bits of the 10-bit value: `(ECIF & 0xc0) >> 6` | not executed | AspireDetect.AdcValueCollides | AspireDetect.IntendedAdcValueSeparates |
| Platform/Intel/KabylakeOpenBoardPkg/AspireVn7Dash572G/Library/BoardInitLib/PeiAspireVn7Dash572GDetect.c:141-150 | BoardId is not initialised, and GetAspireVn7Dash572GBoardId leaves it alone for a reserved reading, so the stack byte is compared with the board codes | SKU 0, a model-ID reading ≤ 687, and a stack byte equal to the Rayleigh code set the Rayleigh SKU | a reserved reading leaves the SKU unset | not executed | AspireDetect.StaleBoardIdDecidesSku | AspireDetect.IntendedDetectIgnoresStaleId |
