// The configuration manager protocol's GetObject and SetObject for Juno:
// dispatch on the namespace, then on the object id, gated on the board
// revision.

module JunoDispatch {
  import opened Uefi
  import opened JunoRepository
  import opened JunoHandlers

  /** A descriptor of the whole of one repository field. */
  function WholeField(objectId: CmObjectId, f: Field): (d: CmObjDesc)
    ensures Describes(d) && d.objectId == objectId
    ensures d.data == At(f, 0) && d.count == Length(f)
  {
    HandleCmObject(objectId, At(f, 0), SizeOf(Length(f), f), Length(f))
  }

  /** The number of ACPI tables installed: the PCIe pair is dropped on R0. */
  function AcpiTableCount(rev: JunoRevision): (n: nat)
    ensures n <= |AcpiTableList|
  {
    if rev == JunoR0 then |AcpiTableList| - 2 else |AcpiTableList|
  }

  function ByToken(objectId: CmObjectId, f: Field, token: Addr, desc: CmObjDesc): Lookup {
    var r := HandleCmObjectRefByToken(objectId, At(f, 0), SizeOf(Length(f), f), Length(f),
                                      token, SearchElements(f), desc);
    (r.0, Some(r.1))
  }

  /** GetStandardNameSpaceObject. */
  function GetStandardNameSpaceObject(rev: JunoRevision, thisPresent: bool,
                                      cmObjectId: CmObjectId, obj: StdObjectId,
                                      token: Addr, desc: Option<CmObjDesc>): (r: Lookup)
    ensures !thisPresent || desc.None? ==> r == (InvalidParameter, desc)
  {
    if !thisPresent || desc.None? then (InvalidParameter, desc)
    else
      match obj
      case StdObjCfgMgrInfo => (Success, Some(WholeField(cmObjectId, CmInfo)))
      case StdObjAcpiTableList =>
        var tableCount := AcpiTableCount(rev);
        (Success, Some(HandleCmObject(cmObjectId, At(CmAcpiTableList, 0),
                                      SizeOf(tableCount, CmAcpiTableList), tableCount)))
      case OtherStdObj(_) => (NotFound, desc)
  }

  /** GetArchCommonNameSpaceObject. */
  function GetArchCommonNameSpaceObject(rev: JunoRevision, thisPresent: bool,
                                        cmObjectId: CmObjectId, obj: ArchCommonObjectId,
                                        token: Addr, desc: Option<CmObjDesc>): (r: Lookup)
    ensures !thisPresent || desc.None? ==> r == (InvalidParameter, desc)
  {
    if !thisPresent || desc.None? then (InvalidParameter, desc)
    else
      var d := desc.value;
      match obj
      case ArchCommonObjPowerManagementProfileInfo => (Success, Some(WholeField(cmObjectId, PmProfileInfo)))
      case ArchCommonObjConsolePortInfo => (Success, Some(WholeField(cmObjectId, SpcrSerialPort)))
      case ArchCommonObjSerialDebugPortInfo => (Success, Some(WholeField(cmObjectId, DbgSerialPort)))
      case ArchCommonObjCmRef =>
        var res := HandleCmObjectSearchPlatformRepo(cmObjectId, token, SearchObjRefs, d);
        (res.0, Some(res.1))
      case ArchCommonObjPciConfigSpaceInfo =>
        if rev != JunoR0 then (Success, Some(WholeField(cmObjectId, PciConfigInfo)))
        else (NotFound, desc)
      case ArchCommonObjPciAddressMapInfo => ByToken(cmObjectId, PciAddressMapInfo, token, d)
      case ArchCommonObjPciInterruptMapInfo => ByToken(cmObjectId, PciInterruptMapInfo, token, d)
      case ArchCommonObjLpiInfo =>
        var res := HandleCmObjectRefByToken(cmObjectId, Null, SizeOf(0, LpiInfo), 0,
                                            token, SearchElements(LpiInfo), d);
        (res.0, Some(res.1))
      case ArchCommonObjProcHierarchyInfo => (Success, Some(WholeField(cmObjectId, ProcHierarchyInfo)))
      case ArchCommonObjCacheInfo => (Success, Some(WholeField(cmObjectId, CacheInfo)))
      case ArchCommonObjCpcInfo => ByToken(cmObjectId, CpcInfo, token, d)
      case ArchCommonObjPsdInfo => ByToken(cmObjectId, PsdInfo, token, d)
      case OtherArchCommonObj(_) => (NotFound, desc)
  }

  /** GetArmNameSpaceObject. */
  function GetArmNameSpaceObject(rev: JunoRevision, thisPresent: bool,
                                 cmObjectId: CmObjectId, obj: ArmObjectId,
                                 token: Addr, desc: Option<CmObjDesc>): (r: Lookup)
    ensures !thisPresent || desc.None? ==> r == (InvalidParameter, desc)
  {
    if !thisPresent || desc.None? then (InvalidParameter, desc)
    else
      var d := desc.value;
      match obj
      case ArmObjBootArchInfo => (Success, Some(WholeField(cmObjectId, BootArchInfo)))
      case ArmObjGenericTimerInfo => (Success, Some(WholeField(cmObjectId, GenericTimerInfo)))
      case ArmObjPlatformGenericWatchdogInfo => (Success, Some(WholeField(cmObjectId, Watchdog)))
      case ArmObjPlatformGTBlockInfo =>
        // Memory-mapped platform timers are disabled on R0 (Juno erratum 832219).
        if rev == JunoR0 then (NotFound, desc)
        else (Success, Some(WholeField(cmObjectId, GTBlockInfo)))
      case ArmObjGTBlockTimerFrameInfo =>
        if rev == JunoR0 then (NotFound, desc)
        else
          var res := HandleCmObjectRefByToken(cmObjectId, At(GTBlock0TimerInfo, 0),
                                              SizeOf(Length(GTBlock0TimerInfo), GTBlock0TimerInfo),
                                              Length(GTBlock0TimerInfo), token, SearchTimerFrames, d);
          (res.0, Some(res.1))
      case ArmObjGicCInfo => ByToken(cmObjectId, GicCInfo, token, d)
      case ArmObjGicDInfo => (Success, Some(WholeField(cmObjectId, GicDInfo)))
      case ArmObjGicMsiFrameInfo => (Success, Some(WholeField(cmObjectId, GicMsiFrameInfo)))
      case OtherArmObj(_) => (NotFound, desc)
  }

  /** GetOemNameSpaceObject: Juno has no OEM objects. */
  function GetOemNameSpaceObject(thisPresent: bool, desc: Option<CmObjDesc>): (r: Lookup)
    ensures r.1 == desc
    ensures r.0 == (if !thisPresent || desc.None? then InvalidParameter else NotFound)
  {
    if !thisPresent || desc.None? then (InvalidParameter, desc) else (NotFound, desc)
  }

  /** ArmJunoPlatformGetObject. */
  function GetObject(rev: JunoRevision, thisPresent: bool, cmObjectId: CmObjectId,
                     token: Addr, desc: Option<CmObjDesc>): Lookup
  {
    if !thisPresent || desc.None? then (InvalidParameter, desc)
    else
      match cmObjectId
      case Standard(obj) => GetStandardNameSpaceObject(rev, thisPresent, cmObjectId, obj, token, desc)
      case ArchCommon(obj) => GetArchCommonNameSpaceObject(rev, thisPresent, cmObjectId, obj, token, desc)
      case Arm(obj) => GetArmNameSpaceObject(rev, thisPresent, cmObjectId, obj, token, desc)
      case Oem(_) => GetOemNameSpaceObject(thisPresent, desc)
      case OtherNameSpace(_, _) => (InvalidParameter, desc)
  }

  /** ArmJunoPlatformSetObject: the repository is read-only. */
  function SetObject(thisPresent: bool, cmObjectId: CmObjectId, token: Addr,
                     desc: Option<CmObjDesc>): (r: EfiStatus)
    ensures r == Unsupported
  {
    Unsupported
  }

  // ---------------------------------------------------------------------
  // Properties of GetObject.

  /** The objects looked up one element at a time by token, and their fields. */
  function ElementField(cmObjectId: CmObjectId): Option<Field> {
    match cmObjectId
    case Arm(ArmObjGicCInfo) => Some(GicCInfo)
    case ArchCommon(ArchCommonObjPciAddressMapInfo) => Some(PciAddressMapInfo)
    case ArchCommon(ArchCommonObjPciInterruptMapInfo) => Some(PciInterruptMapInfo)
    case ArchCommon(ArchCommonObjLpiInfo) => Some(LpiInfo)
    case ArchCommon(ArchCommonObjCpcInfo) => Some(CpcInfo)
    case ArchCommon(ArchCommonObjPsdInfo) => Some(PsdInfo)
    case _ => None
  }

  /** An object of a known namespace that Juno does not provide. */
  predicate UnservedObject(cmObjectId: CmObjectId) {
    match cmObjectId
    case Standard(obj) => obj.OtherStdObj?
    case ArchCommon(obj) => obj.OtherArchCommonObj?
    case Arm(obj) => obj.OtherArmObj?
    case Oem(_) => true
    case OtherNameSpace(_, _) => false
  }

  /** A NULL This or descriptor is refused before anything else is looked at. */
  lemma GetObjectRejectsNull(rev: JunoRevision, thisPresent: bool, cmObjectId: CmObjectId,
                             token: Addr, desc: Option<CmObjDesc>)
    requires !thisPresent || desc.None?
    ensures GetObject(rev, thisPresent, cmObjectId, token, desc) == (InvalidParameter, desc)
  {
  }

  /**
   * An unknown namespace is an invalid parameter; an unknown object of a
   * known namespace, and every OEM object, is not found. Neither touches
   * the descriptor.
   */
  lemma UnknownObjects(rev: JunoRevision, cmObjectId: CmObjectId, token: Addr, desc: CmObjDesc)
    ensures var r := GetObject(rev, true, cmObjectId, token, Some(desc));
      (cmObjectId.OtherNameSpace? ==> r == (InvalidParameter, Some(desc))) &&
      (UnservedObject(cmObjectId) ==> r == (NotFound, Some(desc)))
  {
  }

  /**
   * The ACPI table list has all eleven tables, except on R0 where the
   * trailing MCFG and PCIe SSDT are left out; the size is always the count
   * times one entry.
   */
  lemma AcpiTableListByRevision(rev: JunoRevision, token: Addr, desc: CmObjDesc)
    ensures var r := GetObject(rev, true, Standard(StdObjAcpiTableList), token, Some(desc));
      r.0 == Success && r.1.Some? && Describes(r.1.value) &&
      r.1.value.data == At(CmAcpiTableList, 0) &&
      r.1.value.size == SizeOf(r.1.value.count, CmAcpiTableList) &&
      (rev == JunoR0 ==>
         r.1.value.count == 9 &&
         Mcfg !in DescribedTables(r.1.value) &&
         SsdtPciExpress !in DescribedTables(r.1.value)) &&
      (rev != JunoR0 ==> r.1.value.count == 11 && DescribedTables(r.1.value) == AcpiTableList)
  {
    var r := GetObject(rev, true, Standard(StdObjAcpiTableList), token, Some(desc));
    if rev == JunoR0 {
      assert DescribedTables(r.1.value) == [Fadt, Gtdt, Madt, Spcr, Dsdt, Dbg2, Ssdt, Pptt, SsdtCpuTopology];
    }
  }

  /** On R0 there is no PCIe configuration space and no GT block, whatever the token. */
  lemma R0HasNoPciNorGTBlock(cmObjectId: CmObjectId, token: Addr, desc: CmObjDesc)
    requires cmObjectId in {ArchCommon(ArchCommonObjPciConfigSpaceInfo),
                            Arm(ArmObjPlatformGTBlockInfo), Arm(ArmObjGTBlockTimerFrameInfo)}
    ensures GetObject(JunoR0, true, cmObjectId, token, Some(desc)) == (NotFound, Some(desc))
  {
  }

  /** On every later revision the PCIe configuration space is returned whole, whatever the token. */
  lemma LaterRevisionsHavePci(rev: JunoRevision, token: Addr, desc: CmObjDesc)
    requires rev != JunoR0
    ensures var id := ArchCommon(ArchCommonObjPciConfigSpaceInfo);
      GetObject(rev, true, id, token, Some(desc)) == (Success, Some(WholeField(id, PciConfigInfo)))
  {
  }

  /**
   * On every later revision the GT block is returned whole whatever the
   * token, and its timer frames are returned whole for CM_NULL_TOKEN or the
   * frame array's own token and are not found for any other token.
   */
  lemma LaterRevisionsHaveGTBlock(rev: JunoRevision, token: Addr, desc: CmObjDesc)
    requires rev != JunoR0
    ensures var id := Arm(ArmObjPlatformGTBlockInfo);
      GetObject(rev, true, id, token, Some(desc)) == (Success, Some(WholeField(id, GTBlockInfo)))
    ensures var id := Arm(ArmObjGTBlockTimerFrameInfo);
      var r := GetObject(rev, true, id, token, Some(desc));
      (token == Null || token == At(GTBlock0TimerInfo, 0) ==>
         r == (Success, Some(WholeField(id, GTBlock0TimerInfo)))) &&
      (token != Null && token != At(GTBlock0TimerInfo, 0) ==>
         r == (NotFound, Some(desc.(objectId := id))))
  {
  }

  /**
   * CM_NULL_TOKEN asks a by-token object for its whole array; for LPI
   * information that is an empty descriptor, and for CmRef it is refused.
   */
  lemma NullTokenLookups(rev: JunoRevision, cmObjectId: CmObjectId, desc: CmObjDesc)
    ensures var r := GetObject(rev, true, cmObjectId, Null, Some(desc));
      (ElementField(cmObjectId).Some? && cmObjectId != ArchCommon(ArchCommonObjLpiInfo) ==>
         r == (Success, Some(WholeField(cmObjectId, ElementField(cmObjectId).value)))) &&
      (cmObjectId == ArchCommon(ArchCommonObjLpiInfo) ==>
         r == (Success, Some(CmObjDesc(cmObjectId, SizeOf(0, LpiInfo), Null, 0)))) &&
      (cmObjectId == ArchCommon(ArchCommonObjCmRef) ==> r.0 == InvalidParameter)
  {
  }

  /**
   * A non-null token given to a by-token object finds exactly the element
   * it addresses, as a one-element descriptor, or is not found.
   */
  lemma TokenLookupFindsElement(rev: JunoRevision, cmObjectId: CmObjectId, token: Addr, desc: CmObjDesc)
    requires ElementField(cmObjectId).Some? && token != Null
    ensures var f := ElementField(cmObjectId).value;
      var r := GetObject(rev, true, cmObjectId, token, Some(desc));
      (r.0 == Success <==> exists i :: 0 <= i < Length(f) && token == At(f, i)) &&
      (r.0 == Success ==> r.1 == Some(CmObjDesc(cmObjectId, SizeOf(1, f), token, 1))) &&
      (r.0 != Success ==> r == (NotFound, Some(desc.(objectId := cmObjectId))))
  {
    var f := ElementField(cmObjectId).value;
    ElementSearchFinds(f, cmObjectId, token, desc.(objectId := cmObjectId));
  }

  /**
   * Whatever GetObject returns on success describes objects of the
   * repository under the requested id; on failure the descriptor is left
   * alone apart from its object id.
   */
  lemma GetObjectSound(rev: JunoRevision, cmObjectId: CmObjectId, token: Addr, desc: CmObjDesc)
    ensures SoundLookup(cmObjectId, desc, GetObject(rev, true, cmObjectId, token, Some(desc)))
  {
    match cmObjectId
    case ArchCommon(obj) => ArchCommonSound(rev, cmObjectId, obj, token, desc);
    case Arm(obj) => ArmSound(rev, cmObjectId, obj, token, desc);
    case _ =>
  }

  /** A lookup outcome: on success a descriptor of repository objects under
      the requested id, on failure the caller's descriptor apart from its id. */
  predicate SoundLookup(cmObjectId: CmObjectId, desc: CmObjDesc, r: Lookup) {
    r.1.Some? &&
    (r.0 == Success ==> r.1.value.objectId == cmObjectId && Describes(r.1.value)) &&
    (r.0 != Success ==> r.1.value.(objectId := desc.objectId) == desc)
  }

  lemma ArchCommonSound(rev: JunoRevision, cmObjectId: CmObjectId, obj: ArchCommonObjectId, token: Addr, desc: CmObjDesc)
    requires cmObjectId == ArchCommon(obj)
    ensures SoundLookup(cmObjectId, desc, GetArchCommonNameSpaceObject(rev, true, cmObjectId, obj, token, Some(desc)))
  {
    var d := desc.(objectId := cmObjectId);
    if ElementField(cmObjectId).Some? {
      HandlersDescribe(SearchElements(ElementField(cmObjectId).value), cmObjectId, token, d);
    } else if obj == ArchCommonObjCmRef {
      HandlersDescribe(SearchObjRefs, cmObjectId, token, d);
    }
  }

  lemma ArmSound(rev: JunoRevision, cmObjectId: CmObjectId, obj: ArmObjectId, token: Addr, desc: CmObjDesc)
    requires cmObjectId == Arm(obj)
    ensures SoundLookup(cmObjectId, desc, GetArmNameSpaceObject(rev, true, cmObjectId, obj, token, Some(desc)))
  {
    var d := desc.(objectId := cmObjectId);
    if obj == ArmObjGicCInfo {
      HandlersDescribe(SearchElements(GicCInfo), cmObjectId, token, d);
    } else if obj == ArmObjGTBlockTimerFrameInfo {
      HandlersDescribe(SearchTimerFrames, cmObjectId, token, d);
    }
  }
}
