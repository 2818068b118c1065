// The Juno platform repository as the configuration manager sees it: the
// fields of EDKII_PLATFORM_REPOSITORY_INFO, how many elements each holds,
// abstract addresses into them (which double as CM_OBJECT_TOKENs), and the
// CM_OBJ_DESCRIPTOR handed back to callers.

module JunoRepository {
  import opened Uefi

  /** The fields of the repository, in declaration order. */
  datatype Field =
    | CmInfo | CmAcpiTableList | BootArchInfo | PmProfileInfo | GicCInfo
    | GicDInfo | GenericTimerInfo | GTBlockInfo | GTBlock0TimerInfo
    | Watchdog | SpcrSerialPort | DbgSerialPort | PciConfigInfo
    | PciAddressMapRef | PciAddressMapInfo | PciInterruptMapRef
    | PciInterruptMapInfo | GicMsiFrameInfo | ProcHierarchyInfo | CacheInfo
    | BigClusterResources | BigCoreResources | LittleClusterResources
    | LittleCoreResources | LpiInfo | ClustersLpiRef | CoresLpiRef
    | PsdInfo | CpcInfo

  /** The ACPI table generators of the table list, in list order. */
  datatype AcpiTableGenerator =
    Fadt | Gtdt | Madt | Spcr | Dsdt | Dbg2 | Ssdt | Pptt | SsdtCpuTopology
    | Mcfg | SsdtPciExpress

  const AcpiTableList: seq<AcpiTableGenerator> :=
    [Fadt, Gtdt, Madt, Spcr, Dsdt, Dbg2, Ssdt, Pptt, SsdtCpuTopology, Mcfg,
     SsdtPciExpress]

  /** Number of domains in the PSD (and CPC) arrays; big is 0, LITTLE is 1. */
  const PsdDomainCount := 2
  const PsdBigDomainId := 0
  const PsdLittleDomainId := 1

  /** Number of GIC CPU interfaces: two big and four LITTLE cores. */
  const GicCCount := 6

  /** ARRAY_SIZE of each field; a field holding one structure counts 1. */
  function Length(f: Field): (n: nat)
    ensures n > 0
    ensures f == CmAcpiTableList ==> n == |AcpiTableList|
  {
    match f
    case CmAcpiTableList => |AcpiTableList|
    case GicCInfo => GicCCount
    case GTBlock0TimerInfo => 2
    case PciAddressMapRef => 3
    case PciAddressMapInfo => 3
    case PciInterruptMapRef => 4
    case PciInterruptMapInfo => 4
    case ProcHierarchyInfo => 9
    case CacheInfo => 6
    case BigCoreResources => 2
    case LittleCoreResources => 2
    case LpiInfo => 3
    case CoresLpiRef => 2
    case PsdInfo => PsdDomainCount
    case CpcInfo => PsdDomainCount
    case _ => 1
  }

  /**
   * An address as the code compares it: NULL (which is also CM_NULL_TOKEN),
   * element `index` of a repository field (element 0 is also the address of
   * the field itself), or an address outside the repository.
   */
  datatype Addr = Null | At(field: Field, index: nat) | Elsewhere(address: nat)

  /** `count` times the size of one element of `field`, in bytes. */
  datatype ObjSize = SizeOf(count: nat, field: Field)

  /** The object-id spaces of the dispatchers, already decoded. */
  datatype StdObjectId = StdObjCfgMgrInfo | StdObjAcpiTableList | OtherStdObj(id: nat)

  datatype ArchCommonObjectId =
    | ArchCommonObjPowerManagementProfileInfo | ArchCommonObjConsolePortInfo
    | ArchCommonObjSerialDebugPortInfo | ArchCommonObjCmRef
    | ArchCommonObjPciConfigSpaceInfo | ArchCommonObjPciAddressMapInfo
    | ArchCommonObjPciInterruptMapInfo | ArchCommonObjLpiInfo
    | ArchCommonObjProcHierarchyInfo | ArchCommonObjCacheInfo
    | ArchCommonObjCpcInfo | ArchCommonObjPsdInfo
    | OtherArchCommonObj(id: nat)

  datatype ArmObjectId =
    | ArmObjBootArchInfo | ArmObjGenericTimerInfo
    | ArmObjPlatformGenericWatchdogInfo | ArmObjPlatformGTBlockInfo
    | ArmObjGTBlockTimerFrameInfo | ArmObjGicCInfo | ArmObjGicDInfo
    | ArmObjGicMsiFrameInfo | OtherArmObj(id: nat)

  /** A CM_OBJECT_ID split into its namespace and its object id. */
  datatype CmObjectId =
    | Standard(std: StdObjectId)
    | ArchCommon(arch: ArchCommonObjectId)
    | Arm(arm: ArmObjectId)
    | Oem(oem: nat)
    | OtherNameSpace(nameSpace: nat, id: nat)

  /** CM_OBJ_DESCRIPTOR. */
  datatype CmObjDesc = CmObjDesc(objectId: CmObjectId, size: ObjSize, data: Addr, count: nat)

  /**
   * The board revision. The code only ever compares it with R0 and R2, so
   * JunoR1 stands for every other revision.
   */
  datatype JunoRevision = JunoR0 | JunoR1 | JunoR2

  /** Outcome of a lookup: the status and the caller's descriptor (None if NULL). */
  type Lookup = (EfiStatus, Option<CmObjDesc>)

  /**
   * A descriptor that describes `count` consecutive elements of one field
   * and nothing beyond its end, or nothing at all.
   */
  predicate Describes(d: CmObjDesc) {
    match d.data
    case Null => d.count == 0 && d.size.count == 0
    case At(f, i) => 0 < d.count && i + d.count <= Length(f) && d.size == SizeOf(d.count, f)
    case Elsewhere(_) => false
  }

  /** The generators a table-list descriptor hands out. */
  function DescribedTables(d: CmObjDesc): (r: seq<AcpiTableGenerator>)
    requires Describes(d) && d.data == At(CmAcpiTableList, 0)
    ensures |r| == d.count
  {
    AcpiTableList[..d.count]
  }
}
