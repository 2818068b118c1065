// The Juno platform repository object and the code that fills in its _CPC
// information in place.

module JunoCpc {
  import opened Uefi
  import opened JunoRepository
  import opened JunoCpcSpec

  class PlatformRepository {
    var junoRevision: JunoRevision
    const gicCInfo: array<GicCEntry>
    const cpcInfo: array<CpcEntry>

    ghost predicate Valid()
      reads this
    {
      gicCInfo.Length == GicCCount && cpcInfo.Length == PsdDomainCount
    }

    function State(): RepoState
      reads this, gicCInfo, cpcInfo
    {
      RepoState(junoRevision, gicCInfo[..], cpcInfo[..])
    }

    /** The repository as statically initialised. The C zero-fills the
        revision; JunoR0 here is only a placeholder, since
        InitializePlatformRepository records the real one before any getter
        can run. */
    constructor ()
      ensures Valid() && fresh(gicCInfo) && fresh(cpcInfo)
      ensures State() == RepoState(JunoR0, InitialGicC, [ZeroCpc, ZeroCpc])
    {
      junoRevision := JunoR0;
      gicCInfo := new GicCEntry[GicCCount](i requires 0 <= i < GicCCount => InitialGicC[i]);
      cpcInfo := new CpcEntry[PsdDomainCount](_ => ZeroCpc);
      new;
      assert gicCInfo[..] == InitialGicC;
      assert cpcInfo[..] == [ZeroCpc, ZeroCpc];
    }

    /** ClearCpcInfo: drop every core's _CPC token. */
    method ClearCpcInfo() returns (status: EfiStatus)
      requires Valid()
      modifies gicCInfo
      ensures Valid() && status == Success
      ensures State() == ClearCpcSpec(old(State()))
    {
      gicCInfo[0] := gicCInfo[0].(cpcToken := Null);
      gicCInfo[1] := gicCInfo[1].(cpcToken := Null);
      gicCInfo[2] := gicCInfo[2].(cpcToken := Null);
      gicCInfo[3] := gicCInfo[3].(cpcToken := Null);
      gicCInfo[4] := gicCInfo[4].(cpcToken := Null);
      gicCInfo[5] := gicCInfo[5].(cpcToken := Null);
      assert gicCInfo[..] == UnlinkCpc(old(gicCInfo[..]));
      return Success;
    }

    /** PopulateCpcInfo: probe one DVFS domain through SCMI. */
    method PopulateCpcInfo(domainId: U32, scmi: Scmi) returns (status: EfiStatus)
      requires Valid()
      modifies gicCInfo, cpcInfo
      ensures Valid()
      ensures status == PopulateCpcInfoSpec(domainId, scmi, old(State())).0
      ensures State() == PopulateCpcInfoSpec(domainId, scmi, old(State())).1
    {
      if domainId != PsdBigDomainId && domainId != PsdLittleDomainId {
        return InvalidParameter;
      }
      var answer := scmi(PsdDomain(domainId));
      cpcInfo[domainId] := answer.info;
      assert cpcInfo[..] == old(cpcInfo[..])[domainId := answer.info];
      status := answer.status;
      if IsError(status) {
        return;
      }
      var cpc := cpcInfo[domainId];
      if DefaultScale(domainId, cpc) {
        return Unsupported;
      }
      if domainId == PsdBigDomainId {
        cpc := cpc.(lowestFrequency := 600, nominalFrequency := 1000);
      } else {
        cpc := cpc.(lowestFrequency := 450, nominalFrequency := 800);
      }
      if domainId == PsdBigDomainId {
        gicCInfo[0] := gicCInfo[0].(cpcToken := At(CpcInfo, domainId));
        gicCInfo[1] := gicCInfo[1].(cpcToken := At(CpcInfo, domainId));
      } else {
        gicCInfo[2] := gicCInfo[2].(cpcToken := At(CpcInfo, domainId));
        gicCInfo[3] := gicCInfo[3].(cpcToken := At(CpcInfo, domainId));
        gicCInfo[4] := gicCInfo[4].(cpcToken := At(CpcInfo, domainId));
        gicCInfo[5] := gicCInfo[5].(cpcToken := At(CpcInfo, domainId));
      }
      cpc := cpc.(referencePerformanceCounter := ClearedRegister,
                  deliveredPerformanceCounter := ClearedRegister);
      cpcInfo[domainId] := cpc;
      assert cpcInfo[..] == old(cpcInfo[..])[domainId := Adjusted(domainId, answer.info)];
      assert gicCInfo[..] == LinkCpc(old(gicCInfo[..]), domainId);
    }

    /** PopulateCpcObjects: both domains, or none after the first failure. */
    method PopulateCpcObjects(scmi: Scmi)
      requires Valid()
      modifies gicCInfo, cpcInfo
      ensures Valid()
      ensures State() == PopulateCpcObjectsSpec(scmi, old(State()))
    {
      var cpcFailed := false;
      var index: U32 := 0;
      while index < PsdDomainCount
        invariant Valid() && index <= PsdDomainCount && !cpcFailed
        invariant PopulateFrom(index, scmi, State()) == PopulateFrom(0, scmi, old(State()))
        decreases PsdDomainCount - index
      {
        var status := PopulateCpcInfo(index, scmi);
        if IsError(status) {
          assert ClearCpcSpec(State()) == PopulateFrom(0, scmi, old(State()));
          cpcFailed := true;
          break;
        }
        index := index + 1;
      }
      if cpcFailed {
        var _ := ClearCpcInfo();
      }
    }

    /**
     * InitializePlatformRepository, given what GetJunoRevision reports and
     * the value of PcdDevelopmentPlatformRelaxations.
     */
    method InitializePlatformRepository(revision: JunoRevision, relaxations: nat, scmi: Scmi)
      returns (status: EfiStatus)
      requires Valid()
      modifies this, gicCInfo, cpcInfo
      ensures Valid() && status == Success
      ensures State() == InitializeSpec(revision, relaxations, scmi, old(State()))
    {
      junoRevision := revision;
      if junoRevision == JunoR2 && RelaxationAllowed(relaxations) {
        PopulateCpcObjects(scmi);
      }
      return Success;
    }
  }
}
