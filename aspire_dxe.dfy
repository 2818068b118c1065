// The Aspire VN7-572G DXE board hooks against a board object: the EC
// command channel, the module global mResetNotify and the reset
// notification protocol's hook list.

module AspireDxe {
  import opened Uefi
  import opened AspireDxeSpec

  class DxeBoard {
    var ecRam: EcRam
    var traffic: seq<EcTraffic>
    var resetNotify: bool          // mResetNotify != NULL
    var hookRegistered: bool       // EcResetSystemHook is on the protocol's list
    const svc: Services

    function State(): DxeState
      reads this
    {
      DxeState(ecRam, traffic, resetNotify, hookRegistered)
    }

    /** The board as DXE finds it: mResetNotify NULL and no hook registered. */
    constructor (ram: EcRam, services: Services)
      ensures State() == DxeState(ram, [], false, false) && svc == services
    {
      ecRam, traffic, resetNotify, hookRegistered := ram, [], false, false;
      svc := services;
    }

    // ---- Services the hooks call ----

    /** gRT->GetTime. */
    method GetTime() returns (time: Option<EfiTime>)
      ensures time == svc.time
    {
      time := svc.time;
    }

    method SendEcCommand(command: Byte)
      modifies this
      ensures State() == old(State()).(traffic := old(traffic) + [EcCommand(command)])
    {
      traffic := traffic + [EcCommand(command)];
    }

    method SendEcData(data: Byte)
      modifies this
      ensures State() == old(State()).(traffic := old(traffic) + [EcData(data)])
    {
      traffic := traffic + [EcData(data)];
    }

    /** ReceiveEcData, as used after the time command. */
    method ReceiveEcData() returns (response: Byte)
      modifies this
      ensures response == svc.ecResponse
      ensures State() == old(State()).(traffic := old(traffic) + [EcReceive(response)])
    {
      response := svc.ecResponse;
      traffic := traffic + [EcReceive(response)];
    }

    method EcCmd90Read(address: Byte) returns (data: Byte)
      modifies this
      ensures data == old(ecRam)[address]
      ensures State() == old(State()).(traffic := old(traffic) + [Cmd90Read(address, data)])
    {
      data := ecRam[address];
      traffic := traffic + [Cmd90Read(address, data)];
    }

    method EcCmd91Write(address: Byte, value: Byte)
      modifies this
      ensures State() == Cmd91(old(State()), address, value)
    {
      ecRam := ecRam[address := value];
      traffic := traffic + [Cmd91Write(address, value)];
    }

    /** gBS->LocateProtocol for the reset notification protocol; mResetNotify
        is NULL when it is not found. */
    method LocateResetNotification() returns (found: bool)
      modifies this
      ensures found == svc.resetNotificationInstalled
      ensures State() == old(State()).(resetNotify := found)
    {
      found := svc.resetNotificationInstalled;
      resetNotify := found;
    }

    method RegisterResetNotify()
      modifies this
      ensures State() == old(State()).(hookRegistered := true)
    {
      hookRegistered := true;
    }

    method UnregisterResetNotify()
      modifies this
      ensures State() == old(State()).(hookRegistered := false)
    {
      hookRegistered := false;
    }

    // ---- The board hooks ----

    /** EcSendTime: the time word, least significant byte first, after 0xE0. */
    method EcSendTime()
      modifies this
      ensures State() == SendTimeSpec(svc, old(State()))
    {
      var time := GetTime();
      if time.None? {
        return;
      }
      var ecTime := EcTime(time.value);
      SendEcCommand(EcTimeCommand);
      ghost var sent := traffic;
      for index := 0 to 4
        invariant traffic == sent + TimeData(ecTime, index)
        invariant ecRam == old(ecRam) && resetNotify == old(resetNotify) && hookRegistered == old(hookRegistered)
      {
        var ecTimeByte := TimeByte(ecTime, index);
        SendEcData(ecTimeByte);
      }
      var ecResponse := ReceiveEcData();
      assert traffic == old(traffic) + SendTimeTraffic(svc);
    }

    /** EcRequestsTime: send the time when bit 0 of EC RAM 0x79 is set. */
    method EcRequestsTime()
      modifies this
      ensures State() == RequestsTimeSpec(svc, old(State()))
    {
      var dat := EcCmd90Read(EcTimeRequestAddress);
      if dat % 2 == 1 {
        EcSendTime();
      }
    }

    /** EcResetSystemHook: on shutdown, set the EC's system state twice. */
    method EcResetSystemHook(resetType: ResetType)
      modifies this
      ensures State() == ResetHookSpec(old(State()), resetType)
    {
      if resetType == ResetShutdown {
        EcCmd91Write(EcSystemStateAddress, EcShutdownState);
        EcCmd91Write(EcSystemStateAddress, EcShutdownState);
      }
    }

    method BoardInitAfterPciEnumeration() returns (status: EfiStatus)
      modifies this
      ensures status == Success
      ensures State() == AfterPciEnumerationSpec(svc, old(State()))
    {
      EcRequestsTime();
      var found := LocateResetNotification();
      if found {
        RegisterResetNotify();
      }
      return Success;
    }

    method BoardInitEndOfFirmware() returns (status: EfiStatus)
      modifies this
      ensures status == Success
      ensures State() == EndOfFirmwareSpec(old(State()))
    {
      if resetNotify {
        UnregisterResetNotify();
      }
      return Success;
    }
  }
}
