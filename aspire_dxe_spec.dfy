// What the Aspire VN7-572G DXE board hooks do, as functions on the board's
// state: the time word the EC is sent, the EC traffic of each hook, and the
// registration of the reset hook with the reset notification protocol.

module AspireDxeSpec {
  import opened Uefi

  /** The EFI_TIME fields the time word is built from. */
  datatype EfiTime = EfiTime(year: U16, month: Byte, day: Byte, hour: Byte, minute: Byte, second: Byte)

  datatype ResetType = ResetCold | ResetWarm | ResetShutdown | ResetPlatformSpecific

  /**
   * One exchange with the EC: the EcLib primitives SendEcCommand,
   * SendEcData and ReceiveEcData, and the two EC RAM commands of
   * BoardEcLib (0x90 reads a byte of EC RAM, 0x91 writes one).
   */
  datatype EcTraffic =
    | EcCommand(command: Byte)
    | EcData(data: Byte)
    | EcReceive(received: Byte)
    | Cmd90Read(address: Byte, value: Byte)
    | Cmd91Write(address: Byte, value: Byte)

  /** The 256 bytes of EC RAM that commands 0x90 and 0x91 address. */
  type EcRam = r: seq<Byte> | |r| == 0x100 witness seq(0x100, _ => 0)

  /**
   * The board's DXE-visible state: EC RAM, the EC traffic so far, whether
   * mResetNotify holds the reset notification protocol, and whether
   * EcResetSystemHook is on that protocol's list.
   */
  datatype DxeState = DxeState(ecRam: EcRam, traffic: seq<EcTraffic>, resetNotify: bool, hookRegistered: bool)

  /** What the platform answers, fixed for one boot. */
  datatype Services = Services(
    time: Option<EfiTime>,                 // gRT->GetTime: None when it fails
    ecResponse: Byte,                      // the EC's reply to the time command
    resetNotificationInstalled: bool)      // LocateProtocol finds the protocol

  const EcTimeCommand: Byte := 0xE0
  const EcTimeRequestAddress: Byte := 0x79
  const EcSystemStateAddress: Byte := 0x76
  const EcShutdownState: Byte := 7

  // ---- The time word ----

  /** The sum of the shifted fields before the 16-year offset, in int. */
  function PackedTime(t: EfiTime): nat {
    t.year * 0x400_0000 + t.month * 0x40_0000 + t.day * 0x2_0000 + t.hour * 0x1000 + t.minute * 0x40 + t.second
  }

  /**
   * The INT32 EcTime, as its 32-bit pattern: the packed fields less
   * 0x40000000, wrapping modulo 2^32 as the 32-bit arithmetic does.
   */
  function EcTime(t: EfiTime): U32 {
    (PackedTime(t) - 0x4000_0000) % 0x1_0000_0000
  }

  /** 256^index for the four byte positions of a 32-bit word. */
  function ByteWeight(index: nat): (w: nat)
    requires index < 4
    ensures w == [1, 0x100, 0x1_0000, 0x100_0000][index]
  {
    if index == 0 then 1 else 0x100 * ByteWeight(index - 1)
  }

  /** (UINT8)(EcTime >> (index * 8)): byte `index` of the word's pattern. */
  function TimeByte(w: U32, index: nat): Byte
    requires index < 4
  {
    (w / ByteWeight(index)) % 0x100
  }

  /** The data bytes the EC receives for a word, least significant first. */
  function TimeData(w: U32, count: nat): (r: seq<EcTraffic>)
    requires count <= 4
    ensures |r| == count
    ensures forall i :: 0 <= i < count ==> r[i] == EcData(TimeByte(w, i))
  {
    if count == 0 then [] else TimeData(w, count - 1) + [EcData(TimeByte(w, count - 1))]
  }

  /** EcSendTime's traffic: nothing when GetTime fails. */
  function SendTimeTraffic(svc: Services): seq<EcTraffic> {
    match svc.time
    case None => []
    case Some(t) => [EcCommand(EcTimeCommand)] + TimeData(EcTime(t), 4) + [EcReceive(svc.ecResponse)]
  }

  function SendTimeSpec(svc: Services, s: DxeState): DxeState {
    s.(traffic := s.traffic + SendTimeTraffic(svc))
  }

  /** Bit 0 of EC RAM 0x79 set: the EC asks for the time. */
  predicate TimeRequested(s: DxeState) {
    s.ecRam[EcTimeRequestAddress] % 2 == 1
  }

  function RequestsTimeSpec(svc: Services, s: DxeState): DxeState {
    var s1 := s.(traffic := s.traffic + [Cmd90Read(EcTimeRequestAddress, s.ecRam[EcTimeRequestAddress])]);
    if TimeRequested(s) then SendTimeSpec(svc, s1) else s1
  }

  /** EcCmd91Write: an EC RAM byte written. */
  function Cmd91(s: DxeState, address: Byte, value: Byte): DxeState {
    s.(ecRam := s.ecRam[address := value], traffic := s.traffic + [Cmd91Write(address, value)])
  }

  function ResetHookSpec(s: DxeState, resetType: ResetType): DxeState {
    if resetType == ResetShutdown
    then Cmd91(Cmd91(s, EcSystemStateAddress, EcShutdownState), EcSystemStateAddress, EcShutdownState)
    else s
  }

  function AfterPciEnumerationSpec(svc: Services, s: DxeState): DxeState {
    var s1 := RequestsTimeSpec(svc, s);
    s1.(resetNotify := svc.resetNotificationInstalled,
        hookRegistered := s1.hookRegistered || svc.resetNotificationInstalled)
  }

  function EndOfFirmwareSpec(s: DxeState): DxeState {
    if s.resetNotify then s.(hookRegistered := false) else s
  }

  // ---- Properties ----

  lemma DivModUnique(a: int, k: nat, r: int)
    requires 0 < k && 0 <= r < k
    ensures (a * k + r) / k == a && (a * k + r) % k == r
  {
    var q, m := (a * k + r) / k, (a * k + r) % k;
    assert (q - a) * k == r - m;
    if q - a >= 1 {
      MulAtLeast(q - a, k);
    } else if a - q >= 1 {
      MulAtLeast(a - q, k);
    }
  }

  lemma MulAtLeast(d: int, k: nat)
    requires d >= 1
    ensures d * k >= k
  {
  }

  /** The time-of-day fields below the year, packed, fit in 26 bits. */
  function LowFields(t: EfiTime): nat {
    t.month * 0x40_0000 + t.day * 0x2_0000 + t.hour * 0x1000 + t.minute * 0x40 + t.second
  }

  predicate FieldsFit(t: EfiTime) {
    t.month < 16 && t.day < 32 && t.hour < 32 && t.minute < 64 && t.second < 64
  }

  /** The 16-year offset and the wrap leave the year modulo 64, counted from 2000. */
  lemma EcTimeIsYearAndFields(t: EfiTime)
    requires FieldsFit(t)
    ensures LowFields(t) < 0x400_0000
    ensures EcTime(t) == ((t.year - 2000) % 64) * 0x400_0000 + LowFields(t)
  {
    var y := (t.year - 2000) % 64;
    var c := (t.year - 2000) / 64;
    assert t.year - 2000 == c * 64 + y;
    assert PackedTime(t) - 0x4000_0000 == (c + 31) * 0x1_0000_0000 + (y * 0x400_0000 + LowFields(t));
    DivModUnique(c + 31, 0x1_0000_0000, y * 0x400_0000 + LowFields(t));
  }

  /**
   * The EC can read every field back out of the word: the top six bits are
   * the year since 2000 modulo 64 (the century is dropped), then four bits
   * of month, five of day, five of hour and six each of minute and second.
   */
  lemma EcTimeFields(t: EfiTime)
    requires FieldsFit(t)
    ensures EcTime(t) / 0x400_0000 == (t.year - 2000) % 64
    ensures (EcTime(t) / 0x40_0000) % 16 == t.month
    ensures (EcTime(t) / 0x2_0000) % 32 == t.day
    ensures (EcTime(t) / 0x1000) % 32 == t.hour
    ensures (EcTime(t) / 0x40) % 64 == t.minute
    ensures EcTime(t) % 64 == t.second
  {
    EcTimeIsYearAndFields(t);
    var y := (t.year - 2000) % 64;
    DivModUnique(y, 0x400_0000, LowFields(t));
    DateFields(EcTime(t), y, t);
    ClockFields(EcTime(t), y, t);
  }

  /** A field f of `width` values with `l` values of lower fields below it. */
  lemma FieldOf(w: int, hi: int, f: nat, lo: nat, l: nat, width: nat)
    requires 0 < l && f < width && lo < l && w == (hi * width + f) * l + lo
    ensures (w / l) % width == f
  {
    DivModUnique(hi * width + f, l, lo);
    DivModUnique(hi, width, f);
  }

  lemma DateFields(w: int, y: int, t: EfiTime)
    requires FieldsFit(t) && w == y * 0x400_0000 + LowFields(t)
    ensures (w / 0x40_0000) % 16 == t.month
    ensures (w / 0x2_0000) % 32 == t.day
  {
    FieldOf(w, y, t.month, t.day * 0x2_0000 + t.hour * 0x1000 + t.minute * 0x40 + t.second, 0x40_0000, 16);
    FieldOf(w, y * 16 + t.month, t.day, t.hour * 0x1000 + t.minute * 0x40 + t.second, 0x2_0000, 32);
  }

  lemma ClockFields(w: int, y: int, t: EfiTime)
    requires FieldsFit(t) && w == y * 0x400_0000 + LowFields(t)
    ensures (w / 0x1000) % 32 == t.hour
    ensures (w / 0x40) % 64 == t.minute
    ensures w % 64 == t.second
  {
    var md := (y * 16 + t.month) * 32 + t.day;
    FieldOf(w, md, t.hour, t.minute * 0x40 + t.second, 0x1000, 32);
    FieldOf(w, md * 32 + t.hour, t.minute, t.second, 0x40, 64);
    DivModUnique((md * 32 + t.hour) * 64 + t.minute, 64, t.second);
  }

  /**
   * EcTime is negative as an INT32 exactly when the year since 2000,
   * modulo 64, is 32 or more.
   */
  lemma EcTimeNegative(t: EfiTime)
    requires FieldsFit(t)
    ensures EcTime(t) >= 0x8000_0000 <==> (t.year - 2000) % 64 >= 32
  {
    EcTimeIsYearAndFields(t);
  }

  /** The four bytes sent, least significant first, put the word back together. */
  lemma TimeBytesRecompose(w: U32)
    ensures TimeByte(w, 0) + 0x100 * TimeByte(w, 1) + 0x1_0000 * TimeByte(w, 2) + 0x100_0000 * TimeByte(w, 3) == w
  {
    var b0, r0 := w % 0x100, w / 0x100;
    var b1, r1 := r0 % 0x100, r0 / 0x100;
    var b2, b3 := r1 % 0x100, r1 / 0x100;
    assert w / 0x1_0000 == r1;
    assert w / 0x100_0000 == r1 / 0x100;
    assert b3 < 0x100;
  }

  /** A failing GetTime leaves the EC alone; otherwise command 0xE0, four
      data bytes and one read of the EC's reply. */
  lemma SendTimeShape(svc: Services, s: DxeState)
    ensures svc.time.None? ==> SendTimeSpec(svc, s) == s
    ensures svc.time.Some? ==>
      var tr := SendTimeSpec(svc, s).traffic[|s.traffic|..];
      |tr| == 6 && tr[0] == EcCommand(0xE0) && tr[5] == EcReceive(svc.ecResponse) &&
      forall i :: 1 <= i <= 4 ==> tr[i] == EcData(TimeByte(EcTime(svc.time.value), i - 1))
  {
    if svc.time.Some? {
      var tr := SendTimeSpec(svc, s).traffic[|s.traffic|..];
      assert tr == SendTimeTraffic(svc);
    }
  }

  /** The time goes to the EC exactly when bit 0 of EC RAM 0x79 is set and
      GetTime succeeds; EC RAM is only read. */
  lemma RequestsTimeSendsIff(svc: Services, s: DxeState)
    ensures var r := RequestsTimeSpec(svc, s);
      r.ecRam == s.ecRam && r.resetNotify == s.resetNotify && r.hookRegistered == s.hookRegistered &&
      r.traffic[..|s.traffic| + 1] == s.traffic + [Cmd90Read(0x79, s.ecRam[0x79])] &&
      (|r.traffic| > |s.traffic| + 1 <==> TimeRequested(s) && svc.time.Some?)
  {
    var s1 := s.(traffic := s.traffic + [Cmd90Read(EcTimeRequestAddress, s.ecRam[EcTimeRequestAddress])]);
    assert (s1.traffic + SendTimeTraffic(svc))[..|s.traffic| + 1] == s1.traffic;
  }

  /** A shutdown writes 7 to the EC's system-state register 0x76 twice; any
      other reset leaves the EC and its RAM alone. */
  lemma ResetHookTraffic(s: DxeState, resetType: ResetType)
    ensures resetType == ResetShutdown ==>
      ResetHookSpec(s, resetType).traffic == s.traffic + [Cmd91Write(0x76, 7), Cmd91Write(0x76, 7)] &&
      ResetHookSpec(s, resetType).ecRam == s.ecRam[0x76 := 7]
    ensures resetType != ResetShutdown ==> ResetHookSpec(s, resetType) == s
  {
  }

  /**
   * The hook is registered only when the protocol is found, and mResetNotify
   * records whether it was; at the end of firmware the hook is removed
   * exactly when mResetNotify is set, so a boot that ran both hooks leaves
   * no hook behind.
   */
  lemma ResetHookLifecycle(svc: Services, s: DxeState)
    ensures AfterPciEnumerationSpec(svc, s).resetNotify == svc.resetNotificationInstalled
    ensures AfterPciEnumerationSpec(svc, s).hookRegistered <==> s.hookRegistered || svc.resetNotificationInstalled
    ensures !s.hookRegistered ==>
      !EndOfFirmwareSpec(AfterPciEnumerationSpec(svc, s)).hookRegistered
    ensures !s.resetNotify ==> EndOfFirmwareSpec(s) == s
  {
  }
}
