// Board detection of the Acer Aspire VN7-572G: a 10-bit EC ADC reading of
// the model-ID divider picks the SKU.

module AspireDetect {
  import opened Uefi
  import opened AspireEc

  /** ADC channels of the two resistor dividers. */
  const PcbVerAd: bv8 := 1
  const ModelIdAd: bv8 := 3

  /** (3005/1023) in C integer arithmetic. */
  const AdcGranularityMax: nat := 3005 / 1023

  /** The SKU codes of the two boards (defined outside this file). */
  datatype BoardIdCodes = BoardIdCodes(newgate: Byte, rayleigh: Byte)

  /** ADDAEN is a bit mask: (1 << Adc) & 0xf. */
  function EnableMask(adc: bv8): bv8 {
    if adc < 4 then (1 as bv8) << adc else 0
  }

  /** ADCTRL holds the channel number above the start bit: ((Adc << 1) & 0xf) | 1. */
  function ControlValue(adc: bv8): bv8 {
    ((adc << 1) & 0xF) | 1
  }

  /** (ADCDAT << 2) | (ECIF & 0xc0), as the code composes the sample. */
  function AdcValue(v: AdcSample): bv16 {
    ((v.adcdat as bv16) << 2) | ((v.ecif & 0xC0) as bv16)
  }

  /** The composition the comment describes: ECIF bits 7:6 become bits 1:0. */
  function IntendedAdcValue(v: AdcSample): bv16 {
    ((v.adcdat as bv16) << 2) | (((v.ecif & 0xC0) >> 6) as bv16)
  }

  /** The port traffic of storing `value` in EC register 0xFF00 + low. */
  function WriteTrace(low: bv8, value: bv8): seq<PortAccess> {
    [Out(HighAddrPort, 0xFF), Out(LowAddrPort, low), Out(DataPort, value)]
  }

  /** The port traffic of fetching `value` from EC register 0xFF00 + low. */
  function ReadTrace(low: bv8, value: bv8): seq<PortAccess> {
    [Out(HighAddrPort, 0xFF), Out(LowAddrPort, low), In(DataPort, value)]
  }

  /** The EC after 0xFF and `low` on the address ports and `value` on the data port. */
  function RegisterWrite(sample: Sampler, s: EcState, low: bv8, value: bv8): (r: EcState)
    ensures Address(r) == 0xFF00 + low as nat
  {
    EcState(0xFF, low as nat, StoreData(sample, s.ram, 0xFF00 + low as nat, value),
            s.log + WriteTrace(low, value))
  }

  /** What the data port returns once 0xFF and `low` are on the address ports. */
  function RegisterRead(s: EcState, low: bv8): bv8 {
    s.ram[0xFF00 + low as nat]
  }

  /** The EC after that read. */
  function AfterRead(s: EcState, low: bv8): (r: EcState)
    ensures Address(r) == 0xFF00 + low as nat
  {
    EcState(0xFF, low as nat, s.ram, s.log + ReadTrace(low, RegisterRead(s, low)))
  }

  /** ReadEcAdcConverter up to and including the start of the sample. */
  function Sampled(sample: Sampler, adc: bv8, s: EcState): EcState {
    var enabled := RegisterRead(s, 0x15);
    var s1 := AfterRead(s, 0x15);
    var s2 := RegisterWrite(sample, s1, 0x15, enabled | EnableMask(adc));
    RegisterWrite(sample, s2, 0x18, ControlValue(adc))
  }

  /** The value ReadEcAdcConverter leaves in `*DataBuffer`. */
  function ReadEcAdcValue(sample: Sampler, adc: bv8, s: EcState): bv16 {
    var s3 := Sampled(sample, adc, s);
    var adcdat := RegisterRead(s3, 0x19);
    var ecif := RegisterRead(AfterRead(s3, 0x19), 0x1A);
    ((adcdat as bv16) << 2) | ((ecif & 0xC0) as bv16)
  }

  /** The EC after ReadEcAdcConverter. */
  function ReadEcAdcState(sample: Sampler, adc: bv8, s: EcState): EcState {
    var enabled := RegisterRead(s, 0x15);
    var s4 := AfterRead(Sampled(sample, adc, s), 0x19);
    var s5 := AfterRead(s4, 0x1A);
    RegisterWrite(sample, s5, 0x15, enabled)
  }

  /** The bus traffic of one ADC read. */
  function AdcTrace(adc: bv8, enabled: bv8, v: AdcSample): seq<PortAccess> {
    ReadTrace(0x15, enabled) + WriteTrace(0x15, enabled | EnableMask(adc)) +
    WriteTrace(0x18, ControlValue(adc)) + ReadTrace(0x19, v.adcdat) +
    ReadTrace(0x1A, v.ecif) + WriteTrace(0x15, enabled)
  }

  /**
   * The model-ID thresholds, in volts over a 10-bit 3.005 V range: up to
   * 1.374 V is reserved (None), up to 2.017 V is Newgate, above is Rayleigh.
   */
  function ClassifyModelId(value: nat, codes: BoardIdCodes): Option<Byte> {
    if value <= 1374 / AdcGranularityMax then None
    else if value <= 2017 / AdcGranularityMax then Some(codes.newgate)
    else Some(codes.rayleigh)
  }

  /** GetAspireVn7Dash572GBoardId: the board id left in `*BoardId`. */
  function BoardIdOf(sample: Sampler, codes: BoardIdCodes, boardId: Byte, s: EcState): Byte {
    match ClassifyModelId(ReadEcAdcValue(sample, ModelIdAd, s) as nat, codes)
    case None => boardId
    case Some(code) => code
  }

  /** GetAspireVn7Dash572GBoardId: the EC after the model-ID and the PCB-version reads. */
  function BoardIdState(sample: Sampler, s: EcState): EcState {
    ReadEcAdcState(sample, PcbVerAd, ReadEcAdcState(sample, ModelIdAd, s))
  }

  /** AspireVn7Dash572GBoardDetect: the SKU it leaves, from the SKU it finds. */
  function DetectedSku(sample: Sampler, codes: BoardIdCodes, sku: nat, staleBoardId: Byte,
                       s: EcState): nat
  {
    if sku != 0 then sku
    else
      var id := BoardIdOf(sample, codes, staleBoardId, s);
      if id == codes.rayleigh then codes.rayleigh as nat
      else if id == codes.newgate then codes.newgate as nat
      else sku
  }

  /** AspireVn7Dash572GBoardDetect: the EC afterwards. */
  function DetectState(sample: Sampler, sku: nat, s: EcState): EcState {
    if sku != 0 then s else BoardIdState(sample, s)
  }

  /** The three port writes that store a byte in EC register 0xFF00 + low. */
  method EcWrite(ec: EcIndexIo, low: bv8, value: bv8)
    modifies ec
    ensures ec.State() == RegisterWrite(ec.sample, old(ec.State()), low, value)
  {
    ghost var log := ec.State().log;
    ec.IoWrite8(HighAddrPort, 0xFF);
    ec.IoWrite8(LowAddrPort, low);
    ec.IoWrite8(DataPort, value);
    ThreeAccesses(log, Out(HighAddrPort, 0xFF), Out(LowAddrPort, low), Out(DataPort, value));
  }

  /** The two port writes and the port read that fetch EC register 0xFF00 + low. */
  method EcRead(ec: EcIndexIo, low: bv8) returns (value: bv8)
    modifies ec
    ensures value == RegisterRead(old(ec.State()), low)
    ensures ec.State() == AfterRead(old(ec.State()), low)
  {
    ghost var log := ec.State().log;
    ec.IoWrite8(HighAddrPort, 0xFF);
    ec.IoWrite8(LowAddrPort, low);
    value := ec.IoRead8(DataPort);
    ThreeAccesses(log, Out(HighAddrPort, 0xFF), Out(LowAddrPort, low), In(DataPort, value));
  }

  /** The first half of ReadEcAdcConverter: back up ADDAEN, enable the channel, start a sample. */
  method StartAdcSample(ec: EcIndexIo, adc: bv8) returns (adcConvertersEnabled: bv8)
    modifies ec
    ensures adcConvertersEnabled == RegisterRead(old(ec.State()), 0x15)
    ensures ec.State() == Sampled(ec.sample, adc, old(ec.State()))
  {
    // Back up the enabled converters (ADDAEN), then enable the requested one.
    adcConvertersEnabled := EcRead(ec, 0x15);
    EcWrite(ec, 0x15, adcConvertersEnabled | EnableMask(adc));
    // Start a sample (ADCTRL).
    EcWrite(ec, 0x18, ControlValue(adc));
  }

  method ReadEcAdcConverter(ec: EcIndexIo, adc: bv8) returns (status: EfiStatus, dataBuffer: bv16)
    modifies ec
    ensures status == Success
    ensures dataBuffer == ReadEcAdcValue(ec.sample, adc, old(ec.State()))
    ensures ec.State() == ReadEcAdcState(ec.sample, adc, old(ec.State()))
  {
    var adcConvertersEnabled := StartAdcSample(ec, adc);
    // Read the sample (ADCDAT, then ECIF).
    var adcdat := EcRead(ec, 0x19);
    dataBuffer := (adcdat as bv16) << 2;
    var ecif := EcRead(ec, 0x1A);
    dataBuffer := dataBuffer | ((ecif & 0xC0) as bv16);
    // Restore ADDAEN.
    EcWrite(ec, 0x15, adcConvertersEnabled);
    return Success, dataBuffer;
  }

  method GetAspireVn7Dash572GBoardId(ec: EcIndexIo, codes: BoardIdCodes, boardId: Byte)
    returns (status: EfiStatus, boardIdOut: Byte)
    modifies ec
    ensures status == Success
    ensures boardIdOut == BoardIdOf(ec.sample, codes, boardId, old(ec.State()))
    ensures ec.State() == BoardIdState(ec.sample, old(ec.State()))
  {
    boardIdOut := boardId;
    var dataBuffer;
    status, dataBuffer := ReadEcAdcConverter(ec, ModelIdAd);
    if status == Success {
      if dataBuffer as nat <= 1374 / AdcGranularityMax {
        // Reserved: *BoardId is left as it was.
      } else if dataBuffer as nat <= 2017 / AdcGranularityMax {
        boardIdOut := codes.newgate;
      } else {
        boardIdOut := codes.rayleigh;
      }
    }
    assert boardIdOut == BoardIdOf(ec.sample, codes, boardId, old(ec.State()));
    status, dataBuffer := ReadEcAdcConverter(ec, PcbVerAd);
  }

  /**
   * AspireVn7Dash572GBoardDetect. The SKU PCD is passed in and out;
   * `staleBoardId` is what the uninitialised local BoardId holds.
   */
  method AspireVn7Dash572GBoardDetect(ec: EcIndexIo, codes: BoardIdCodes, sku: nat, staleBoardId: Byte)
    returns (status: EfiStatus, skuOut: nat)
    modifies ec
    ensures status == Success
    ensures skuOut == DetectedSku(ec.sample, codes, sku, staleBoardId, old(ec.State()))
    ensures ec.State() == DetectState(ec.sample, sku, old(ec.State()))
  {
    skuOut := sku;
    if sku != 0 {
      return Success, skuOut;
    }
    var st, boardId := GetAspireVn7Dash572GBoardId(ec, codes, staleBoardId);
    if st == Success {
      if boardId == codes.rayleigh {
        skuOut := codes.rayleigh as nat;
      } else if boardId == codes.newgate {
        skuOut := codes.newgate as nat;
      }
    }
    return Success, skuOut;
  }

  // ---------------------------------------------------------------------
  // Properties.

  /**
   * One ADC read restores ADDAEN, leaves the converter's sample for the
   * requested channel in ADCDAT and ECIF, composes the result from that
   * sample, and puts exactly the expected traffic on the bus.
   */
  lemma ReadEcAdcOutcome(sample: Sampler, adc: bv8, s: EcState)
    ensures var s' := ReadEcAdcState(sample, adc, s);
      var v := sample(ControlValue(adc));
      s'.ram[Addaen] == s.ram[Addaen] &&
      s'.ram == s.ram[Adctrl := ControlValue(adc)][Adcdat := v.adcdat][Ecif := v.ecif] &&
      ReadEcAdcValue(sample, adc, s) == AdcValue(v) &&
      s'.log == s.log + AdcTrace(adc, s.ram[Addaen], v) &&
      Address(s') == Addaen
  {
    ReadEcAdcRam(sample, adc, s);
    ReadEcAdcLog(sample, adc, s);
  }

  lemma ReadEcAdcRam(sample: Sampler, adc: bv8, s: EcState)
    ensures var v := sample(ControlValue(adc));
      ReadEcAdcState(sample, adc, s).ram
        == s.ram[Adctrl := ControlValue(adc)][Adcdat := v.adcdat][Ecif := v.ecif]
    ensures ReadEcAdcValue(sample, adc, s) == AdcValue(sample(ControlValue(adc)))
  {
    var v := sample(ControlValue(adc));
    var c := ControlValue(adc);
    var e := s.ram[Addaen];
    SampledRam(sample, adc, s);
    var r3 := Sampled(sample, adc, s).ram;
    assert ReadEcAdcState(sample, adc, s).ram == r3[Addaen := e];
    RestoreFirstUpdate(s.ram, Addaen, e | EnableMask(adc), Adctrl, c, Adcdat, v.adcdat, Ecif, v.ecif);
  }

  /** Starting the sample: ADDAEN holds the enabled set, ADCTRL the control value, and the sample is latched. */
  lemma SampledRam(sample: Sampler, adc: bv8, s: EcState)
    ensures var v := sample(ControlValue(adc));
      Sampled(sample, adc, s).ram
        == s.ram[Addaen := s.ram[Addaen] | EnableMask(adc)][Adctrl := ControlValue(adc)]
                [Adcdat := v.adcdat][Ecif := v.ecif]
  {
    assert ControlValue(adc) & 1 == 1;
  }

  lemma RestoreFirstUpdate<T>(r: seq<T>, a: nat, x: T, b: nat, y: T, c: nat, z: T, d: nat, w: T)
    requires a < |r| && b < |r| && c < |r| && d < |r| && a != b && a != c && a != d
    ensures r[a := x][b := y][c := z][d := w][a := r[a]] == r[b := y][c := z][d := w]
  {
  }

  lemma ReadEcAdcLog(sample: Sampler, adc: bv8, s: EcState)
    ensures ReadEcAdcState(sample, adc, s).log
         == s.log + AdcTrace(adc, s.ram[Addaen], sample(ControlValue(adc)))
  {
    var v := sample(ControlValue(adc));
    var e := s.ram[Addaen];
    SampledLog(sample, adc, s);
    FinishLog(sample, adc, s);
    TraceAssoc(s.log, ReadTrace(0x15, e), WriteTrace(0x15, e | EnableMask(adc)), WriteTrace(0x18, ControlValue(adc)),
               ReadTrace(0x19, v.adcdat), ReadTrace(0x1A, v.ecif), WriteTrace(0x15, e));
  }

  /** The traffic up to the start of the sample. */
  lemma SampledLog(sample: Sampler, adc: bv8, s: EcState)
    ensures var e := s.ram[Addaen];
      Sampled(sample, adc, s).log
        == s.log + ReadTrace(0x15, e) + WriteTrace(0x15, e | EnableMask(adc)) + WriteTrace(0x18, ControlValue(adc))
  {
  }

  /** The traffic after the start of the sample: both halves of the sample are read back. */
  lemma FinishLog(sample: Sampler, adc: bv8, s: EcState)
    ensures var v := sample(ControlValue(adc));
      ReadEcAdcState(sample, adc, s).log
        == Sampled(sample, adc, s).log + ReadTrace(0x19, v.adcdat) + ReadTrace(0x1A, v.ecif)
           + WriteTrace(0x15, s.ram[Addaen])
  {
    SampledRam(sample, adc, s);
  }

  lemma TraceAssoc<T>(l: seq<T>, t1: seq<T>, t2: seq<T>, t3: seq<T>, t4: seq<T>, t5: seq<T>, t6: seq<T>)
    ensures l + t1 + t2 + t3 + t4 + t5 + t6 == l + (t1 + t2 + t3 + t4 + t5 + t6)
  {
    AppendAssoc(l, t1, t2);
    AppendAssoc(l, t1 + t2, t3);
    AppendAssoc(l, t1 + t2 + t3, t4);
    AppendAssoc(l, t1 + t2 + t3 + t4, t5);
    AppendAssoc(l, t1 + t2 + t3 + t4 + t5, t6);
  }

  lemma ThreeAccesses(log: seq<PortAccess>, a: PortAccess, b: PortAccess, c: PortAccess)
    ensures log + [a] + [b] + [c] == log + [a, b, c]
  {
  }

  lemma AppendAssoc<T>(a: seq<T>, b: seq<T>, c: seq<T>)
    ensures a + b + c == a + (b + c)
  {
  }

  /** The enable and control values for the two channels the board reads. */
  lemma ChannelRegisters()
    ensures EnableMask(ModelIdAd) == 0x08 && ControlValue(ModelIdAd) == 0x07
    ensures EnableMask(PcbVerAd) == 0x02 && ControlValue(PcbVerAd) == 0x03
  {
  }

  /** The composed value fits in ten bits. */
  lemma AdcValueTenBits(v: AdcSample)
    ensures AdcValue(v) as nat <= 0x3FF
  {
  }

  /**
   * As written, ECIF's bits 7:6 fall on the same result bits as ADCDAT's
   * bits 5:4, so two different readings give the same value.
   */
  lemma AdcValueCollides()
    ensures AdcValue(AdcSample(0x30, 0x00)) == AdcValue(AdcSample(0x00, 0xC0)) == 0xC0
  {
  }

  /**
   * The intended composition keeps both parts apart: ADCDAT is bits 9:2
   * and ECIF's bits 7:6 are bits 1:0, so the reading can be recovered.
   */
  lemma IntendedAdcValueSeparates(v: AdcSample)
    ensures IntendedAdcValue(v) as nat <= 0x3FF
    ensures IntendedAdcValue(v) >> 2 == v.adcdat as bv16
    ensures IntendedAdcValue(v) & 3 == ((v.ecif & 0xC0) >> 6) as bv16
  {
  }

  /** The difference decides the board: this reading is Newgate as written, reserved as intended. */
  lemma CollisionChangesClassification(codes: BoardIdCodes)
    ensures ClassifyModelId(AdcValue(AdcSample(0xAB, 0xC0)) as nat, codes) == Some(codes.newgate)
    ensures ClassifyModelId(IntendedAdcValue(AdcSample(0xAB, 0xC0)) as nat, codes) == None
  {
    assert AdcValue(AdcSample(0xAB, 0xC0)) == 0x2EC;
    assert IntendedAdcValue(AdcSample(0xAB, 0xC0)) == 0x2AF;
  }

  /** The granularity divides to 2, which puts the thresholds at 687 and 1008. */
  lemma ClassifyThresholds(value: nat, codes: BoardIdCodes)
    ensures ClassifyModelId(value, codes) == None <==> value <= 687
    ensures ClassifyModelId(value, codes) == Some(codes.newgate) <== 687 < value <= 1008
    ensures ClassifyModelId(value, codes) == Some(codes.rayleigh) <== 1008 < value
  {
  }

  /**
   * GetAspireVn7Dash572GBoardId sets the board id from the converter's
   * model-ID sample (ADCTRL 0x07) unless that reading is reserved, and
   * then does the PCB-version read (ADCTRL 0x03), so the EC ends up with
   * the second sample latched, ADDAEN as it was and both reads on the bus.
   */
  lemma GetBoardIdOutcome(sample: Sampler, codes: BoardIdCodes, boardId: Byte, s: EcState)
    ensures BoardIdOf(sample, codes, boardId, s)
         == match ClassifyModelId(AdcValue(sample(0x07)) as nat, codes)
            case None => boardId
            case Some(c) => c
    ensures var s' := BoardIdState(sample, s);
      var pcb := sample(0x03);
      s'.ram == s.ram[Adctrl := 0x03][Adcdat := pcb.adcdat][Ecif := pcb.ecif] &&
      s'.log == s.log + AdcTrace(ModelIdAd, s.ram[Addaen], sample(0x07))
                      + AdcTrace(PcbVerAd, s.ram[Addaen], pcb)
  {
    ChannelRegisters();
    ReadEcAdcOutcome(sample, ModelIdAd, s);
    var s1 := ReadEcAdcState(sample, ModelIdAd, s);
    ReadEcAdcOutcome(sample, PcbVerAd, s1);
    var pcb := sample(0x03);
    assert s1.ram[Addaen] == s.ram[Addaen];
    assert BoardIdState(sample, s).ram
        == s.ram[Adctrl := 0x07][Adcdat := sample(0x07).adcdat][Ecif := sample(0x07).ecif]
                [Adctrl := 0x03][Adcdat := pcb.adcdat][Ecif := pcb.ecif];
  }

  /**
   * Board detection leaves a nonzero SKU and the EC alone. Otherwise it
   * always succeeds, only ever sets the SKU to one of the two board codes,
   * and takes the code from a non-reserved model-ID reading; after a
   * reserved reading the SKU depends on what BoardId held before the call.
   */
  lemma BoardDetectOutcome(sample: Sampler, codes: BoardIdCodes, sku: nat, staleBoardId: Byte, s: EcState)
    ensures sku != 0 ==> DetectedSku(sample, codes, sku, staleBoardId, s) == sku && DetectState(sample, sku, s) == s
    ensures var sku' := DetectedSku(sample, codes, sku, staleBoardId, s);
      sku' != sku ==> sku' == codes.rayleigh as nat || sku' == codes.newgate as nat
    ensures var reading := ClassifyModelId(AdcValue(sample(0x07)) as nat, codes);
      sku == 0 && reading.Some? ==> DetectedSku(sample, codes, sku, staleBoardId, s) == reading.value as nat
    ensures var reading := ClassifyModelId(AdcValue(sample(0x07)) as nat, codes);
      sku == 0 && reading.None? ==>
        DetectedSku(sample, codes, sku, staleBoardId, s)
        == if staleBoardId == codes.rayleigh then codes.rayleigh as nat
           else if staleBoardId == codes.newgate then codes.newgate as nat
           else 0
  {
    GetBoardIdOutcome(sample, codes, staleBoardId, s);
  }

  /**
   * The uninitialised BoardId decides the SKU: with a reserved model-ID
   * reading, a stack byte that happens to equal the Rayleigh code sets
   * the Rayleigh SKU.
   */
  lemma StaleBoardIdDecidesSku(sample: Sampler, codes: BoardIdCodes, s: EcState)
    requires ClassifyModelId(AdcValue(sample(0x07)) as nat, codes).None?
    ensures DetectedSku(sample, codes, 0, codes.rayleigh, s) == codes.rayleigh as nat
  {
    BoardDetectOutcome(sample, codes, 0, codes.rayleigh, s);
  }

  /**
   * Board detection as intended: a reserved model-ID reading leaves the SKU
   * as it was, as it would with BoardId initialised to a value that is
   * neither board code.
   */
  function IntendedDetectedSku(sample: Sampler, codes: BoardIdCodes, sku: nat, s: EcState): nat {
    if sku != 0 then sku
    else match ClassifyModelId(ReadEcAdcValue(sample, ModelIdAd, s) as nat, codes)
         case None => sku
         case Some(code) => code as nat
  }

  /**
   * The intended detection agrees with the code whenever the reading is not
   * reserved, whatever BoardId held, and never changes the SKU otherwise.
   */
  lemma IntendedDetectIgnoresStaleId(sample: Sampler, codes: BoardIdCodes, sku: nat, staleBoardId: Byte, s: EcState)
    ensures var reading := ClassifyModelId(AdcValue(sample(0x07)) as nat, codes);
      (sku != 0 || reading.Some?) ==>
        IntendedDetectedSku(sample, codes, sku, s) == DetectedSku(sample, codes, sku, staleBoardId, s)
    ensures var reading := ClassifyModelId(AdcValue(sample(0x07)) as nat, codes);
      reading.None? ==> IntendedDetectedSku(sample, codes, sku, s) == sku
  {
    BoardDetectOutcome(sample, codes, sku, staleBoardId, s);
    ReadEcAdcOutcome(sample, ModelIdAd, s);
    ChannelRegisters();
  }
}
