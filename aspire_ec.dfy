// The embedded controller's index I/O window of the Acer Aspire VN7-572G:
// a high-address port, a low-address port and a data port in front of the
// EC's 64 KiB register space, with the ADC latching a sample when its
// control register is written with the start bit.

module AspireEc {
  import opened Uefi

  const EcIndexIoPort: nat := 0x1200
  const HighAddrPort: nat := EcIndexIoPort + 1
  const LowAddrPort: nat := EcIndexIoPort + 2
  const DataPort: nat := EcIndexIoPort + 3

  /** EC registers used by the ADC read. */
  const Addaen: nat := 0xFF15
  const Adctrl: nat := 0xFF18
  const Adcdat: nat := 0xFF19
  const Ecif: nat := 0xFF1A

  const EcSpaceSize: nat := 0x1_0000

  /** One IoWrite8 or IoRead8 as it appears on the bus. */
  datatype PortAccess = Out(port: nat, value: bv8) | In(port: nat, value: bv8)

  /** What the converter leaves in ADCDAT and ECIF for a given ADCTRL value. */
  datatype AdcSample = AdcSample(adcdat: bv8, ecif: bv8)

  type Sampler = bv8 -> AdcSample

  /** The EC's register space. */
  type Ram = r: seq<bv8> | |r| == EcSpaceSize witness seq(EcSpaceSize, _ => 0)

  datatype EcState = EcState(highAddr: Byte, lowAddr: Byte, ram: Ram, log: seq<PortAccess>)

  /**
   * The EC register the two address ports select. Every register the board
   * code touches sits at 0xFF00 + low, with 0xFF on the high port.
   */
  function Address(s: EcState): (a: nat)
    ensures a < EcSpaceSize
  {
    s.highAddr * 0x100 + s.lowAddr
  }

  /** A byte written to the data port, with the converter's start bit. */
  function StoreData(sample: Sampler, ram: Ram, address: nat, value: bv8): (r: Ram)
    requires address < EcSpaceSize
  {
    var stored := ram[address := value];
    if address == Adctrl && value & 1 == 1
    then stored[Adcdat := sample(value).adcdat][Ecif := sample(value).ecif]
    else stored
  }

  /** IoWrite8 on the window; other ports are logged and otherwise ignored. */
  function PortWrite(sample: Sampler, s: EcState, port: nat, value: bv8): (r: EcState)
    ensures r.log == s.log + [Out(port, value)]
  {
    var s1 := s.(log := s.log + [Out(port, value)]);
    if port == HighAddrPort then s1.(highAddr := value as nat)
    else if port == LowAddrPort then s1.(lowAddr := value as nat)
    else if port == DataPort then s1.(ram := StoreData(sample, s.ram, Address(s), value))
    else s1
  }

  /** IoRead8 on the window; other ports float high. */
  function PortRead(s: EcState, port: nat): (r: (bv8, EcState))
    ensures r.1 == s.(log := s.log + [In(port, r.0)])
    ensures port == DataPort ==> r.0 == s.ram[Address(s)]
  {
    var value := if port == DataPort then s.ram[Address(s)] else 0xFF;
    (value, s.(log := s.log + [In(port, value)]))
  }

  /** The EC as the firmware sees it: the window's state and the converter. */
  class EcIndexIo {
    var state: EcState
    const sample: Sampler

    function State(): EcState
      reads this
    {
      state
    }

    constructor (ram0: Ram, sampler: Sampler)
      ensures State() == EcState(0, 0, ram0, []) && sample == sampler
    {
      state := EcState(0, 0, ram0, []);
      sample := sampler;
    }

    method IoWrite8(port: nat, value: bv8)
      modifies this
      ensures State() == PortWrite(sample, old(State()), port, value)
    {
      var s1 := state.(log := state.log + [Out(port, value)]);
      if port == DataPort {
        state := s1.(ram := StoreData(sample, state.ram, Address(state), value));
      } else if port == HighAddrPort {
        state := s1.(highAddr := value as nat);
      } else if port == LowAddrPort {
        state := s1.(lowAddr := value as nat);
      } else {
        state := s1;
      }
    }

    method IoRead8(port: nat) returns (value: bv8)
      modifies this
      ensures value == PortRead(old(State()), port).0
      ensures State() == PortRead(old(State()), port).1
    {
      value := if port == DataPort then state.ram[Address(state)] else 0xFF;
      state := state.(log := state.log + [In(port, value)]);
    }
  }
}
