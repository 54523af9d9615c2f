/** The RADIO peripheral's registers as the driver sees them, and the shared
    register setup the driver applies before receiving or transmitting on an
    advertising or a data channel.

    Register writes follow the usual convention of the generated register
    bindings: `write` starts from the register's reset value, so a field the
    write does not name is reset (to zero / disabled); `modify` keeps the
    fields it does not name. */
module Registers {
  import opened Bits
  import opened Phy
  import opened Pdu

  /** The hardware shortcuts the driver uses (SHORTS register). */
  datatype Short = ReadyStart | EndDisable | DisabledTxen

  /** Which of the driver's two buffers PACKETPTR designates. */
  datatype PacketPtr = RxBuffer | TxBuffer | Elsewhere

  /** The peripheral's own state machine (STATE register). */
  datatype RadioState = Disabled | RxRu | RxIdle | Rx | RxDisable | TxRu | TxIdle | Tx | TxDisable

  datatype PhyMode = Nrf1Mbit | Nrf2Mbit | Ble1Mbit | OtherMode

  /** PCNF0: S0 length in bytes, Length field and S1 length in bits. */
  datatype Pcnf0 = Pcnf0(s0Len: nat, lfLen: nat, s1Len: nat)
  /** PCNF1: maximum payload, static length, base address length, endianness, whitening. */
  datatype Pcnf1 = Pcnf1(maxLen: u8, statLen: u8, baLen: nat, bigEndian: bool, whiteEn: bool)
  /** CRCCNF: CRC length in bytes and whether the address is left out of the CRC. */
  datatype CrcCnf = CrcCnf(len: nat, skipAddr: bool)
  /** PREFIX0: the prefix bytes of logical addresses 0 to 3. */
  datatype Prefix0 = Prefix0(ap0: u8, ap1: u8, ap2: u8, ap3: u8)

  /** The registers, the DISABLED event, the CRC status and the state of the
      peripheral. `disabledInt` is the DISABLED bit of INTEN. */
  datatype Regs = Regs(
    mode: PhyMode, txPower: int,
    pcnf0: Pcnf0, pcnf1: Pcnf1, crcCnf: CrcCnf,
    crcPoly: u32, crcInit: u32,
    base0: u32, base1: u32, prefix0: Prefix0,
    txAddress: nat, rxAddresses: set<nat>,
    frequency: u8, dataWhiteIv: u8, tifs: u32,
    shorts: set<Short>, packetPtr: PacketPtr,
    disabledInt: bool, eventsDisabled: bool, crcOk: bool,
    state: RadioState)

  /** The BLE packet layout: a 1-byte S0, an 8-bit Length field, no S1. */
  const BLE_PCNF0: Pcnf0 := Pcnf0(1, 8, 0)

  /** The access address the radio sends and matches for logical address `n`:
      address 0 is BASE0 with prefix byte AP0, address 1 is BASE1 with AP1. */
  function LogicalAddress(r: Regs, n: nat): (a: u32)
    requires n <= 1
    ensures a as int / TWO_24 == (if n == 0 then r.prefix0.ap0 else r.prefix0.ap1) as int
    ensures a as int % TWO_24 == (if n == 0 then r.base0 else r.base1) as int / TWO_8
  {
    if n == 0 then OnAirAddress(r.base0, r.prefix0.ap0) else OnAirAddress(r.base1, r.prefix0.ap1)
  }

  /** What initialisation establishes and no later operation changes: BLE
      1 Mbit mode at +4 dBm, the packet and CRC configuration, and logical
      address 0 set to the advertising access address. */
  ghost predicate Initialised(r: Regs, maxPayload: nat) {
    && r.mode == Ble1Mbit && r.txPower == 4
    && maxPayload <= 255 && r.pcnf1 == Pcnf1(maxPayload as u8, 0, 3, false, true)
    && r.crcCnf == CrcCnf(3, true)
    && r.crcPoly == Mask24(CRC_POLY)
    && r.base0 == AccessAddressBase(ACCESS_ADDRESS)
    && r.prefix0.ap0 == AccessAddressPrefix(ACCESS_ADDRESS)
  }

  /** Initialised registers send and match the advertising access address on
      logical address 0. */
  lemma InitialisedAdvertisingAddress(r: Regs, maxPayload: nat)
    requires Initialised(r, maxPayload)
    ensures LogicalAddress(r, 0) == ACCESS_ADDRESS
  {
    AccessAddressSplit(ACCESS_ADDRESS);
  }

  /** The registers `prepare_txrx_advertising` leaves: the DISABLED event is
      acknowledged and, when the radio was not disabled, a DISABLE task is
      issued and waited for (which raises the event again); then the packet
      layout, whitening seed, advertising CRC seed and frequency are written. */
  function AdvertisingSetup(r: Regs, ch: AdvertisingChannel): (s: Regs)
    ensures s.state == Disabled
    ensures s.eventsDisabled == (r.state != Disabled)
    ensures s.crcInit == CRC_PRESET && s.pcnf0 == BLE_PCNF0
    ensures 2400 + s.frequency as int == AdvertisingFreq(ch)
    ensures s.dataWhiteIv == AdvertisingWhiteningIv(ch)
    ensures LogicalAddress(s, 0) == LogicalAddress(r, 0) && LogicalAddress(s, 1) == LogicalAddress(r, 1)
    ensures s.shorts == r.shorts && s.packetPtr == r.packetPtr && s.disabledInt == r.disabledInt
  {
    var acked := r.(eventsDisabled := false);
    var idle := if acked.state != Disabled then acked.(state := Disabled, eventsDisabled := true) else acked;
    idle.(pcnf0 := BLE_PCNF0,
          dataWhiteIv := AdvertisingWhiteningIv(ch),
          crcInit := CRC_PRESET,
          frequency := FrequencyRegister(AdvertisingFreq(ch)))
  }

  /** The registers `prepare_txrx_data` leaves: the packet layout, whitening
      seed, the connection's CRC seed cut to 24 bits, the frequency, and
      logical address 1 set to the connection's access address. AP1 is
      written without disturbing AP0 (see `DataSetupAsWritten`). */
  function DataSetup(r: Regs, ch: DataChannel, accessAddress: u32, crcInit: u32): (s: Regs)
    ensures s.crcInit as int < TWO_24 && (crcInit as int - s.crcInit as int) % TWO_24 == 0
    ensures 2400 + s.frequency as int == DataFreq(ch)
    ensures s.dataWhiteIv == DataWhiteningIv(ch)
    ensures LogicalAddress(s, 1) == accessAddress
    ensures LogicalAddress(s, 0) == LogicalAddress(r, 0)
    ensures s.state == r.state && s.eventsDisabled == r.eventsDisabled && s.shorts == r.shorts
  {
    AccessAddressSplit(accessAddress);
    r.(pcnf0 := BLE_PCNF0,
       dataWhiteIv := DataWhiteningIv(ch),
       crcInit := Mask24(crcInit),
       frequency := FrequencyRegister(DataFreq(ch)),
       base1 := AccessAddressBase(accessAddress),
       prefix0 := r.prefix0.(ap1 := AccessAddressPrefix(accessAddress)))
  }

  /** `prepare_txrx_data` as written: PREFIX0 is written with only AP1 named,
      so AP0, AP2 and AP3 return to their reset value 0. */
  function DataSetupAsWritten(r: Regs, ch: DataChannel, accessAddress: u32, crcInit: u32): (s: Regs)
    ensures s.prefix0 == Prefix0(0, AccessAddressPrefix(accessAddress), 0, 0)
    ensures LogicalAddress(s, 1) == accessAddress
  {
    AccessAddressSplit(accessAddress);
    r.(pcnf0 := BLE_PCNF0,
       dataWhiteIv := DataWhiteningIv(ch),
       crcInit := Mask24(crcInit),
       frequency := FrequencyRegister(DataFreq(ch)),
       base1 := AccessAddressBase(accessAddress),
       prefix0 := Prefix0(0, AccessAddressPrefix(accessAddress), 0, 0))
  }

  /** As written, entering a connection clears the top byte of the advertising
      access address, and a later advertising setup does not restore it: the
      radio would then advertise and listen on 0x0089_BED6 instead of
      0x8E89_BED6. */
  lemma DataSetupAsWrittenLosesAdvertisingAddress(r: Regs, ch: DataChannel, aa: u32, crc: u32, adv: AdvertisingChannel)
    requires LogicalAddress(r, 0) == ACCESS_ADDRESS
    ensures LogicalAddress(DataSetupAsWritten(r, ch, aa, crc), 0) == 0x0089_BED6
    ensures LogicalAddress(AdvertisingSetup(DataSetupAsWritten(r, ch, aa, crc), ch := adv), 0) != ACCESS_ADDRESS
  {
    var s := DataSetupAsWritten(r, ch, aa, crc);
    assert r.base0 as int / TWO_8 == 0x89_BED6;
    assert s.base0 == r.base0;
  }

  /** Setting up a connection keeps every initial configuration, in particular
      the advertising access address on logical address 0. */
  lemma DataSetupKeepsInitialised(r: Regs, maxPayload: nat, ch: DataChannel, aa: u32, crc: u32)
    requires Initialised(r, maxPayload)
    ensures Initialised(DataSetup(r, ch, aa, crc), maxPayload)
  {
  }

  /** Applying the advertising setup a second time changes no configuration
      register; only the DISABLED event, which the first call may leave
      raised, is acknowledged by the second. */
  lemma AdvertisingSetupIdempotent(r: Regs, ch: AdvertisingChannel)
    ensures AdvertisingSetup(AdvertisingSetup(r, ch), ch) == AdvertisingSetup(r, ch).(eventsDisabled := false)
  {
  }

  /** Applying the data setup a second time changes nothing. */
  lemma DataSetupIdempotent(r: Regs, ch: DataChannel, aa: u32, crc: u32)
    ensures DataSetup(DataSetup(r, ch, aa, crc), ch, aa, crc) == DataSetup(r, ch, aa, crc)
  {
  }
}
