/** The nRF radio in BLE mode (`BleRadio`): it owns the RADIO peripheral's
    registers, the transmit buffer and, except while a link-layer callback
    runs, the receive buffer.

    The peripheral runs on its own once a task is triggered. Where the driver
    busy-waits for it, the model takes the awaited condition to hold when the
    wait ends: after a DISABLE task and its wait the radio is disabled and the
    DISABLED event is raised; after a transmission started with TXEN and its
    wait, the packet has been sent and the radio is disabled again. */
module Radio {
  import opened Bits
  import opened Phy
  import opened Pdu
  import opened Registers
  import opened Link

  /** T_IFS, the inter frame space, in microseconds. */
  const T_IFS: u32 := 150

  /** The registers after the disable sequence that starts every
      reconfiguration: the DISABLED interrupt is off, the radio is disabled
      and its DISABLED event acknowledged. */
  function Quiesced(r: Regs): (s: Regs)
    ensures s.state == Disabled && !s.eventsDisabled && !s.disabledInt
  {
    r.(disabledInt := false, eventsDisabled := false, state := Disabled)
  }

  /** The registers after `configure_receiver(ListenAdvertising(ch))`: the
      radio ramps up to receive advertising packets on `ch`, into the receive
      buffer, on the advertising access address, and raises its interrupt
      when a packet is complete. */
  function ListeningAdvertising(r: Regs, ch: AdvertisingChannel): (s: Regs)
    ensures s.state == RxRu && s.packetPtr == RxBuffer && s.disabledInt
    ensures s.rxAddresses == {0} && LogicalAddress(s, 0) == LogicalAddress(r, 0)
    ensures s.crcInit == CRC_PRESET
    ensures 2400 + s.frequency as int == AdvertisingFreq(ch) && s.dataWhiteIv == AdvertisingWhiteningIv(ch)
    ensures s.shorts == {ReadyStart, EndDisable}
  {
    AdvertisingSetup(r, ch).(packetPtr := RxBuffer, disabledInt := true, rxAddresses := {0},
                             shorts := {ReadyStart, EndDisable}, state := RxRu)
  }

  /** The registers after `configure_receiver(ListenData(ch, aa, crc, _))`:
      the radio ramps up to receive on `ch` with the connection's access
      address and CRC seed, enforces T_IFS in hardware, and after a packet
      turns around into transmit mode by itself. */
  function ListeningData(r: Regs, ch: DataChannel, aa: u32, crc: u32): (s: Regs)
    ensures s.state == RxRu && s.packetPtr == RxBuffer && s.disabledInt
    ensures s.rxAddresses == {1} && LogicalAddress(s, 1) == aa
    ensures LogicalAddress(s, 0) == LogicalAddress(r, 0)
    ensures s.crcInit as int < TWO_24 && (crc as int - s.crcInit as int) % TWO_24 == 0
    ensures 2400 + s.frequency as int == DataFreq(ch) && s.dataWhiteIv == DataWhiteningIv(ch)
    ensures s.tifs == 150
    ensures s.shorts == {EndDisable, DisabledTxen, ReadyStart}
  {
    DataSetup(r, ch, aa, crc).(tifs := T_IFS, packetPtr := RxBuffer, disabledInt := true,
                               rxAddresses := {1}, state := RxRu,
                               shorts := {EndDisable, DisabledTxen, ReadyStart})
  }

  /** The registers once the interrupt handler has acknowledged the DISABLED
      event; in data mode it also turns READY->START off, before the radio,
      already ramping up to transmit, would start sending on its own. */
  function Acknowledged(r: Regs, advertising: bool): (s: Regs)
    ensures !s.eventsDisabled && s.state == r.state
    ensures !advertising ==> ReadyStart !in s.shorts && s.shorts == r.shorts - {ReadyStart}
    ensures advertising ==> s.shorts == r.shorts
  {
    r.(eventsDisabled := false, shorts := if advertising then r.shorts else r.shorts - {ReadyStart})
  }

  /** The registers after `transmit_advertising` on `ch`: the packet has gone
      out from the transmit buffer on logical address 0 and the radio is
      disabled again with its DISABLED event raised. */
  function TransmittedAdvertising(r: Regs, ch: AdvertisingChannel): (s: Regs)
    ensures s.state == Disabled && s.eventsDisabled && s.packetPtr == TxBuffer
    ensures s.txAddress == 0 && LogicalAddress(s, 0) == LogicalAddress(r, 0)
    ensures s.crcInit == CRC_PRESET && 2400 + s.frequency as int == AdvertisingFreq(ch)
    ensures s.shorts == r.shorts && s.rxAddresses == r.rxAddresses
  {
    AdvertisingSetup(r, ch).(txAddress := 0, packetPtr := TxBuffer, eventsDisabled := true)
  }

  /** The registers after `transmit_data`: nothing is waited for; the radio
      will send from the transmit buffer on logical address 1 as soon as its
      ramp-up completes, and stay in TX idle afterwards since END->DISABLE is
      off. SHORTS is written whole, so DISABLED->TXEN is reset as well. */
  function ArmedData(r: Regs): (s: Regs)
    ensures s.state == r.state && s.eventsDisabled == r.eventsDisabled
    ensures s.txAddress == 1 && LogicalAddress(s, 1) == LogicalAddress(r, 1) && s.packetPtr == TxBuffer
    ensures s.shorts == {ReadyStart}
  {
    r.(txAddress := 1, packetPtr := TxBuffer, shorts := {ReadyStart})
  }

  /** The registers after a callback's transmit call, if it made one. */
  function AfterResponse(r: Regs, resp: Option<Response>): Regs {
    match resp
    case None => r
    case Some(TransmitAdvertising(_, _, ch)) => TransmittedAdvertising(r, ch)
    case Some(TransmitData(_, _, _, _, _)) => ArmedData(r)
  }

  function HeaderBytes(resp: Response): seq<u8> {
    match resp
    case TransmitAdvertising(_, h, _) => [LowByte(h.ToU16()), h.PayloadLength()]
    case TransmitData(_, _, _, h, _) => [LowByte(h.ToU16()), h.PayloadLength()]
  }

  /** The transmit buffer after a callback's transmission: the two header
      bytes, then the payload the callback copied in, then what was there. */
  function Framed(buf: seq<u8>, resp: Option<Response>): (f: seq<u8>)
    requires |buf| >= HEADER_LEN && ResponseFits(resp, |buf|)
    ensures |f| == |buf|
  {
    match resp
    case None => buf
    case Some(t) => HeaderBytes(t) + t.payload + buf[HEADER_LEN + |t.payload|..]
  }

  /** What the radio sends for a callback's advertising transmission is read
      back by the receive path as the same S0 and payload, provided the
      header's length field states the payload's length. */
  lemma {:induction false} FramedAdvertisingRoundTrip(buf: seq<u8>, p: seq<u8>, h: AdvHeader, ch: AdvertisingChannel)
    requires |buf| >= HEADER_LEN + |p| && |p| == h.PayloadLength() as int
    ensures var f := Framed(buf, Some(TransmitAdvertising(p, h, ch)));
            && ParseAdvHeader(f[0], f[1]).S0() == h.S0()
            && ReceivedPayload(f, ParseAdvHeader(f[0], f[1]).PayloadLength()) == p
  {
    var f := Framed(buf, Some(TransmitAdvertising(p, h, ch)));
    AdvHeaderRoundTrip(h);
    assert f[0] == LowByte(h.ToU16()) && f[1] == h.PayloadLength();
    assert f[HEADER_LEN..HEADER_LEN + |p|] == p;
  }

  /** The same for a data transmission: the receive path reads back the
      whole header and the payload. */
  lemma {:induction false} FramedDataRoundTrip(buf: seq<u8>, p: seq<u8>, aa: u32, crcIv: u32, h: DataHeader, ch: DataChannel)
    requires |buf| >= HEADER_LEN + |p| && |p| == h.PayloadLength() as int
    ensures var f := Framed(buf, Some(TransmitData(p, aa, crcIv, h, ch)));
            && ParseDataHeader(f[0], f[1]) == h
            && ReceivedPayload(f, ParseDataHeader(f[0], f[1]).PayloadLength()) == p
  {
    var f := Framed(buf, Some(TransmitData(p, aa, crcIv, h, ch)));
    DataHeaderRoundTrip(h);
    assert f[0] == LowByte(h.ToU16()) && f[1] == h.PayloadLength();
    assert f[HEADER_LEN..HEADER_LEN + |p|] == p;
  }

  class BleRadio {
    /** True on an advertising channel, false on a data channel. */
    var advertising: bool
    var radio: Regs
    const txBuf: array<u8>
    /** Taken out while a link-layer callback runs, present otherwise. */
    var rxBuf: Option<array<u8>>

    /** The configuration initialisation establishes for the buffers' size. */
    ghost predicate Configured()
      reads this
    {
      2 <= txBuf.Length && Initialised(radio, txBuf.Length - HEADER_LEN)
    }

    /** Between calls: configured, and holding a receive buffer distinct from
        the transmit buffer and of the same size. */
    ghost predicate Valid()
      reads this
    {
      Configured() && rxBuf.Some? && rxBuf.value != txBuf && rxBuf.value.Length == txBuf.Length
    }

    /** `BleRadio::new`: takes the disabled peripheral and both buffers, sets
        BLE 1 Mbit mode, the packet and CRC configuration, the advertising
        access address on logical address 0 and the READY->START and
        END->DISABLE shortcuts. */
    constructor (regs: Regs, tx: array<u8>, rx: array<u8>)
      requires regs.state == Disabled
      requires tx != rx && tx.Length == rx.Length
      requires 2 <= rx.Length && rx.Length - 2 <= 255
      ensures Valid() && txBuf == tx && rxBuf == Some(rx) && !advertising
      ensures radio.pcnf1.maxLen as int == rx.Length - 2
      ensures LogicalAddress(radio, 0) == ACCESS_ADDRESS
      ensures radio == regs.(mode := Ble1Mbit, txPower := 4,
                             pcnf1 := Pcnf1((rx.Length - 2) as u8, 0, 3, false, true),
                             crcCnf := CrcCnf(3, true), crcPoly := Mask24(CRC_POLY),
                             base0 := AccessAddressBase(ACCESS_ADDRESS),
                             prefix0 := Prefix0(AccessAddressPrefix(ACCESS_ADDRESS), 0, 0, 0),
                             shorts := {ReadyStart, EndDisable})
    {
      var r := regs;
      r := r.(mode := Ble1Mbit);
      r := r.(txPower := 4);
      var maxPayload := rx.Length - 2;
      r := r.(pcnf1 := Pcnf1(maxPayload as u8, 0, 3, false, true));
      r := r.(crcCnf := CrcCnf(3, true));
      r := r.(crcPoly := Mask24(CRC_POLY));
      r := r.(base0 := AccessAddressBase(ACCESS_ADDRESS));
      r := r.(prefix0 := Prefix0(AccessAddressPrefix(ACCESS_ADDRESS), 0, 0, 0));
      r := r.(shorts := {ReadyStart, EndDisable});
      AccessAddressSplit(ACCESS_ADDRESS);
      advertising := false;
      radio := r;
      txBuf := tx;
      rxBuf := Some(rx);
    }

    /** The peripheral's current state. */
    function State(): (s: RadioState)
      reads this
      ensures s == radio.state
    {
      radio.state
    }

    /** `configure_receiver`: wait for an ongoing transmission (unless the
        last connection event was missed), stop the radio with the interrupt
        off, then set it up as `cmd` asks. */
    method ConfigureReceiver(cmd: RadioCmd)
      requires Valid()
      modifies this
      ensures rxBuf == old(rxBuf) && Configured() && Valid()
      ensures cmd.Off? ==> radio == Quiesced(old(radio)) && advertising == old(advertising)
      ensures cmd.ListenAdvertising? ==>
                advertising && radio == ListeningAdvertising(Quiesced(old(radio)), cmd.advChannel)
      ensures cmd.ListenData? ==>
                !advertising && radio == ListeningData(Quiesced(old(radio)), cmd.dataChannel, cmd.accessAddress, cmd.crcInit)
    {
      if cmd.ListenData? && !cmd.timeout {
        if State() == Tx || State() == TxRu {
          // the transmission ends
          var s: RadioState :| s != Tx && s != TxRu;
          radio := radio.(state := s);
        }
      }
      radio := radio.(disabledInt := false);
      radio := radio.(eventsDisabled := false);
      // TASKS_DISABLE, and the DISABLED event it is waited for
      radio := radio.(state := Disabled, eventsDisabled := true);
      radio := radio.(eventsDisabled := false);
      assert radio == Quiesced(old(radio)) && Configured();

      match cmd {
        case Off =>
        case ListenAdvertising(ch) =>
          PrepareTxRxAdvertising(ch);
          radio := radio.(packetPtr := RxBuffer);
          radio := radio.(disabledInt := true);
          radio := radio.(rxAddresses := {0});
          radio := radio.(shorts := {ReadyStart, EndDisable});
          // TASKS_RXEN
          radio := radio.(state := RxRu);
        case ListenData(ch, aa, crc, _) =>
          PrepareTxRxData(ch, aa, crc);
          radio := radio.(tifs := T_IFS);
          radio := radio.(packetPtr := RxBuffer);
          radio := radio.(disabledInt := true);
          radio := radio.(rxAddresses := {1});
          // TASKS_RXEN
          radio := radio.(state := RxRu);
          radio := radio.(shorts := {EndDisable, DisabledTxen, ReadyStart});
      }
    }

    /** `recv_interrupt`: nothing happens unless the DISABLED event is raised.
        Otherwise the event is acknowledged, the header is parsed from the
        receive buffer, the buffer is taken while the link layer's callback
        runs on the clamped payload, and is put back; the callback's command
        is returned. */
    method RecvInterrupt<C>(timestamp: Instant, ll: LinkLayer<C>) returns (cmd: Option<C>)
      requires Valid()
      requires radio.eventsDisabled && advertising ==> radio.state == Disabled
      requires radio.eventsDisabled && !advertising ==> radio.state != Tx
      requires radio.eventsDisabled ==>
                 ResponseFits(Deliver(ll, timestamp, advertising, rxBuf.value[..], radio.crcOk).response, txBuf.Length)
      modifies this, txBuf
      ensures Valid() && rxBuf == old(rxBuf)
      ensures !old(radio.eventsDisabled) ==>
                cmd == None && radio == old(radio) && advertising == old(advertising) && txBuf[..] == old(txBuf[..])
      ensures old(radio.eventsDisabled) ==>
                var reply := Deliver(ll, timestamp, old(advertising), old(rxBuf.value[..]), old(radio.crcOk));
                && cmd == Some(reply.cmd)
                && radio == AfterResponse(Acknowledged(old(radio), old(advertising)), reply.response)
                && advertising == (old(advertising) || (reply.response.Some? && reply.response.value.TransmitAdvertising?))
                && txBuf[..] == Framed(old(txBuf[..]), reply.response)
    {
      if !radio.eventsDisabled {
        return None;
      }
      radio := radio.(eventsDisabled := false);
      var crcOk := radio.crcOk;
      var reply: Reply<C>;
      if advertising {
        assert State() == Disabled;
        var header := ParseAdvHeader(rxBuf.value[0], rxBuf.value[1]);
        var rx := rxBuf.value;
        rxBuf := None;
        var payload := rx[HEADER_LEN..PayloadEnd(header.PayloadLength(), rx.Length)];
        reply := ll.processAdvPacket(timestamp, header, payload, crcOk);
        Respond(reply.response);
        rxBuf := Some(rx);
      } else {
        radio := radio.(shorts := radio.shorts - {ReadyStart});
        assert State() != Tx;
        var header := ParseDataHeader(rxBuf.value[0], rxBuf.value[1]);
        var rx := rxBuf.value;
        rxBuf := None;
        var payload := rx[HEADER_LEN..PayloadEnd(header.PayloadLength(), rx.Length)];
        reply := ll.processDataPacket(timestamp, header, payload, crcOk);
        Respond(reply.response);
        rxBuf := Some(rx);
      }
      cmd := Some(reply.cmd);
    }

    /** What a callback does with the driver when it answers a packet: it
        copies its payload into the region `tx_payload_buf` gives it, then
        makes its transmit call. This stands for link-layer code. */
    method Respond(resp: Option<Response>)
      requires Configured() && State() != Tx && ResponseFits(resp, txBuf.Length)
      modifies this, txBuf
      ensures Configured() && rxBuf == old(rxBuf)
      ensures advertising == (old(advertising) || (resp.Some? && resp.value.TransmitAdvertising?))
      ensures radio == AfterResponse(old(radio), resp)
      ensures txBuf[..] == Framed(old(txBuf[..]), resp)
    {
      if resp.Some? {
        var start, len := TxPayloadBuf();
        CopyPayload(start, resp.value.payload);
        match resp.value {
          case TransmitAdvertising(_, h, ch) =>
            TransmitAdvertising(h, ch);
          case TransmitData(_, aa, crcIv, h, ch) =>
            TransmitData(aa, crcIv, h, ch);
        }
        assert txBuf[..] == txBuf[..HEADER_LEN] + txBuf[HEADER_LEN..];
        assert txBuf[..HEADER_LEN] == HeaderBytes(resp.value);
      }
    }

    /** The link layer's copy of a payload into the region that starts at
        `start`. */
    method CopyPayload(start: nat, p: seq<u8>)
      requires start + |p| <= txBuf.Length
      modifies txBuf
      ensures txBuf[..start] == old(txBuf[..start])
      ensures txBuf[start..] == p + old(txBuf[start + |p|..])
    {
      forall i | 0 <= i < |p| {
        txBuf[start + i] := p[i];
      }
      assert txBuf[start..] == p + old(txBuf[start + |p|..]);
    }

    /** `prepare_txrx_advertising`: stop a reception in progress, then write
        the packet layout, whitening seed, advertising CRC seed and frequency. */
    method PrepareTxRxAdvertising(ch: AdvertisingChannel)
      requires Configured()
      modifies this
      ensures Configured() && advertising && rxBuf == old(rxBuf)
      ensures radio == AdvertisingSetup(old(radio), ch)
    {
      advertising := true;
      radio := radio.(eventsDisabled := false);
      if State() != Disabled {
        // TASKS_DISABLE, and the DISABLED event it is waited for
        radio := radio.(state := Disabled, eventsDisabled := true);
      }
      assert State() == Disabled;
      radio := radio.(pcnf0 := BLE_PCNF0);
      radio := radio.(dataWhiteIv := AdvertisingWhiteningIv(ch));
      radio := radio.(crcInit := CRC_PRESET);
      radio := radio.(frequency := FrequencyRegister(AdvertisingFreq(ch)));
    }

    /** `prepare_txrx_data`: write the packet layout, whitening seed, the
        connection's CRC seed, the frequency and logical address 1. */
    method PrepareTxRxData(ch: DataChannel, accessAddress: u32, crcInit: u32)
      requires Configured()
      modifies this
      ensures Configured() && !advertising && rxBuf == old(rxBuf)
      ensures radio == DataSetup(old(radio), ch, accessAddress, crcInit)
    {
      advertising := false;
      radio := radio.(pcnf0 := BLE_PCNF0);
      radio := radio.(dataWhiteIv := DataWhiteningIv(ch));
      radio := radio.(crcInit := Mask24(crcInit));
      radio := radio.(frequency := FrequencyRegister(DataFreq(ch)));
      radio := radio.(base1 := AccessAddressBase(accessAddress));
      radio := radio.(prefix0 := radio.prefix0.(ap1 := AccessAddressPrefix(accessAddress)));
    }

    /** `transmit`: send the transmit buffer and wait until the radio is
        disabled again. */
    method Transmit()
      requires Configured() && State() == Disabled
      modifies this
      ensures Configured() && advertising == old(advertising) && rxBuf == old(rxBuf)
      ensures radio == old(radio).(packetPtr := TxBuffer, eventsDisabled := true)
    {
      radio := radio.(packetPtr := TxBuffer);
      radio := radio.(eventsDisabled := false);
      // TASKS_TXEN
      radio := radio.(state := TxRu);
      // the packet is sent, END->DISABLE disables the radio, DISABLED is raised
      radio := radio.(state := Disabled, eventsDisabled := true);
    }

    /** `tx_payload_buf`: wait until the radio is not transmitting, then give
        the link layer `txBuf[start..start + len]`, the buffer after the two
        header bytes. */
    method TxPayloadBuf() returns (start: nat, len: nat)
      requires Configured()
      modifies this
      ensures Configured() && advertising == old(advertising) && rxBuf == old(rxBuf)
      ensures start == HEADER_LEN && start + len == txBuf.Length
      ensures State() != Tx && radio == old(radio).(state := radio.state)
      ensures old(State()) != Tx ==> radio == old(radio)
    {
      if State() == Tx {
        // the transmission ends
        var s: RadioState :| s != Tx;
        radio := radio.(state := s);
      }
      start, len := HEADER_LEN, txBuf.Length - HEADER_LEN;
    }

    /** `transmit_advertising`: write the header bytes, set up the advertising
        channel, select logical address 0 and send. */
    method TransmitAdvertising(header: AdvHeader, ch: AdvertisingChannel)
      requires Configured()
      modifies this, txBuf
      ensures Configured() && advertising && rxBuf == old(rxBuf)
      ensures txBuf[0] == LowByte(header.ToU16()) && txBuf[1] == header.PayloadLength()
      ensures txBuf[HEADER_LEN..] == old(txBuf[HEADER_LEN..])
      ensures ParseAdvHeader(txBuf[0], txBuf[1]).S0() == header.S0()
      ensures ParseAdvHeader(txBuf[0], txBuf[1]).PayloadLength() == header.PayloadLength()
      ensures radio == TransmittedAdvertising(old(radio), ch)
    {
      var raw := header.ToU16();
      txBuf[0] := LowByte(raw);
      txBuf[1] := header.PayloadLength();
      PrepareTxRxAdvertising(ch);
      radio := radio.(txAddress := 0);
      Transmit();
      AdvHeaderRoundTrip(header);
    }

    /** `transmit_data`: write the header bytes, select logical address 1,
        point the radio at the transmit buffer and arm READY->START; the
        radio, already turning around after the received packet, sends it. */
    method TransmitData(accessAddress: u32, crcIv: u32, header: DataHeader, ch: DataChannel)
      requires Configured()
      modifies this, txBuf
      ensures Configured() && advertising == old(advertising) && rxBuf == old(rxBuf)
      ensures txBuf[0] == LowByte(header.ToU16()) && txBuf[1] == header.PayloadLength()
      ensures txBuf[HEADER_LEN..] == old(txBuf[HEADER_LEN..])
      ensures ParseDataHeader(txBuf[0], txBuf[1]) == header
      ensures radio == ArmedData(old(radio))
    {
      var raw := header.ToU16();
      txBuf[0] := LowByte(raw);
      txBuf[1] := header.PayloadLength();
      radio := radio.(txAddress := 1);
      radio := radio.(packetPtr := TxBuffer);
      radio := radio.(shorts := {ReadyStart});
      DataHeaderRoundTrip(header);
    }
  }
}
