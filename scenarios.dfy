/** Whole sequences of driver calls, with the peripheral's own part (receiving
    a packet) played by `PeripheralReceives`. */
module Scenarios {
  import opened Bits
  import opened Phy
  import opened Pdu
  import opened Registers
  import opened Link
  import opened Radio

  /** The peripheral, on its own: a packet arrives into the receive buffer,
      the CRC status is latched, END->DISABLE disables the radio and raises
      DISABLED; DISABLED->TXEN, when set, starts the turn-around to transmit. */
  method PeripheralReceives(r: BleRadio, packet: seq<u8>, crcOk: bool)
    requires r.Valid() && |packet| == r.rxBuf.value.Length
    requires r.radio.packetPtr == RxBuffer && r.radio.state == RxRu && EndDisable in r.radio.shorts
    modifies r, r.rxBuf.value
    ensures r.Valid() && r.rxBuf == old(r.rxBuf) && r.rxBuf.value[..] == packet
    ensures r.advertising == old(r.advertising) && r.txBuf[..] == old(r.txBuf[..])
    ensures r.radio == old(r.radio).(crcOk := crcOk, eventsDisabled := true,
                                     state := if DisabledTxen in old(r.radio.shorts) then TxRu else Disabled)
  {
    var rx := r.rxBuf.value;
    forall i | 0 <= i < |packet| {
      rx[i] := packet[i];
    }
    r.radio := r.radio.(crcOk := crcOk, eventsDisabled := true);
    r.radio := r.radio.(state := if DisabledTxen in r.radio.shorts then TxRu else Disabled);
  }

  /** Listening on an advertising channel, then one received packet: the
      advertising callback is called once, on the packet's header, clamped
      payload and CRC status, and its command is what the interrupt handler
      returns; the receive buffer is back in place afterwards. */
  method AdvertisingReception<C>(len: nat, regs: Regs, ch: AdvertisingChannel, ll: LinkLayer<C>,
                                 packet: seq<u8>, crcOk: bool, ts: Instant)
    returns (cmd: Option<C>, rxHeld: bool)
    requires regs.state == Disabled && 2 <= len <= 257 && |packet| == len
    requires ResponseFits(Deliver(ll, ts, true, packet, crcOk).response, len)
    ensures cmd == Some(Deliver(ll, ts, true, packet, crcOk).cmd)
    ensures rxHeld
  {
    var tx := new u8[len];
    var rx := new u8[len];
    var r := new BleRadio(regs, tx, rx);
    r.ConfigureReceiver(ListenAdvertising(ch));
    PeripheralReceives(r, packet, crcOk);
    cmd := r.RecvInterrupt(ts, ll);
    rxHeld := r.rxBuf == Some(rx);
  }

  /** A connection event: listening on a data channel, one received packet,
      which the data callback answers with a data packet. The answer goes out
      on the connection's access address, the transmit buffer reads back as
      the answer's header and payload, and the advertising access address on
      logical address 0 is untouched. */
  method ConnectionEvent<C>(len: nat, regs: Regs, ch: DataChannel, aa: u32, crc: u32,
                            ll: LinkLayer<C>, packet: seq<u8>, crcOk: bool, ts: Instant)
    returns (cmd: Option<C>, sentOn: u32, frame: seq<u8>, advertisingAddress: u32)
    requires regs.state == Disabled && 2 <= len <= 257 && |packet| == len
    requires var resp := Deliver(ll, ts, false, packet, crcOk).response;
             && resp.Some? && resp.value.TransmitData?
             && |resp.value.payload| == resp.value.dataHeader.PayloadLength() as int
             && HEADER_LEN + |resp.value.payload| <= len
    ensures var resp := Deliver(ll, ts, false, packet, crcOk).response.value;
            && cmd == Some(Deliver(ll, ts, false, packet, crcOk).cmd)
            && |frame| == len
            && ParseDataHeader(frame[0], frame[1]) == resp.dataHeader
            && ReceivedPayload(frame, resp.dataHeader.PayloadLength()) == resp.payload
    ensures sentOn == aa
    ensures advertisingAddress == ACCESS_ADDRESS
  {
    var tx := new u8[len];
    var rx := new u8[len];
    var r := new BleRadio(regs, tx, rx);
    r.ConfigureReceiver(ListenData(ch, aa, crc, false));
    PeripheralReceives(r, packet, crcOk);
    ghost var before := tx[..];
    cmd := r.RecvInterrupt(ts, ll);
    frame := tx[..];
    var resp := Deliver(ll, ts, false, packet, crcOk).response.value;
    FramedDataRoundTrip(before, resp.payload, resp.accessAddress, resp.crcIv, resp.dataHeader, resp.dataChannel);
    sentOn := LogicalAddress(r.radio, r.radio.txAddress);
    advertisingAddress := LogicalAddress(r.radio, 0);
    InitialisedAdvertisingAddress(r.radio, len - HEADER_LEN);
  }
}
