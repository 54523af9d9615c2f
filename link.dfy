/** The link layer as the radio driver sees it: the commands it consumes, and
    the two packet-processing callbacks it calls from its interrupt handler.

    A callback is a total function of what the driver hands it. Its result
    carries the command the driver relays to its own caller and, when the
    callback answers the packet, the one transmission it asks for: the payload
    it writes into the transmit payload region and the transmit call it then
    makes on the driver. */
module Link {
  import opened Bits
  import opened Phy
  import opened Pdu

  datatype Option<T> = None | Some(value: T)

  /** A point in time in microseconds, wrapping at 2^32. */
  type Instant = u32

  /** What the radio should do next. */
  datatype RadioCmd =
    | Off
    | ListenAdvertising(advChannel: AdvertisingChannel)
    | ListenData(dataChannel: DataChannel, accessAddress: u32, crcInit: u32, timeout: bool)

  /** A transmission the link layer requests from inside a callback. */
  datatype Response =
    | TransmitAdvertising(payload: seq<u8>, advHeader: AdvHeader, advChannel: AdvertisingChannel)
    | TransmitData(payload: seq<u8>, accessAddress: u32, crcIv: u32, dataHeader: DataHeader, dataChannel: DataChannel)

  datatype Reply<C> = Reply(cmd: C, response: Option<Response>)

  /** The callbacks `process_adv_packet` and `process_data_packet`, given the
      timestamp, the parsed header, the payload and the CRC status. */
  datatype LinkLayer<C> = LinkLayer(
    processAdvPacket: (Instant, AdvHeader, seq<u8>, bool) -> Reply<C>,
    processDataPacket: (Instant, DataHeader, seq<u8>, bool) -> Reply<C>)

  /** The callback the driver calls for a received buffer `rx`, with the header
      parsed from its first two bytes and the clamped payload after them. */
  function Deliver<C>(ll: LinkLayer<C>, ts: Instant, advertising: bool, rx: seq<u8>, crcOk: bool): (r: Reply<C>)
    requires |rx| >= HEADER_LEN
    ensures advertising ==>
              var h := ParseAdvHeader(rx[0], rx[1]);
              var n := Min(h.PayloadLength() as int, |rx| - HEADER_LEN);
              r == ll.processAdvPacket(ts, h, rx[HEADER_LEN..HEADER_LEN + n], crcOk)
    ensures !advertising ==>
              var h := ParseDataHeader(rx[0], rx[1]);
              var n := Min(h.PayloadLength() as int, |rx| - HEADER_LEN);
              r == ll.processDataPacket(ts, h, rx[HEADER_LEN..HEADER_LEN + n], crcOk)
  {
    if advertising then
      var h := ParseAdvHeader(rx[0], rx[1]);
      ll.processAdvPacket(ts, h, ReceivedPayload(rx, h.PayloadLength()), crcOk)
    else
      var h := ParseDataHeader(rx[0], rx[1]);
      ll.processDataPacket(ts, h, ReceivedPayload(rx, h.PayloadLength()), crcOk)
  }

  /** The link layer sees only the header and the claimed payload: two
      receive buffers that agree on both give the same reply, whatever the
      bytes after the payload hold. */
  lemma DeliverIgnoresTail<C>(ll: LinkLayer<C>, ts: Instant, advertising: bool, rx: seq<u8>, rx': seq<u8>, crcOk: bool)
    requires |rx| == |rx'| >= HEADER_LEN && rx[..HEADER_LEN] == rx'[..HEADER_LEN]
    requires var claimed := if advertising then ParseAdvHeader(rx[0], rx[1]).PayloadLength()
                            else ParseDataHeader(rx[0], rx[1]).PayloadLength();
             ReceivedPayload(rx, claimed) == ReceivedPayload(rx', claimed)
    ensures Deliver(ll, ts, advertising, rx, crcOk) == Deliver(ll, ts, advertising, rx', crcOk)
  {
    assert rx[0] == rx'[0] && rx[1] == rx'[1];
  }

  /** A requested payload fits the transmit payload region of a `bufLen`-byte
      buffer (a longer one would make the link layer's copy panic). */
  predicate ResponseFits(resp: Option<Response>, bufLen: nat) {
    resp.Some? ==> HEADER_LEN + |resp.value.payload| <= bufLen
  }
}
