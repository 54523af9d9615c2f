/** The two-byte PDU header as the radio driver stores it in RAM (S0 at
    offset 0, Length at offset 1), the constants of the BLE link layer it
    programs into the radio, and the clamp applied before a received payload
    is sliced out of the receive buffer. */
module Pdu {
  import opened Bits

  /** The advertising channel access address (Bluetooth Core Specification,
      Vol 6, Part B, section 2.1.2). */
  const ACCESS_ADDRESS: u32 := 0x8E89_BED6
  /** The CRC seed of advertising channel PDUs (same specification, section 3.1.1). */
  const CRC_PRESET: u32 := 0x55_5555
  /** x^24 + x^10 + x^9 + x^6 + x^4 + x^3 + x + 1, bit n standing for x^n. */
  const CRC_POLY: u32 := 0x0100_065B
  /** Bytes in front of the payload in a packet buffer: S0 and Length. */
  const HEADER_LEN: nat := 2

  /** An advertising channel PDU header as a 16-bit word: the low byte is S0
      (PDU type and address flags), bits 8-13 the payload length, bits 14-15
      reserved. */
  datatype AdvHeader = AdvHeader(raw: u16) {
    function ToU16(): u16 { raw }
    function S0(): u8 { (raw as int % 256) as u8 }
    function PayloadLength(): (n: u8)
      ensures n as int < 64
    {
      ((raw as int / 256) % 64) as u8
    }
  }

  /** A data channel PDU header as a 16-bit word: the low byte is S0 (LLID,
      NESN, SN, MD), the high byte the payload length. */
  datatype DataHeader = DataHeader(raw: u16) {
    function ToU16(): u16 { raw }
    function S0(): u8 { (raw as int % 256) as u8 }
    function PayloadLength(): u8 { (raw as int / 256) as u8 }
  }

  /** `raw as u8`: the byte the transmit paths store at offset 0. */
  function LowByte(raw: u16): (b: u8)
    ensures (raw as int - b as int) % 256 == 0
  {
    (raw as int % 256) as u8
  }

  /** The header word read little-endian from the first two buffer bytes. */
  function ReadU16(b0: u8, b1: u8): (w: u16)
    ensures w as int % 256 == b0 as int && w as int / 256 == b1 as int
  {
    (b0 as int + 256 * b1 as int) as u16
  }

  function ParseAdvHeader(b0: u8, b1: u8): AdvHeader { AdvHeader(ReadU16(b0, b1)) }
  function ParseDataHeader(b0: u8, b1: u8): DataHeader { DataHeader(ReadU16(b0, b1)) }

  /** The two header bytes the advertising transmit path writes parse back to
      the same S0 and payload length; the whole header comes back exactly
      when its two reserved bits are clear, since they are sent as zero. */
  lemma AdvHeaderRoundTrip(h: AdvHeader)
    ensures ParseAdvHeader(LowByte(h.ToU16()), h.PayloadLength()).S0() == h.S0()
    ensures ParseAdvHeader(LowByte(h.ToU16()), h.PayloadLength()).PayloadLength() == h.PayloadLength()
    ensures ParseAdvHeader(LowByte(h.ToU16()), h.PayloadLength()) == h <==> h.raw as int / 0x4000 == 0
  {
    var b0, b1 := LowByte(h.ToU16()), h.PayloadLength();
    var p := ParseAdvHeader(b0, b1);
    var r := h.raw as int;
    assert p.raw as int % 256 == b0 as int == r % 256;
    assert p.raw as int / 256 == b1 as int == r / 256 % 64;
    assert p.raw == h.raw <==> r / 256 == r / 256 % 64 by {
      SplitByte(p.raw as int);
      SplitByte(r);
    }
    DivSplit(r);
  }

  /** A 16-bit word is determined by its low byte and its high byte. */
  lemma SplitByte(w: int)
    requires 0 <= w
    ensures w == w / 256 * 256 + w % 256
  {
  }

  /** The two reserved bits of an advertising header are clear exactly when
      the high byte is below 64. */
  lemma DivSplit(r: int)
    requires 0 <= r
    ensures r / 0x4000 == 0 <==> r / 256 < 64
  {
  }

  /** The data transmit path stores the whole 16-bit header, so parsing its
      two bytes gives the header back. */
  lemma DataHeaderRoundTrip(h: DataHeader)
    ensures ParseDataHeader(LowByte(h.ToU16()), h.PayloadLength()) == h
  {
    var r := h.raw as int;
    assert r == r / 256 * 256 + r % 256;
  }

  /** `min(2 + claimed, len)`: the end of the payload slice of a received
      buffer of `len` bytes whose header claims `claimed` payload bytes. The
      slice `[2..end]` is in bounds; the payload is the claimed length, cut
      to what fits after the header. */
  function PayloadEnd(claimed: u8, len: nat): (end: nat)
    requires len >= HEADER_LEN
    ensures HEADER_LEN <= end <= len
    ensures end - HEADER_LEN == Min(claimed as int, len - HEADER_LEN)
    ensures claimed as int > len - HEADER_LEN ==> end == len
  {
    Min(HEADER_LEN + claimed as int, len)
  }

  /** The payload handed to the link layer for a received buffer `rx`. */
  function ReceivedPayload(rx: seq<u8>, claimed: u8): (p: seq<u8>)
    requires |rx| >= HEADER_LEN
    ensures |p| == Min(claimed as int, |rx| - HEADER_LEN)
    ensures forall i :: 0 <= i < |p| ==> p[i] == rx[HEADER_LEN + i]
  {
    rx[HEADER_LEN..PayloadEnd(claimed, |rx|)]
  }

  /** The 24-bit registers receive the polynomial without its x^24 term,
      which the radio supplies itself. */
  lemma CrcPolyMask()
    ensures Mask24(CRC_POLY) == 0x06_5B
    ensures CRC_POLY as int - Mask24(CRC_POLY) as int == TWO_24
  {
  }

  /** The advertising access address splits into base 0x89BE_D600 and
      prefix 0x8E. */
  lemma AdvertisingAddressSplit()
    ensures AccessAddressBase(ACCESS_ADDRESS) == 0x89BE_D600
    ensures AccessAddressPrefix(ACCESS_ADDRESS) == 0x8E
    ensures OnAirAddress(AccessAddressBase(ACCESS_ADDRESS), AccessAddressPrefix(ACCESS_ADDRESS)) == ACCESS_ADDRESS
  {
    AccessAddressSplit(ACCESS_ADDRESS);
  }
}
