/** BLE channels as the radio driver consumes them: each channel gives a
    centre frequency in MHz and a data-whitening seed. The mapping is the one
    of the Bluetooth Core Specification (Vol 6, Part B, section 1.4.1 for the
    channel indices, section 3.2 for the whitening seed). */
module Phy {
  import opened Bits

  /** Advertising channels are the indices 37, 38 and 39. */
  type AdvertisingIndex = i: nat | 37 <= i <= 39 witness 37
  /** Data channels are the indices 0 to 36. */
  type DataIndex = i: nat | i <= 36

  datatype AdvertisingChannel = AdvertisingChannel(index: AdvertisingIndex)
  datatype DataChannel = DataChannel(index: DataIndex)

  /** The channel's centre frequency in MHz. */
  function AdvertisingFreq(ch: AdvertisingChannel): (f: nat)
    ensures 2402 <= f <= 2480 && f % 2 == 0
  {
    match ch.index
    case 37 => 2402
    case 38 => 2426
    case 39 => 2480
  }

  /** The channel's centre frequency in MHz: the data channels fill the
      2 MHz slots between the three advertising channels. */
  function DataFreq(ch: DataChannel): (f: nat)
    ensures 2404 <= f <= 2478 && f % 2 == 0
    ensures f != 2426
  {
    if ch.index <= 10 then 2404 + 2 * ch.index else 2428 + 2 * (ch.index - 11)
  }

  /** The seed of the whitening register: the channel index with bit 6 set. */
  function WhiteningIv(index: nat): (iv: u8)
    requires index < 64
    ensures iv as int % 64 == index && iv as int / 64 == 1
  {
    (index + 64) as u8
  }

  function AdvertisingWhiteningIv(ch: AdvertisingChannel): u8 { WhiteningIv(ch.index) }
  function DataWhiteningIv(ch: DataChannel): u8 { WhiteningIv(ch.index) }

  /** `(freq - 2400) as u8`: the FREQUENCY register holds the offset from
      2400 MHz, truncated to 8 bits. For every BLE channel frequency the
      truncation loses nothing, so the radio tunes to `freq` exactly. */
  function FrequencyRegister(freq: nat): (r: u8)
    requires 2400 <= freq <= 2480
    ensures 2400 + r as int == freq
  {
    ((freq - 2400) % 256) as u8
  }

  /** Distinct channels are tuned to distinct frequencies: the FREQUENCY
      register identifies a data channel. */
  lemma {:induction false} DataFreqInjective(a: DataChannel, b: DataChannel)
    requires FrequencyRegister(DataFreq(a)) == FrequencyRegister(DataFreq(b))
    ensures a == b
  {
    assert DataFreq(a) == DataFreq(b);
  }

  /** No data channel shares its frequency with an advertising channel. */
  lemma {:induction false} ChannelsDisjoint(a: AdvertisingChannel, d: DataChannel)
    ensures AdvertisingFreq(a) != DataFreq(d)
  {
    if d.index <= 10 {
      assert DataFreq(d) <= 2424;
    } else {
      assert 2428 <= DataFreq(d) <= 2478;
    }
  }
}
