# nRF BLE radio driver (rubble-nrf5x `BleRadio`), modelled in Dafny

This project models the radio driver of the rubble BLE stack for Nordic nRF
chips: the `BleRadio` struct of `rubble-nrf5x/src/radio.rs`. The driver
programs the RADIO peripheral's registers, owns the transmit buffer and the
receive buffer, services the receive-complete (DISABLED) interrupt by handing
the received header and payload to the link layer, and offers the link layer
the `Transmitter` interface (`tx_payload_buf`, `transmit_advertising`,
`transmit_data`).

Files and modules:

- `bits.dfy` (`Bits`): `u8`/`u16`/`u32`, the 24-bit mask of the CRC
  registers, and the split of a 32-bit access address into a base register
  value (`addr << 8`) and a prefix byte (`addr >> 24`), with the access
  address the radio then sends. Bitwise `&` and `|` are defined bit by bit
  (`BitAnd`, `BitOr`), and lemmas proved by induction on the bit width show
  that the arithmetic the model computes with is what those operators give.
- `phy.dfy` (`Phy`): advertising and data channels, their frequencies and
  whitening seeds, and the FREQUENCY register value `(freq - 2400) as u8`.
- `pdu.dfy` (`Pdu`): the two-byte header as stored in RAM (S0 at offset 0,
  Length at offset 1), header parsing, the payload clamp of the receive path,
  and the link-layer constants (advertising access address, CRC preset and
  polynomial).
- `registers.dfy` (`Registers`): the register record, the shared
  advertising and data-channel setups (`prepare_txrx_advertising`,
  `prepare_txrx_data`) as functions on it, and the invariant `Initialised`
  that initialisation sets up and every operation keeps.
- `link.dfy` (`Link`): `RadioCmd`, and the link layer's two callbacks.
- `radio.dfy` (`Radio`): the class `BleRadio` with the fields of the Rust
  struct (`advertising`, the registers, `txBuf`, the `rxBuf` option slot)
  and one method per driver function, each proved against the function that
  gives the new register state.
- `scenarios.dfy` (`Scenarios`): the peripheral receiving a packet, and two
  complete sequences (advertising reception; a connection event answered by
  a data packet).

Modelling choices:

- Registers are a datatype value in the field `radio`; each register write
  is one update of that value. A register `write` starts from the reset
  value, so fields it does not name are reset; `modify` keeps them. So
  `rxaddresses.write(addr0)` leaves exactly `{0}`, `shorts.write(...)` leaves
  exactly the named shortcuts (in `transmit_data`, `{ReadyStart}`:
  END->DISABLE is written off and DISABLED->TXEN is reset), and
  `shorts.modify(ready_start off)` in the interrupt handler keeps the other
  shortcuts. PREFIX0 is the one register where this changes behaviour:
  `prepare_txrx_data` writes it naming only AP1, which resets AP0 (see
  Findings). The class applies the corrected update that keeps AP0; the
  update as written is `Registers.DataSetupAsWritten`.
- The peripheral is an autonomous actor. A busy-wait ends when what it waits
  for holds: after a DISABLE task the radio is disabled and DISABLED is
  raised; after TXEN in `transmit` the packet has been sent and the radio is
  disabled with DISABLED raised; a wait for "not transmitting" ends in some
  state other than TX (and TX ramp-up, in `configure_receiver`). Starting RX
  leaves the radio ramping up (`RxRu`).
- `rx_buf` is an `Option<array<u8>>`. `RecvInterrupt` sets it to `None`
  while the callback runs and restores the same array; its contract states
  `rxBuf == old(rxBuf)` and `Valid()` (the buffer present) on exit.
- The `assert!`s of the driver are preconditions: the radio disabled in `new`
  and `transmit`, `rx_buf.len() - 2 <= 255` in `new`, and in the interrupt
  handler the radio disabled (advertising) or not transmitting (data).
- The link layer's callbacks are total functions in a `LinkLayer<C>` value.
  Each returns the command the driver relays and, optionally, one answer:
  the payload it copies into the `tx_payload_buf` region and the transmit
  call it then makes. `BleRadio.Respond` performs that answer through the
  driver's own methods. The command type `C` is opaque to the driver.
- `T_IFS` (`rubble/src/time.rs:13`, 150 µs) is the constant `Radio.T_IFS`.
  `Instant` is a `u32` count of microseconds.
- The link-layer constants are not part of this model. They take the values
  the Bluetooth Core Specification gives them: advertising access address
  0x8E89BED6 (Vol 6, Part B, section 2.1.2), CRC preset 0x555555 and CRC
  polynomial x^24 + x^10 + x^9 + x^6 + x^4 + x^3 + x + 1 (section 3.1.1).
  Channel frequencies follow section 1.4.1 of the same part. The whitening
  seed is the channel index with bit 6 set. The advertising header has a
  6-bit length in bits 8-13; the data header has an 8-bit length in the
  high byte.
- `prepare_txrx_data`, unlike `prepare_txrx_advertising`, does not stop a
  reception in progress; it relies on `configure_receiver` having disabled
  the radio.

## Model

| member | source | states |
|---|---|---|
| `Bits.Mask24` | rubble-nrf5x/src/radio.rs:139-141 | `& 0x00FFFFFF` leaves a value below 2^24 that differs from the input only in the top byte |
| `Bits.AccessAddressBase` | rubble-nrf5x/src/radio.rs:149-151 | `addr << 8` on a u32 has a zero low byte and carries the low 24 bits of the address in its upper 24 bits |
| `Bits.AccessAddressPrefix` | rubble-nrf5x/src/radio.rs:152-154 | `(addr >> 24) as u8` is the top byte of the address |
| `Bits.OnAirAddress` | rubble-nrf5x/src/radio.rs:143-148 | the address sent for a base/prefix pair has the prefix as its top byte and the base's upper 24 bits as its low 24 bits |
| `Bits.AccessAddressSplit` | rubble-nrf5x/src/radio.rs:143-154 | splitting any 32-bit access address into base and prefix makes the radio send exactly that address |
| `Bits.BitAndLowOnes` | rubble-nrf5x/src/radio.rs:139-141 | `x & (2^k - 1)` is the remainder of `x` modulo 2^k, for every `x` and width `k` |
| `Bits.BitOrDisjoint` | rubble-nrf5x/src/radio.rs:143-148 | or-ing `a << k` with a value below 2^k sets disjoint bits, so the result is their sum |
| `Bits.Mask24IsBitAnd` | rubble-nrf5x/src/radio.rs:396-398 | the 24-bit register value the model computes is the driver's `x & 0x00FFFFFF` for every u32 |
| `Bits.OnAirAddressIsBitOr` | rubble-nrf5x/src/radio.rs:143-148 | the address sent for a base/prefix pair is the bitwise OR of `prefix << 24` and `base >> 8` |
| `Phy.AdvertisingFreq` | rubble-nrf5x/src/radio.rs:379-381 | an advertising channel's frequency is an even MHz value in 2402..2480 |
| `Phy.DataFreq` | rubble-nrf5x/src/radio.rs:399-401 | a data channel's frequency is an even MHz value in 2404..2478, never the 2426 MHz advertising channel |
| `Phy.WhiteningIv` | rubble-nrf5x/src/radio.rs:373-375 | the whitening seed holds the channel index in its low 6 bits and has bit 6 set |
| `Phy.FrequencyRegister` | rubble-nrf5x/src/radio.rs:379-381 | `(freq - 2400) as u8` loses nothing for a BLE frequency: 2400 plus the register value is the frequency |
| `Phy.DataFreqInjective` | rubble-nrf5x/src/radio.rs:399-401 | two data channels with the same FREQUENCY register value are the same channel |
| `Phy.ChannelsDisjoint` | rubble-nrf5x/src/radio.rs:379-401 | no data channel is tuned to an advertising channel's frequency |
| `Pdu.AdvHeader.PayloadLength` | rubble-nrf5x/src/radio.rs:461-462 | the advertising length field is 6 bits, below 64 |
| `Pdu.LowByte` | rubble-nrf5x/src/radio.rs:458-460 | `raw_header as u8` differs from the header word by a multiple of 256 |
| `Pdu.ReadU16` | rubble-nrf5x/src/radio.rs:309 | the header word parsed from the buffer has byte 0 as its low byte and byte 1 as its high byte |
| `Pdu.AdvHeaderRoundTrip` | rubble-nrf5x/src/radio.rs:457-462 | the two bytes `transmit_advertising` stores parse back to the same S0 and payload length; the whole header comes back if and only if its two reserved bits are clear |
| `Pdu.DataHeaderRoundTrip` | rubble-nrf5x/src/radio.rs:482-486 | the two bytes `transmit_data` stores parse back to the same header |
| `Pdu.PayloadEnd` | rubble-nrf5x/src/radio.rs:311-313 | `min(2 + payload_length, len)` lies in 2..len, so `rx_buf[2..pl_lim]` is in bounds; the payload has the claimed length cut to `len - 2`, and an overclaim yields exactly `len - 2` bytes |
| `Pdu.ReceivedPayload` | rubble-nrf5x/src/radio.rs:312-314 | the payload handed to the callback has `min(payload_length, len - 2)` bytes and they are the buffer's bytes from offset 2 on |
| `Pdu.CrcPolyMask` | rubble-nrf5x/src/radio.rs:139-141 | masking the CRC polynomial drops exactly its x^24 term |
| `Pdu.AdvertisingAddressSplit` | rubble-nrf5x/src/radio.rs:149-154 | 0x8E89BED6 splits into BASE0 = 0x89BED600 and prefix 0x8E, which the radio sends as 0x8E89BED6 |
| `Registers.LogicalAddress` | rubble-nrf5x/src/radio.rs:143-148 | logical address n is sent with APn as its top byte and the upper 24 bits of BASEn as its low 24 bits |
| `Registers.AdvertisingSetup` | rubble-nrf5x/src/radio.rs:349-383 | the advertising setup leaves the radio disabled, DISABLED raised exactly when it had to stop the radio, CRC seed = CRC_PRESET, the channel's frequency and whitening seed, and both logical addresses and the shortcuts unchanged |
| `Registers.DataSetup` | rubble-nrf5x/src/radio.rs:385-409 | the data setup sets logical address 1 to the connection's access address, keeps logical address 0, keeps the low 24 bits of the CRC seed, sets the channel's frequency and whitening seed, and does not touch state or shortcuts |
| `Registers.DataSetupAsWritten` | rubble-nrf5x/src/radio.rs:403-407 | as written, PREFIX0 ends up holding only AP1 (the connection's prefix), every other prefix byte reset to 0 |
| `Registers.DataSetupAsWrittenLosesAdvertisingAddress` | rubble-nrf5x/src/radio.rs:403-407 | as written, after a data setup logical address 0 reads 0x0089BED6, and a later advertising setup does not restore 0x8E89BED6 |
| `Registers.DataSetupKeepsInitialised` | rubble-nrf5x/src/radio.rs:385-409 | the data setup keeps everything `new` configured, the advertising access address included |
| `Registers.InitialisedAdvertisingAddress` | rubble-nrf5x/src/radio.rs:143-154 | registers that hold what `new` writes to BASE0 and AP0 send and match the advertising access address on logical address 0 |
| `Registers.AdvertisingSetupIdempotent` | rubble-nrf5x/src/radio.rs:349-383 | applying the advertising setup twice leaves the same registers as once, except that the second acknowledges a DISABLED event the first raised |
| `Registers.DataSetupIdempotent` | rubble-nrf5x/src/radio.rs:385-409 | applying the data setup twice leaves the same registers as once |
| `Link.Deliver` | rubble-nrf5x/src/radio.rs:305-331 | the reply is the advertising callback's in advertising mode and the data callback's otherwise, given the header parsed from bytes 0-1 and the bytes from offset 2 cut to `min(claimed length, len - 2)` |
| `Link.DeliverIgnoresTail` | rubble-nrf5x/src/radio.rs:309-314 | the link layer sees only the header and the clamped payload: receive buffers that agree on those get the same reply, whatever follows the payload |
| `Radio.Quiesced` | rubble-nrf5x/src/radio.rs:204-214 | the disable sequence leaves the DISABLED interrupt off, the radio disabled and the event acknowledged |
| `Radio.ListeningAdvertising` | rubble-nrf5x/src/radio.rs:218-240 | after `ListenAdvertising` the radio ramps up to RX into the receive buffer, matches logical address 0 only (still the advertising address), uses CRC_PRESET and the channel's frequency and seed, has the interrupt on and shortcuts {READY->START, END->DISABLE} |
| `Radio.ListeningData` | rubble-nrf5x/src/radio.rs:241-279 | after `ListenData` the radio ramps up to RX into the receive buffer, matches logical address 1 only, which is the connection's access address, keeps the 24-bit CRC seed and channel settings, has T_IFS = 150, the interrupt on, and shortcuts {END->DISABLE, DISABLED->TXEN, READY->START} |
| `Radio.Acknowledged` | rubble-nrf5x/src/radio.rs:300-320 | the interrupt handler acknowledges DISABLED and, in data mode only, removes READY->START while keeping the other shortcuts |
| `Radio.TransmittedAdvertising` | rubble-nrf5x/src/radio.rs:457-473 | after `transmit_advertising` the packet went out from the transmit buffer on logical address 0 (the advertising address) with CRC_PRESET and the channel's frequency, and the radio is disabled with DISABLED raised |
| `Radio.ArmedData` | rubble-nrf5x/src/radio.rs:475-507 | `transmit_data` does not wait (state and event unchanged), selects logical address 1 and the transmit buffer, and leaves only READY->START among the shortcuts |
| `Radio.FramedAdvertisingRoundTrip` | rubble-nrf5x/src/radio.rs:447-462 | what a callback's advertising answer leaves in the transmit buffer is read back by the receive path as the same S0 and payload |
| `Radio.FramedDataRoundTrip` | rubble-nrf5x/src/radio.rs:447-486 | what a callback's data answer leaves in the transmit buffer is read back by the receive path as the same header and payload |
| `Radio.BleRadio.constructor` | rubble-nrf5x/src/radio.rs:75-185 | needs a disabled radio and `len - 2 <= 255`; sets MAXLEN to `len - 2`, logical address 0 to the advertising address, shortcuts {READY->START, END->DISABLE}, `advertising = false`, the receive buffer present |
| `Radio.BleRadio.State` | rubble-nrf5x/src/radio.rs:187-190 | reads the STATE register |
| `Radio.BleRadio.ConfigureReceiver` | rubble-nrf5x/src/radio.rs:193-281 | quiesces the radio, then leaves exactly the registers of `ListeningAdvertising`/`ListeningData` (or of the disable sequence for `Off`), sets `advertising` accordingly and keeps the receive buffer and the invariant |
| `Radio.BleRadio.RecvInterrupt` | rubble-nrf5x/src/radio.rs:288-335 | without a DISABLED event returns `None` and changes nothing; otherwise returns the callback's command for the parsed header and clamped payload, leaves the acknowledged registers as changed by the callback's answer, and has the receive buffer back |
| `Radio.BleRadio.PrepareTxRxAdvertising` | rubble-nrf5x/src/radio.rs:349-383 | sets `advertising` and leaves the registers of `AdvertisingSetup` |
| `Radio.BleRadio.PrepareTxRxData` | rubble-nrf5x/src/radio.rs:385-409 | clears `advertising` and leaves the registers of `DataSetup` |
| `Radio.BleRadio.Transmit` | rubble-nrf5x/src/radio.rs:416-443 | needs a disabled radio; points PACKETPTR at the transmit buffer and returns once the packet is sent and DISABLED raised |
| `Radio.BleRadio.TxPayloadBuf` | rubble-nrf5x/src/radio.rs:447-455 | returns once the radio is not transmitting; the region is the transmit buffer from offset 2, `len - 2` bytes |
| `Radio.BleRadio.TransmitAdvertising` | rubble-nrf5x/src/radio.rs:457-473 | writes only bytes 0 and 1 of the transmit buffer (which parse back to the header's S0 and length), sets `advertising`, and leaves the registers of `TransmittedAdvertising` |
| `Radio.BleRadio.TransmitData` | rubble-nrf5x/src/radio.rs:475-507 | writes only bytes 0 and 1 of the transmit buffer (which parse back to the header) and leaves the registers of `ArmedData` |
| `Scenarios.AdvertisingReception` | rubble-nrf5x/src/radio.rs:305-317 | listening on an advertising channel and receiving one packet calls the advertising callback once with the packet's header, clamped payload and CRC status, returns its command, and leaves the receive buffer in place |
| `Scenarios.ConnectionEvent` | rubble-nrf5x/src/radio.rs:318-331 | in a connection, an answered packet goes out on the connection's access address, the transmit buffer reads back as the answer, and the advertising access address is unchanged; this last part holds with the corrected AP1 update of `Registers.DataSetup`, not with the PREFIX0 write as written (see Findings) |

## Left out

- Radio.BleRadio.PrepareTxRxData: applies the corrected AP1 update (`modify`), not the PREFIX0 `write` of `rubble-nrf5x/src/radio.rs:405-407`, which resets AP0; the as-written behaviour is modelled separately by `Registers.DataSetupAsWritten` and `Registers.DataSetupAsWrittenLosesAdvertisingAddress`. `ConfigureReceiver` for `ListenData` and `Scenarios.ConnectionEvent` therefore describe the corrected driver.
- Radio.BleRadio.Transmit: takes the wait of `rubble-nrf5x/src/radio.rs:436` to end with the packet sent whatever SHORTS holds. On the hardware it ends only when READY->START and END->DISABLE are set; after `transmit_data` (SHORTS = {READY->START}) or a data-mode acknowledge, a `transmit_advertising` would wait forever. The model does not capture that hang.
- nRF51 trim loading (`rubble-nrf5x/src/radio.rs:84-108`): it copies factory values through foreign register bindings; the FICR is not modelled.
- `compiler_fence` calls: memory-ordering barriers with no sequential meaning; the model is sequential.
- The peripheral's own progress between driver calls is not modelled, except for the reception in `Scenarios.PeripheralReceives`. After a DISABLE task the radio is taken to be disabled, even where DISABLED->TXEN would start a new ramp-up.
- PACKETPTR holds the buffer's address in the source; the model records which of the two buffers it designates.
- The register bindings, `Header::parse`/`to_u16`/`payload_length`, the channel mappings and the link-layer constants are not part of this model; they are given the definitions listed above.
- A callback may call the transmitter any number of times; the model lets it make at most one transmit call, after copying its payload.
- `Radio.BleRadio.TxPayloadBuf`: returns the bounds of the payload region in `txBuf` rather than a mutable slice; the caller writes through `txBuf`.
- `Radio.BleRadio.RecvInterrupt`: the `assert!`s of the handler are preconditions rather than a panic path.
- `rubble/src/time.rs`: `Instant` and `Duration` are type aliases over a crate that is not part of this model, and `Timer` has no implementation; only `T_IFS = 150` µs is used.
- The commented-out TIFS shortcut code (`rubble-nrf5x/src/radio.rs:157-167`) is not live and is not modelled. As a result, the hardware T_IFS timer is programmed for data channels only, not for advertising channels.

## Findings

| source | as written | input that shows it | evidently intended | confidence | as-written member | corrected member |
|---|---|---|---|---|---|---|
| rubble-nrf5x/src/radio.rs:405-407 | `prefix0.write` naming only `ap1` starts from PREFIX0's reset value, so AP0, the prefix of logical address 0, becomes 0 | `configure_receiver(ListenData{..})` and then `configure_receiver(ListenAdvertising{..})`: logical address 0 reads 0x0089BED6, not 0x8E89BED6 | set AP1 and keep AP0 (`modify`), so the advertising access address survives a connection | medium, not executed: it rests on the register-binding `write` convention | `Registers.DataSetupAsWrittenLosesAdvertisingAddress` | `Registers.DataSetup` |
