/** Fixed-width integers and the small bit computations the radio driver performs
    while it fills the radio's registers: the 24-bit CRC masks and the split of a
    32-bit access address into a base register value and a prefix byte.

    The bitwise operators are defined bit by bit, as the hardware applies them;
    the lemmas below connect them to arithmetic. */
module Bits {

  newtype u8 = x: int | 0 <= x < 0x100
  newtype u16 = x: int | 0 <= x < 0x1_0000
  newtype u32 = x: int | 0 <= x < 0x1_0000_0000

  const TWO_8: int := 0x100
  const TWO_24: int := 0x100_0000
  const TWO_32: int := 0x1_0000_0000

  function Min(a: int, b: int): (m: int)
    ensures m <= a && m <= b && (m == a || m == b)
  {
    if a <= b then a else b
  }

  function Pow2(n: nat): (p: nat)
    ensures p >= 1
  {
    if n == 0 then 1 else 2 * Pow2(n - 1)
  }

  lemma Pow2Values()
    ensures Pow2(8) == TWO_8 && Pow2(24) == TWO_24
  {
    assert Pow2(4) == 16;
    assert Pow2(8) == 256;
    assert Pow2(12) == 4096;
    assert Pow2(16) == 65536;
    assert Pow2(20) == 1048576;
  }

  /** `x & y`: bit i of the result is set when bit i is set in both. */
  function BitAnd(x: nat, y: nat): (r: nat)
    ensures r <= x && r <= y
  {
    if x == 0 || y == 0 then 0
    else 2 * BitAnd(x / 2, y / 2) + (if x % 2 == 1 && y % 2 == 1 then 1 else 0)
  }

  /** `x | y`: bit i of the result is set when bit i is set in either. */
  function BitOr(x: nat, y: nat): (r: nat)
    ensures x <= r && y <= r && r <= x + y
    decreases x + y
  {
    if x == 0 then y
    else if y == 0 then x
    else 2 * BitOr(x / 2, y / 2) + (if x % 2 == 1 || y % 2 == 1 then 1 else 0)
  }

  /** Masking with k low one-bits keeps the remainder modulo 2^k. */
  lemma {:induction false} BitAndLowOnes(x: nat, k: nat)
    ensures BitAnd(x, Pow2(k) - 1) == x % Pow2(k)
  {
    var p := Pow2(k);
    if k == 0 {
      assert p == 1;
    } else if x == 0 {
      ModUnique(0, p, 0, 0);
    } else {
      var m := Pow2(k - 1);
      LowOnesHalve(k);
      BitAndOddStep(x, p - 1);
      BitAndLowOnes(x / 2, k - 1);
      assert BitAnd(x, p - 1) == 2 * ((x / 2) % m) + x % 2;
      HalveMod(x, m);
    }
  }

  /** The k low one-bits, halved, are the k - 1 low one-bits. */
  lemma LowOnesHalve(k: nat)
    requires k > 0
    ensures Pow2(k) == 2 * Pow2(k - 1)
    ensures (Pow2(k) - 1) / 2 == Pow2(k - 1) - 1 && (Pow2(k) - 1) % 2 == 1
  {
  }

  /** One step of `BitAnd` against an odd mask: the low bit of `x` is kept. */
  lemma BitAndOddStep(x: nat, y: nat)
    requires x > 0 && y % 2 == 1
    ensures BitAnd(x, y) == 2 * BitAnd(x / 2, y / 2) + x % 2
  {
  }

  /** Or-ing a value shifted left by k with one below 2^k sets disjoint bits,
      so it adds them. */
  lemma {:induction false} BitOrDisjoint(a: nat, b: nat, k: nat)
    requires b < Pow2(k)
    ensures BitOr(a * Pow2(k), b) == a * Pow2(k) + b
  {
    if k > 0 && a > 0 && b > 0 {
      ShiftedHalve(a, k);
      BitOrDisjoint(a, b / 2, k - 1);
    }
  }

  /** A value shifted left by k > 0 is even, and halving it shifts by k - 1. */
  lemma ShiftedHalve(a: nat, k: nat)
    requires k > 0
    ensures a * Pow2(k) == 2 * (a * Pow2(k - 1))
    ensures (a * Pow2(k)) / 2 == a * Pow2(k - 1) && (a * Pow2(k)) % 2 == 0
  {
    var m := Pow2(k - 1);
    assert Pow2(k) == 2 * m;
    assert a * (2 * m) == 2 * (a * m);
  }

  /** Taking the remainder modulo 2m bit by bit: the remainder of the halved
      value modulo m, doubled, plus the low bit. */
  lemma HalveMod(x: nat, m: nat)
    requires m >= 1
    ensures x % (2 * m) == 2 * ((x / 2) % m) + x % 2
  {
    var q, s := (x / 2) / m, (x / 2) % m;
    assert x == 2 * (x / 2) + x % 2;
    assert x / 2 == q * m + s;
    assert x == q * (2 * m) + (2 * s + x % 2);
    ModUnique(x, 2 * m, q, 2 * s + x % 2);
  }

  /** A remainder is determined by any quotient-remainder decomposition. */
  lemma ModUnique(x: int, d: int, q: int, t: int)
    requires d >= 1 && 0 <= t < d && x == q * d + t
    ensures x % d == t
  {
    var Q, T := x / d, x % d;
    assert x == Q * d + T;
    if q > Q {
      MulAtLeast(q - Q, d);
    } else if q < Q {
      MulAtLeast(Q - q, d);
    }
  }

  lemma MulAtLeast(a: int, d: int)
    requires a >= 1 && d >= 1
    ensures a * d >= d
  {
  }

  /** `x & 0x00FF_FFFF` (see `Mask24IsBitAnd`): the value a 24-bit register
      (CRCINIT, CRCPOLY) keeps of a 32-bit word. It is below 2^24 and differs
      from `x` only in the top byte. */
  function Mask24(x: u32): (r: u32)
    ensures r as int < TWO_24
    ensures (x as int - r as int) % TWO_24 == 0
  {
    (x as int % TWO_24) as u32
  }

  /** `addr << 8` on a `u32` (bits shifted past bit 31 are lost): the top byte
      is shifted out, the low byte is zero, and the upper 24 bits of the result
      are the low 24 bits of `addr`. */
  function AccessAddressBase(addr: u32): (r: u32)
    ensures r as int % TWO_8 == 0
    ensures r as int / TWO_8 == addr as int % TWO_24
  {
    BaseShift(addr as int);
    (addr as int * TWO_8 % TWO_32) as u32
  }

  /** `(addr >> 24) as u8`: the top byte of `addr`. */
  function AccessAddressPrefix(addr: u32): (r: u8)
    ensures r as int * TWO_24 <= addr as int < (r as int + 1) * TWO_24
  {
    (addr as int / TWO_24) as u8
  }

  /** The 32-bit access address the radio sends for a logical address whose
      base register holds `base` and whose prefix byte is `prefix`:
      `(prefix << 24) | (base >> 8)` (see `OnAirAddressIsBitOr`). The base
      register ignores its low byte and sends its upper 24 bits as the low 24
      bits of the address; the prefix is the top byte. */
  function OnAirAddress(base: u32, prefix: u8): (r: u32)
    ensures r as int / TWO_24 == prefix as int
    ensures r as int % TWO_24 == base as int / TWO_8
  {
    (prefix as int * TWO_24 + base as int / TWO_8) as u32
  }

  /** `Mask24` is the driver's `x & 0x00FF_FFFF`. */
  lemma Mask24IsBitAnd(x: u32)
    ensures Mask24(x) as nat == BitAnd(x as nat, 0x00FF_FFFF)
  {
    Pow2Values();
    BitAndLowOnes(x as nat, 24);
  }

  /** `OnAirAddress` is the address `(prefix << 24) | (base >> 8)`: the prefix
      and the base's upper 24 bits occupy disjoint bits. */
  lemma OnAirAddressIsBitOr(base: u32, prefix: u8)
    ensures OnAirAddress(base, prefix) as nat == BitOr(prefix as nat * TWO_24, base as nat / TWO_8)
  {
    Pow2Values();
    BitOrDisjoint(prefix as nat, base as nat / TWO_8, 24);
  }

  /** Splitting an address with `AccessAddressBase` and `AccessAddressPrefix`
      loses nothing: the radio sends exactly the address that was split. */
  lemma AccessAddressSplit(addr: u32)
    ensures OnAirAddress(AccessAddressBase(addr), AccessAddressPrefix(addr)) == addr
  {
    var b, p := AccessAddressBase(addr), AccessAddressPrefix(addr);
    var a := addr as int;
    assert p as int == a / TWO_24;
    assert a == a / TWO_24 * TWO_24 + a % TWO_24;
  }

  /** The arithmetic behind `AccessAddressBase`: shifting left by 8 and dropping
      everything above bit 31 leaves the low 24 bits in the upper three bytes. */
  lemma BaseShift(a: int)
    requires 0 <= a < TWO_32
    ensures (a * TWO_8) % TWO_32 % TWO_8 == 0
    ensures (a * TWO_8) % TWO_32 / TWO_8 == a % TWO_24
  {
    var q, s := a / TWO_24, a % TWO_24;
    assert a == q * TWO_24 + s;
    assert a * TWO_8 == q * TWO_32 + s * TWO_8;
    assert (a * TWO_8) % TWO_32 == s * TWO_8;
  }
}
