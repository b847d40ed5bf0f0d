/** Words, conversions and small shared datatypes.

    A register is a value of type `u16`; every place where the program's unsigned
    arithmetic may wrap says so with `Wrap16` or `Wrap32`.  Floating-point quantities
    are modelled by `real`. */
module Prelude {

  datatype Option<+T> = None | Some(value: T)

  type u8 = x: int | 0 <= x < 0x100
  type u16 = x: int | 0 <= x < 0x1_0000
  type u32 = x: int | 0 <= x < 0x1_0000_0000

  /** The "not implemented" sentinels for uint16, int16 and uint32 registers. */
  const NOT_IMPL_U16: u16 := 0xFFFF
  const NOT_IMPL_S16: u16 := 0x8000
  const NOT_IMPL_U32: u32 := 0xFFFF_FFFF

  function Wrap8(x: int): u8 {
    x % 0x100
  }

  function Wrap16(x: int): u16 {
    x % 0x1_0000
  }

  function Wrap32(x: int): u32 {
    x % 0x1_0000_0000
  }

  /** Conversion to a signed 32-bit integer. */
  function Int32(x: int): int {
    (x + 0x8000_0000) % 0x1_0000_0000 - 0x8000_0000
  }

  function Min(x: int, y: int): int {
    if x < y then x else y
  }

  function Max(x: int, y: int): int {
    if x < y then y else x
  }

  function Clamp(v: int, lo: int, hi: int): int {
    if v < lo then lo else if v > hi then hi else v
  }

  /** Conversion of a floating-point value to an integer: truncation toward zero. */
  function Trunc(r: real): int {
    if r < 0.0 then -((-r).Floor) else r.Floor
  }

  function Real16(r: real): u16 {
    Wrap16(Trunc(r))
  }

  function Real32(r: real): u32 {
    Wrap32(Trunc(r))
  }

  /** Two registers, high word first. */
  function Acc32(v: nat): (r: seq<u16>)
    ensures |r| == 2
  {
    [Wrap16(v / 0x1_0000), Wrap16(v)]
  }

  function Join32(hi: u16, lo: u16): u32 {
    hi * 0x1_0000 + lo
  }

  lemma Acc32Joins(v: u32)
    ensures Join32(Acc32(v)[0], Acc32(v)[1]) == v
  {
  }

  function ScaleFactor(sf: int): u16 {
    Wrap16(sf)
  }

  /** The rounding shared by the trip-curve and frequency encoders: zero for
      non-positive input, `max` above the register's range, otherwise the nearest
      integer (halves up). */
  function Saturating(v: real, max: nat): (r: nat)
    ensures r <= max
  {
    if v <= 0.0 then 0
    else if v > max as real then max
    else
      assert (v + 0.5).Floor as real <= v + 0.5 < max as real + 1.0;
      (v + 0.5).Floor
  }

  lemma SaturatingIsNearest(v: real, max: nat)
    requires 0.0 < v <= max as real
    ensures v - 0.5 < Saturating(v, max) as real <= v + 0.5
  {
  }

  lemma SaturatingIsMonotone(v: real, w: real, max: nat)
    requires v <= w
    ensures Saturating(v, max) <= Saturating(w, max)
  {
    if 0.0 < v && w <= max as real {
      assert (v + 0.5).Floor as real <= w + 0.5;
    }
  }

  lemma SaturatingIsExact(n: nat, max: nat)
    requires n <= max
    ensures Saturating(n as real, max) == n
  {
  }
}
