/** The 16-bit "basic operators" of the G.722 codec, over mathematical integers.
    A right shift in the source is an arithmetic shift, which is floor division. */
module FixedPoint {

  predicate IsInt16(v: int) {
    -32768 <= v <= 32767
  }

  function Abs(v: int): (r: nat) {
    if v < 0 then -v else v
  }

  function Sat16(v: int): (r: int)
    ensures IsInt16(r)
  {
    if v > 32767 then 32767 else if v < -32768 then -32768 else v
  }

  /** Saturation picks the representable value closest to the exact one. */
  lemma SaturationIsNearest(v: int, w: int)
    requires IsInt16(w)
    ensures Abs(Sat16(v) - v) <= Abs(w - v)
    ensures w != Sat16(v) ==> Abs(Sat16(v) - v) < Abs(w - v)
  {
  }

  function Add16(a: int, b: int): (r: int)
    ensures IsInt16(r)
  {
    Sat16(a + b)
  }

  function Sub16(a: int, b: int): (r: int)
    ensures IsInt16(r)
  {
    Sat16(a - b)
  }

  function Neg16(a: int): (r: int)
    ensures IsInt16(r)
  {
    Sat16(-a)
  }

  /** shl16 by three bits and by two bits: the only shift counts the codec uses. */
  function Shl3(a: int): (r: int)
    ensures IsInt16(r)
  {
    Sat16(a * 8)
  }

  function Shl2(a: int): (r: int)
    ensures IsInt16(r)
  {
    Sat16(a * 4)
  }

  function Mult16(a: int, b: int): (r: int)
    ensures IsInt16(r)
  {
    Sat16(a * b / 32768)
  }

  /** The G.722 'limit' to 15 bits. */
  function LimitPcm(v: int): (r: int)
    ensures -16384 <= r <= 16383
  {
    if v > 16383 then 16383 else if v < -16384 then -16384 else v
  }

  predicate IsInt32(v: int) {
    -0x8000_0000 <= v <= 0x7fff_ffff
  }

  function Sat32(v: int): (r: int)
    ensures IsInt32(r)
  {
    if v > 0x7fff_ffff then 0x7fff_ffff else if v < -0x8000_0000 then -0x8000_0000 else v
  }
}
