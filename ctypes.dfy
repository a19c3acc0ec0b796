/** The C++ integer types the library uses, and the conversions and operators it
    applies to them, written out over Dafny's unbounded integers. */
module CTypes {

  /** `unsigned char` */
  type byte = x: int | 0 <= x < 0x100

  /** `unsigned short` */
  type uint16 = x: int | 0 <= x < 0x1_0000

  /** `unsigned int`, 32 bits wide */
  type uint32 = x: int | 0 <= x < 0x1_0000_0000

  /** `int`, 32 bits wide */
  type int32 = x: int | -0x8000_0000 <= x < 0x8000_0000

  /** A pointer that may be NULL, for values owned through a pointer. */
  datatype Option<T> = None | Some(value: T)

  /** Narrowing any integer to `unsigned char`: the value modulo 2^8. */
  function ToByte(x: int): (b: byte)
    ensures (x - b) % 0x100 == 0
    ensures 0 <= x < 0x100 ==> b == x
  {
    x % 0x100
  }

  /** Unsigned 32-bit arithmetic: the value modulo 2^32. */
  function ToUint32(x: int): (u: uint32)
    ensures (x - u) % 0x1_0000_0000 == 0
    ensures 0 <= x < 0x1_0000_0000 ==> u == x
  {
    x % 0x1_0000_0000
  }

  /** Passing an `unsigned int` where an `int` is expected: the two's-complement
      reading of the same 32 bits. */
  function ToInt32(u: uint32): (i: int32)
    ensures ToUint32(i) == u
    ensures u < 0x8000_0000 <==> i >= 0
  {
    if u < 0x8000_0000 then u else u - 0x1_0000_0000
  }

  /** C's `/` on integers: the quotient truncated toward zero. */
  function Quot(a: int, d: int): (q: int)
    requires d > 0
    ensures a >= 0 ==> 0 <= q * d <= a < q * d + d
    ensures a <= 0 ==> q * d - d < a <= q * d <= 0
  {
    if a >= 0 then a / d else -((-a) / d)
  }

  /** C's `%` on integers: the remainder that goes with `Quot`, which takes the
      sign of the dividend. */
  function Rem(a: int, d: int): (r: int)
    requires d > 0
    ensures a == Quot(a, d) * d + r
    ensures -d < r < d
    ensures a >= 0 ==> r >= 0
    ensures a <= 0 ==> r <= 0
  {
    if a >= 0 then a % d else -((-a) % d)
  }

  /** `>> 8` on a signed integer: an arithmetic shift, which rounds toward
      negative infinity. */
  function ShiftRight8(a: int): (r: int)
    ensures r * 0x100 <= a < r * 0x100 + 0x100
  {
    a / 0x100
  }
}
