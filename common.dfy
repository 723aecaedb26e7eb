/** Value types shared by every part of the model. */
module Base {
  datatype Option<T> = None | Some(value: T)

  const TwoTo16: nat := 0x1_0000
  const TwoTo32: nat := 0x1_0000_0000
  const TwoTo31: int := 0x8000_0000

  /** A `uint` / `uint32_t` value. */
  type UInt32 = x: int | 0 <= x < 0x1_0000_0000

  /** A `byte` value. */
  type Byte = x: int | 0 <= x < 0x100

  /** A `uint16_t` value. */
  type UInt16 = x: int | 0 <= x < 0x1_0000

  /** C# `(ushort)x` and C++ `static_cast<uint16_t>(x)`: the low 16 bits. */
  function ToUInt16(x: int): (r: nat)
    ensures r < TwoTo16
    ensures (x - r) % TwoTo16 == 0
    ensures 0 <= x < TwoTo16 ==> r == x
  {
    x % TwoTo16
  }

  /** Unsigned 32-bit increment, as `uint` arithmetic wraps in C#. */
  function IncUInt32(x: nat): (r: nat)
    requires x < TwoTo32
    ensures r < TwoTo32
    ensures r == if x == TwoTo32 - 1 then 0 else x + 1
  {
    (x + 1) % TwoTo32
  }

  /** The unchecked C# cast `(int)x` of a `uint`: the same 32 bits read as signed. */
  function ToInt32(x: UInt32): (r: int)
    ensures -TwoTo31 <= r < TwoTo31
    ensures (r - x) % TwoTo32 == 0
    ensures x < TwoTo31 <==> r == x
  {
    if x < TwoTo31 then x else x - TwoTo32
  }

  /** Unchecked `int` arithmetic: the exact result wrapped into the signed 32-bit range. */
  function WrapInt32(x: int): (r: int)
    ensures -TwoTo31 <= r < TwoTo31
    ensures (r - x) % TwoTo32 == 0
    ensures -TwoTo31 <= x < TwoTo31 ==> r == x
  {
    (x + TwoTo31) % TwoTo32 - TwoTo31
  }
}
