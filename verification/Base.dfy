/** Machine integers and the option type shared by the models. */
module Base {

  const TWO_32: int := 0x1_0000_0000
  const TWO_64: int := 0x1_0000_0000_0000_0000
  const INT_MAX: int := 0x7fff_ffff

  type byte = b: int | 0 <= b < 256
  type u32 = x: int | 0 <= x < 0x1_0000_0000
  type u64 = x: int | 0 <= x < 0x1_0000_0000_0000_0000

  datatype Option<+T> = None | Some(value: T)

  function Min(a: nat, b: nat): nat
  {
    if a < b then a else b
  }

  /** What a C `int` holds after the mathematical result x wraps to 32 bits. */
  function Int32(x: int): int
  {
    var m := x % TWO_32;
    if m > INT_MAX then m - TWO_32 else m
  }
}
