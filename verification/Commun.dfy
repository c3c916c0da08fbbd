/** What several parts share. */
module Commun {
  datatype Option<T> = None | Some(value: T)

  const U64_MAX: nat := 0xFFFF_FFFF_FFFF_FFFF

  /** Saturation of unsigned 64-bit arithmetic. */
  function Sat(n: int): (r: int)
    ensures n >= 0 ==> 0 <= r <= n && (r == n <==> n <= U64_MAX)
  {
    if n <= U64_MAX then n else U64_MAX
  }
}
