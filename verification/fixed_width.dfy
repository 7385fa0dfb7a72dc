/**
 * Fixed-width unsigned integers of the firmware, written out over Dafny's
 * unbounded `int`: the C conversions to `uint16_t`/`uint32_t` reduce modulo
 * the width, and `uint32_t` subtraction wraps.
 */
module FixedWidth {

  const Two16: int := 0x1_0000
  const Two32: int := 0x1_0000_0000

  type u16 = x: int | 0 <= x < 0x1_0000
  type u32 = x: int | 0 <= x < 0x1_0000_0000
  type u64 = x: int | 0 <= x < 0x1_0000_0000_0000_0000

  /** Conversion of any integer to `uint16_t`: reduction modulo 2^16. */
  function ToU16(n: int): (r: u16)
    ensures (n - r) % Two16 == 0
    ensures 0 <= n < Two16 ==> r == n
  {
    n % Two16
  }

  /** Conversion of any integer (here: a `uint64_t` time stamp) to `uint32_t`. */
  function ToU32(n: int): (r: u32)
    ensures (n - r) % Two32 == 0
    ensures 0 <= n < Two32 ==> r == n
  {
    n % Two32
  }

  /** `a - b` on two `uint32_t` operands: the difference modulo 2^32. */
  function Sub32(a: u32, b: u32): (r: u32)
    ensures ToU32(b + r) == a
    ensures a >= b ==> r == a - b
    ensures a < b ==> r == a - b + Two32
    ensures r == 0 <==> a == b
  {
    (a - b) % Two32
  }

  /** Adding back the wrapped difference recovers the minuend, in both directions. */
  lemma Sub32AddBack(a: u32, b: u32, d: u32)
    ensures Sub32(a, b) == d <==> ToU32(b + d) == a
  {
    if ToU32(b + d) == a {
      if b + d < Two32 {
        assert a == b + d;
      } else {
        assert a == b + d - Two32;
      }
    }
  }
}
