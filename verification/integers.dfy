/** Integers as the machine has them. */
module Integers {

  const MAX_INT64 := 0x7FFF_FFFF_FFFF_FFFF

  /** The 64-bit signed value of an integer, which wraps. */
  function Int64(x: int): int {
    var low := x % 0x1_0000_0000_0000_0000;
    if low <= MAX_INT64 then low else low - 0x1_0000_0000_0000_0000
  }

  function Min(a: nat, b: nat): nat {
    if a < b then a else b
  }

  lemma Int64Small(x: int)
    requires -MAX_INT64 - 1 <= x <= MAX_INT64
    ensures Int64(x) == x
  {
  }

  /** Adding a multiple of the modulus changes nothing. */
  lemma Int64Shift(x: int, k: int)
    ensures Int64(x + k * 0x1_0000_0000_0000_0000) == Int64(x)
  {
    var m := 0x1_0000_0000_0000_0000;
    ModOfSum(x, k, m);
  }

  lemma ModOfSum(x: int, k: int, m: int)
    requires m > 0
    ensures (x + k * m) % m == x % m
  {
    var y := x + k * m;
    var d := x / m + k - y / m;
    assert d * m == y % m - x % m;
    MultipleOf(d, m);
  }

  lemma MultipleOf(d: int, m: int)
    requires m > 0
    ensures (d >= 1 ==> d * m >= m) && (d <= -1 ==> d * m <= -m)
  {
  }

  /** The wrapped value is the 64-bit number from which the integer differs by whole wraps. */
  lemma Int64Is(x: int, wraps: int)
    requires -MAX_INT64 - 1 <= x - wraps * 0x1_0000_0000_0000_0000 <= MAX_INT64
    ensures Int64(x) == x - wraps * 0x1_0000_0000_0000_0000
  {
    var y := x - wraps * 0x1_0000_0000_0000_0000;
    Int64Shift(y, wraps);
    Int64Small(y);
    hide Int64;
  }
}
