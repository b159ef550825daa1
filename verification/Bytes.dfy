/** Octets and the two bit operations the sources apply to them. */
module Bytes {

  type byte = x: int | 0 <= x < 256

  const TWO16: nat := 0x1_0000
  const TWO32: nat := 0x1_0000_0000
  const TWO64: nat := 0x1_0000_0000_0000_0000

  /** The conversions to the unsigned machine types. */
  function Uint32(n: nat): (r: nat)
    ensures r < TWO32
    ensures n < TWO32 ==> r == n
  {
    n % TWO32
  }

  function Uint64(n: nat): (r: nat)
    ensures r < TWO64
    ensures n < TWO64 ==> r == n
  {
    n % TWO64
  }

  /** Addition of 64-bit unsigned numbers. */
  function Add64(x: nat, y: nat): (r: nat)
    requires x < TWO64 && y < TWO64
    ensures r < TWO64
  {
    if x + y < TWO64 then x + y else x + y - TWO64
  }

  /** The bitwise `|` of two unsigned numbers. */
  function BitOr(a: nat, b: nat): nat {
    if a == 0 && b == 0 then 0
    else (if a % 2 == 1 || b % 2 == 1 then 1 else 0) + 2 * BitOr(a / 2, b / 2)
  }

  function Pow2(k: nat): (p: nat)
    ensures p > 0
  {
    if k == 0 then 1 else 2 * Pow2(k - 1)
  }

  lemma {:induction false} BitOrZero(b: nat)
    ensures BitOr(0, b) == b
    ensures BitOr(b, 0) == b
  {
    if b != 0 { BitOrZero(b / 2); }
  }

  /** `|` of numbers without a common bit is their sum. */
  lemma {:induction false} BitOrDisjoint(high: nat, low: nat, k: nat)
    requires low < Pow2(k)
    ensures BitOr(high * Pow2(k), low) == high * Pow2(k) + low
  {
    if k == 0 {
      BitOrZero(high);
    } else {
      var p := Pow2(k - 1);
      assert high * Pow2(k) == 2 * (high * p);
      BitOrDisjoint(high, low / 2, k - 1);
      assert BitOr(high * Pow2(k), low) == low % 2 + 2 * BitOr(high * p, low / 2);
    }
  }
}
