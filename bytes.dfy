/**
 * Unsigned bytes, and the C shift and mask expressions the HORI drivers
 * apply to report bytes.  A `u8` operand is promoted to a non-negative
 * `int` before shifting, so on the values that occur here `x >> s` drops
 * the `s` low bits and `x << s` is `x * 2^s` (no shifted byte reaches the
 * sign bit of a 32-bit int).
 */
module Bytes {

  newtype byte = x: int | 0 <= x < 256

  /** 2 to the power `n`. */
  function Pow2(n: nat): (r: nat)
    ensures r >= 1
  {
    if n == 0 then 1 else 2 * Pow2(n - 1)
  }

  /** C `x >> s` on a promoted unsigned operand: `s` halvings, each dropping the low bit. */
  function Shr(x: nat, s: nat): (r: nat)
    ensures r <= x
    decreases s
  {
    if s == 0 then x else Shr(x / 2, s - 1)
  }

  /** C `x << s` on a promoted unsigned operand. */
  function Shl(x: nat, s: nat): (r: nat)
    ensures x != 0 ==> r >= x
  {
    x * Pow2(s)
  }

  /** C `(x >> s) & 1`: bit `s` of `x`. */
  function Bit(x: nat, s: nat): (r: nat)
    ensures r == 0 || r == 1
  {
    Shr(x, s) % 2
  }

  /** C `x & 0x0f`: the low nibble. */
  function LowNibble(x: byte): (r: nat)
    ensures r < 16
  {
    x as nat % 16
  }

  /** C logical negation twice, `!!x`: 1 for any non-zero value. */
  function NotNot(x: int): (r: int)
    ensures r == 0 <==> x == 0
    ensures r == 0 || r == 1
  {
    if x == 0 then 0 else 1
  }

  lemma {:induction false} Pow2Monotonic(m: nat, n: nat)
    requires m <= n
    ensures Pow2(m) <= Pow2(n)
    decreases n - m
  {
    if m < n {
      Pow2Monotonic(m, n - 1);
    }
  }

  /** A value below 2^n, shifted right by `s <= n` places, is below 2^(n - s). */
  lemma {:induction false} ShrBelow(x: nat, n: nat, s: nat)
    requires x < Pow2(n)
    requires s <= n
    ensures Shr(x, s) < Pow2(n - s)
    decreases s
  {
    if s > 0 {
      ShrBelow(x / 2, n - 1, s - 1);
    }
  }

  /** Shifting a byte right by eight or more places always gives zero. */
  lemma ShrByteByEightOrMore(x: byte, s: nat)
    requires s >= 8
    ensures Shr(x as nat, s) == 0
  {
    Pow2Monotonic(8, s);
    ShrBelow(x as nat, s, s);
  }
}
