/** Lengths on the link: whole 32-bit words, kept in 16-bit variables. */
module Align {

  /** _SL_PROTOCOL_ALIGN_SIZE. */
  function Align4(n: nat): nat {
    (n + 3) / 4 * 4
  }

  /** It is the least multiple of 4 that is not below `n`. */
  lemma Align4IsLeast(n: nat, r: nat)
    ensures r % 4 == 0 && n <= r < n + 4 <==> r == Align4(n)
  {
  }

  lemma Align4Add(a: nat, n: nat)
    requires a % 4 == 0
    ensures a + Align4(n) == Align4(a + n)
  {
  }

  /** What a store to an unsigned 16-bit variable keeps. */
  function U16(n: nat): nat {
    n % 0x1_0000
  }
}
