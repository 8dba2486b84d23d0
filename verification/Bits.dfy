/** Facts about eight bits that need no context. */
module Bits {

  lemma FromBits(x: bv8)
    ensures (x as int) as bv8 == x
  {
  }

  lemma Successor(x: bv8)
    requires x != 255
    ensures (x + 1) as int == x as int + 1
  {
  }

  /** Every number below 256 is one of eight bits. */
  lemma {:induction false} SomeBits(a: nat) returns (x: bv8)
    requires a < 256
    ensures x as int == a
  {
    if a == 0 {
      x := 0;
    } else {
      var y := SomeBits(a - 1);
      Successor(y);
      x := y + 1;
    }
  }

  lemma ToBits(a: int)
    requires 0 <= a < 256
    ensures (a as bv8) as int == a
  {
    var x := SomeBits(a);
    FromBits(x);
  }

  lemma OneBit(x: bv8, y: bv8, m: bv8)
    requires m == 1 || m == 2 || m == 4 || m == 8 || m == 16 || m == 32 || m == 64 || m == 128
    ensures (x ^ y) & m != 0 <==> ((x & m != 0) != (y & m != 0))
  {
  }

  lemma Cancels(x: bv8, y: bv8)
    ensures (x ^ y) ^ y == x && x ^ 0 == x && x ^ y == y ^ x
  {
  }
}
