/** The conduit id: what the two contributions make of each other, bit by bit, and what can be told from it. */
module ConduitIds {
  import opened Bits
  import opened Bytes
  import opened Portal

  // ------------------------------------------------------------------------------------------------
  // Bytes and their bits

  function Mask(k: nat): bv8
    requires k < 8
  {
    [1, 2, 4, 8, 16, 32, 64, 128][k]
  }

  /** Bit `k` of a byte, counted from the least significant one. */
  predicate Bit(a: byte, k: nat)
    requires k < 8
  {
    (a as bv8) & Mask(k) != 0
  }

  lemma MaskIsOneBit(k: nat)
    requires k < 8
    ensures var m := Mask(k); m == 1 || m == 2 || m == 4 || m == 8 || m == 16 || m == 32 || m == 64 || m == 128
  {
  }

  lemma XorByteBits(a: byte, b: byte)
    ensures XorByte(a, b) as bv8 == (a as bv8) ^ (b as bv8)
  {
    FromBits((a as bv8) ^ (b as bv8));
  }

  /** A bit is set in the result if and only if it is set in exactly one of the two. */
  lemma EitherBit(a: byte, b: byte, k: nat)
    requires k < 8
    ensures Bit(XorByte(a, b), k) <==> Bit(a, k) != Bit(b, k)
  {
    XorByteBits(a, b);
    MaskIsOneBit(k);
    OneBit(a as bv8, b as bv8, Mask(k));
  }

  lemma XorByteLaws(a: byte, b: byte)
    ensures XorByte(XorByte(a, b), b) == a && XorByte(a, 0) == a && XorByte(a, b) == XorByte(b, a)
  {
    XorByteBits(a, b);
    Cancels(a as bv8, b as bv8);
    ToBits(a);
  }

  // ------------------------------------------------------------------------------------------------
  // Contributions

  /** `xor_arrays`: the loop over the sixteen bytes sets the bits that are set in exactly one of the two. */
  method XorLoop(a: array<byte>, b: array<byte>) returns (result: array<byte>)
    requires a.Length == 16 && b.Length == 16
    ensures fresh(result) && result.Length == 16 && result[..] == XorArrays(a[..], b[..])
    ensures forall i, k :: 0 <= i < 16 && 0 <= k < 8 ==> (Bit(result[i], k) <==> Bit(a[i], k) != Bit(b[i], k))
  {
    result := new byte[16](_ => 0);
    for i := 0 to 16
      invariant result.Length == 16
      invariant forall k :: 0 <= k < i ==> result[k] == XorByte(a[k], b[k])
    {
      result[i] := XorByte(a[i], b[i]);
    }
    assert result[..] == XorArrays(a[..], b[..]);
    forall i, k | 0 <= i < 16 && 0 <= k < 8 ensures Bit(result[i], k) <==> Bit(a[i], k) != Bit(b[i], k) {
      EitherBit(a[i], b[i], k);
    }
  }

  /** One contribution can be taken out of the result again, and one without any bit changes nothing. */
  lemma XorLaws(a: Uuid, b: Uuid)
    ensures XorArrays(XorArrays(a, b), b) == a && XorArrays(a, b) == XorArrays(b, a)
    ensures (forall i :: 0 <= i < 16 ==> b[i] == 0) ==> XorArrays(a, b) == a
  {
    forall i | 0 <= i < 16
      ensures XorByte(XorByte(a[i], b[i]), b[i]) == a[i] && XorByte(a[i], 0) == a[i]
      ensures XorByte(a[i], b[i]) == XorByte(b[i], a[i])
    {
      XorByteLaws(a[i], b[i]);
    }
    assert XorArrays(a, b) == XorArrays(b, a);
    assert XorArrays(XorArrays(a, b), b) == a;
  }

  /** Both sides compute the same conduit id from the two contributions. */
  lemma ConduitIdAgrees(a: Uuid, b: Uuid)
    ensures ConduitId(a, b) == ConduitId(b, a)
  {
    XorLaws(a, b);
  }

  /** The sixteen little-endian bytes of the conduit id have exactly the bits that one of the contributions has alone. */
  lemma ConduitIdBits(a: Uuid, b: Uuid, i: nat, k: nat)
    requires i < 16 && k < 8
    ensures Bit(Le(ConduitId(a, b), 16)[i], k) <==> Bit(a[i], k) != Bit(b[i], k)
  {
    LeExact(XorArrays(a, b));
    EitherBit(a[i], b[i], k);
  }

  /** Whoever contributed `a` has different conduit ids with peers that contributed different things. */
  lemma ConduitIdsDiffer(a: Uuid, b: Uuid, c: Uuid)
    ensures ConduitId(a, b) == ConduitId(a, c) <==> b == c
  {
    LeExact(XorArrays(a, b));
    LeExact(XorArrays(a, c));
    XorLaws(a, b);
    XorLaws(a, c);
    XorLaws(b, a);
    XorLaws(c, a);
  }
}
