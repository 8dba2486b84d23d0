/** Bytes, little-endian integers and the length-prefixed frames every composite value is made of. */
module Bytes {

  type byte = n: int | 0 <= n < 256

  datatype Option<+T> = None | Some(value: T)

  /** One more than the largest u64, and, on the 64-bit platforms modelled here, than the largest usize. */
  const U64_LIMIT: nat := 0x1_0000_0000_0000_0000

  function Pow256(w: nat): (r: nat)
    ensures r > 0
  {
    if w == 0 then 1 else 256 * Pow256(w - 1)
  }

  /** The `w` little-endian bytes of `n`, as `to_le_bytes` writes them. */
  function Le(n: nat, w: nat): (b: seq<byte>)
    ensures |b| == w
  {
    if w == 0 then [] else [n % 256] + Le(n / 256, w - 1)
  }

  function FromLe(b: seq<byte>): (n: nat)
    ensures n < Pow256(|b|)
  {
    if b == [] then 0 else b[0] + 256 * FromLe(b[1..])
  }

  lemma {:induction false} LeRoundTrip(n: nat, w: nat)
    requires n < Pow256(w)
    ensures FromLe(Le(n, w)) == n
  {
    if w > 0 {
      LeRoundTrip(n / 256, w - 1);
      assert Le(n, w)[1..] == Le(n / 256, w - 1);
    }
  }

  lemma {:induction false} LeExact(b: seq<byte>)
    ensures Le(FromLe(b), |b|) == b
  {
    if b != [] {
      LeExact(b[1..]);
      assert FromLe(b) / 256 == FromLe(b[1..]) && FromLe(b) % 256 == b[0];
    }
  }

  lemma Distribute(m: nat, k: nat, r: nat)
    ensures 256 * (m * k + r) == (256 * m) * k + 256 * r
  {
  }

  lemma DivideUnique(n: int, m: nat, k: int, r: nat)
    requires r < m && n == m * k + r
    ensures n / m == k && n % m == r
  {
    var q := n / m;
    assert n == m * q + n % m;
    assert m * (q - k) == r - n % m;
    if q > k {
      MoreThanOnce(m, q - k);
    } else if q < k {
      MoreThanOnce(m, k - q);
    }
  }

  lemma MoreThanOnce(m: nat, d: nat)
    requires d >= 1
    ensures m * d >= m
  {
  }

  lemma DivTwice(n: nat, m: nat)
    requires m > 0
    ensures n / (256 * m) == n / 256 / m
  {
    var q := n / 256;
    var k, r := q / m, q % m;
    assert q == m * k + r && n == 256 * q + n % 256;
    Distribute(m, k, r);
    DivideUnique(n, 256 * m, k, 256 * r + n % 256);
  }

  lemma PowersOf256()
    ensures Pow256(1) == 0x100 && Pow256(2) == 0x1_0000 && Pow256(4) == 0x1_0000_0000
    ensures Pow256(8) == U64_LIMIT
    ensures Pow256(16) == U64_LIMIT * U64_LIMIT
  {
    assert Pow256(1) == 0x100;
    assert Pow256(2) == 0x1_0000;
    assert Pow256(3) == 0x100_0000;
    assert Pow256(4) == 0x1_0000_0000;
    Split256(4, 4);
    Split256(8, 8);
  }

  lemma {:induction false} Split256(v: nat, w: nat)
    ensures Pow256(v + w) == Pow256(v) * Pow256(w)
  {
    if v > 0 {
      Split256(v - 1, w);
    }
  }

  /** The 8-byte header in front of every length-prefixed part. */
  function U64(n: nat): (b: seq<byte>)
    ensures |b| == 8
  {
    Le(n, 8)
  }

  function FromU64(b: seq<byte>): (n: nat)
    requires |b| == 8
    ensures n < U64_LIMIT
  {
    PowersOf256();
    FromLe(b)
  }

  /** `len:u64 + bytes`. */
  function Frame(b: seq<byte>): (f: seq<byte>)
    ensures |f| == 8 + |b|
  {
    U64(|b|) + b
  }

  datatype Split = Split(inner: seq<byte>, rest: seq<byte>)

  /** Reads one frame off the front: header check, header, body check, body. */
  function Unframe(data: seq<byte>): (r: Option<Split>)
    ensures r.Some? ==> |data| == 8 + |r.value.inner| + |r.value.rest|
  {
    if |data| < 8 then None
    else
      var len := FromU64(data[..8]);
      if |data| < 8 + len then None
      else Some(Split(data[8..8 + len], data[8 + len..]))
  }

  lemma UnframeFrame(b: seq<byte>, rest: seq<byte>)
    requires |b| < U64_LIMIT
    ensures Unframe(Frame(b) + rest) == Some(Split(b, rest))
  {
    PowersOf256();
    LeRoundTrip(|b|, 8);
    var data := Frame(b) + rest;
    assert data[..8] == U64(|b|);
    assert data[8..8 + |b|] == b;
    assert data[8 + |b|..] == rest;
  }

  lemma FrameUnframe(data: seq<byte>)
    requires Unframe(data).Some?
    ensures Frame(Unframe(data).value.inner) + Unframe(data).value.rest == data
    ensures |Unframe(data).value.inner| < U64_LIMIT
  {
    LeExact(data[..8]);
    var s := Unframe(data).value;
    assert Frame(s.inner) == data[..8 + |s.inner|];
  }

  /** A longer input starts with the same frame. */
  lemma UnframeExtend(data: seq<byte>, more: seq<byte>)
    requires Unframe(data).Some? && data <= more
    ensures Unframe(more).Some? && Unframe(more).value.inner == Unframe(data).value.inner
    ensures Unframe(data).value.rest <= Unframe(more).value.rest
  {
    assert more[..8] == data[..8];
    var len := FromU64(data[..8]);
    assert more[8..8 + len] == data[8..8 + len];
  }

  lemma UnframeAppend(data: seq<byte>, tail: seq<byte>)
    requires Unframe(data).Some?
    ensures Unframe(data + tail) == Some(Split(Unframe(data).value.inner, Unframe(data).value.rest + tail))
  {
    UnframeExtend(data, data + tail);
    assert Unframe(data + tail).value.rest == Unframe(data).value.rest + tail;
  }

  /** The same read at an offset, as the decoders do it. */
  lemma UnframeAt(input: seq<byte>, at: nat)
    requires at <= |input|
    ensures Unframe(input[at..])
         == if |input| < at + 8 then None
            else
              var end := at + 8 + FromU64(input[at..at + 8]);
              if |input| < end then None else Some(Split(input[at + 8..end], input[end..]))
  {
    if at + 8 <= |input| {
      assert input[at..][..8] == input[at..at + 8];
      var len := FromU64(input[at..at + 8]);
      if at + 8 + len <= |input| {
        assert input[at..][8..8 + len] == input[at + 8..at + 8 + len];
        assert input[at..][8 + len..] == input[at + 8 + len..];
      }
    }
  }
}
