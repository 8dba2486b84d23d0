/** What the byte format guarantees: round trip, exact write-back, and no encoding that survives cutting or padding. */
module CodecTheorems {
  import opened Bytes
  import opened Codec

  // ------------------------------------------------------------------------------------------------
  // Round trip

  lemma {:induction false} IntRoundTrip(w: Width, signed: bool, n: int)
    requires IntFits(w, signed, n)
    ensures DecodeInt(w, signed, EncodeInt(w, n)) == n
  {
    var m := Pow256(w);
    EvenPower(w);
    var r := if n < 0 then n + m else n;
    ModOnce(r, m, if n < 0 then -1 else 0);
    assert n % m == r;
    LeRoundTrip(r, w);
  }

  lemma EvenPower(w: Width)
    ensures Pow256(w) == 2 * (Pow256(w) / 2)
  {
    assert Pow256(w) == 256 * Pow256(w - 1);
  }

  lemma ModOnce(r: int, m: nat, k: int)
    requires 0 <= r < m
    ensures (r + k * m) % m == r
  {
    var x := r + k * m;
    var q, s := x / m, x % m;
    assert (q - k) * m == r - s;
    if q - k >= 1 {
      Scale(1, q - k, m);
    } else if q - k <= -1 {
      Scale(1, k - q, m);
    }
  }

  lemma Scale(a: int, b: int, m: int)
    requires a <= b && 0 <= m
    ensures a * m <= b * m
  {
  }

  /** Decoding what was encoded gives the value back, and consumes exactly its bytes. The length bound is the one every
      buffer in memory meets: it fits the address space. */
  lemma {:induction false} RoundTrip(cx: Formats, ty: Ty, v: Val)
    requires cx.RoundTrips() && HasType(cx, ty, v) && OnWire(v)
    requires |Encode(cx, ty, v)| < U64_LIMIT
    ensures Decode(cx, ty, Encode(cx, ty, v)) == Some(v)
    decreases ty, 0, 0
  {
    match ty
    case TInt(w, s) => IntRoundTrip(w, s, v.n);
    case TUsize =>
      PowersOf256();
      LeRoundTrip(v.n, 8);
    case TBool =>
    case TUnit =>
    case TString => TailFrame(v.utf8);
    case TBytes => TailFrame(v.data);
    case TVec(e) =>
      ElemsRoundTrip(cx, e, v.elems);
      assert Encode(cx, ty, v)[8..] == EncodeElems(cx, e, v.elems);
    case TOption(t) =>
      if v.VSome? {
        TailRoundTrip(cx, t, v.v);
        assert Encode(cx, ty, v)[1..] == Frame(Encode(cx, t, v.v));
      }
    case TResult(t, e) =>
      TailRoundTrip(cx, if v.VOk? then t else e, v.v);
      assert Encode(cx, ty, v)[1..] == Frame(Encode(cx, if v.VOk? then t else e, v.v));
    case TRecord(ts) => FieldsRoundTrip(cx, ts, v.fields);
    case TEnum(variants) => EnumRoundTrip(cx, variants, v);
    case TRef =>
    case TPort =>
  }

  lemma TailFrame(b: seq<byte>)
    requires |b| < U64_LIMIT
    ensures Unframe(Frame(b)) == Some(Split(b, []))
  {
    UnframeFrame(b, []);
    assert Frame(b) + [] == Frame(b);
  }

  lemma {:induction false} TailRoundTrip(cx: Formats, ty: Ty, v: Val)
    requires cx.RoundTrips() && HasType(cx, ty, v) && OnWire(v)
    requires |Encode(cx, ty, v)| < U64_LIMIT
    ensures DecodeTail(cx, ty, Frame(Encode(cx, ty, v))) == Some(v)
    decreases ty, 1, 0
  {
    TailFrame(Encode(cx, ty, v));
    RoundTrip(cx, ty, v);
  }

  lemma {:induction false} ElemsRoundTrip(cx: Formats, e: Ty, vs: seq<Val>)
    requires cx.RoundTrips() && ElemsHaveType(cx, e, vs) && AllOnWire(vs)
    requires |EncodeElems(cx, e, vs)| < U64_LIMIT
    ensures DecodeElems(cx, e, EncodeElems(cx, e, vs)) == Some(vs)
    decreases e, 1, |vs|
  {
    if vs != [] {
      var first, more := Encode(cx, e, vs[0]), EncodeElems(cx, e, vs[1..]);
      UnframeFrame(first, more);
      RoundTrip(cx, e, vs[0]);
      ElemsRoundTrip(cx, e, vs[1..]);
      assert EncodeElems(cx, e, vs) == Frame(first) + more;
      assert [vs[0]] + vs[1..] == vs;
    }
  }

  lemma {:induction false} FieldsRoundTrip(cx: Formats, ts: seq<Ty>, vs: seq<Val>)
    requires cx.RoundTrips() && FieldsHaveType(cx, ts, vs) && AllOnWire(vs)
    requires |EncodeFields(cx, ts, vs)| < U64_LIMIT
    ensures DecodeFields(cx, ts, EncodeFields(cx, ts, vs)) == Some(vs)
    decreases ts, 0, 0
  {
    if ts != [] {
      var first, more := Encode(cx, ts[0], vs[0]), EncodeFields(cx, ts[1..], vs[1..]);
      UnframeFrame(first, more);
      RoundTrip(cx, ts[0], vs[0]);
      FieldsRoundTrip(cx, ts[1..], vs[1..]);
      assert EncodeFields(cx, ts, vs) == Frame(first) + more;
      assert [vs[0]] + vs[1..] == vs;
    }
  }

  lemma {:induction false} EnumRoundTrip(cx: Formats, variants: seq<Variant>, v: Val)
    requires cx.RoundTrips() && HasType(cx, TEnum(variants), v) && OnWire(v)
    requires |Encode(cx, TEnum(variants), v)| < U64_LIMIT
    ensures Decode(cx, TEnum(variants), Encode(cx, TEnum(variants), v)) == Some(v)
    decreases variants, 0, 0
  {
    var fields := variants[FindVariant(variants, v.name)].fields;
    var payload := EncodeFields(cx, fields, v.fields);
    UnframeFrame(v.name, Frame(payload));
    TailFrame(payload);
    FieldsRoundTrip(cx, fields, v.fields);
  }

  // ------------------------------------------------------------------------------------------------
  // Write-back

  /** Every generic `Vec` inside an accepted input announces the number of elements it holds. The decoder reads that
      count but does not compare it. */
  ghost predicate CountsExact(cx: Formats, ty: Ty, data: seq<byte>)
    requires Decode(cx, ty, data).Some?
    decreases ty, 0, 0
  {
    match ty
    case TVec(e) =>
      FromU64(data[..8]) == |DecodeElems(cx, e, data[8..]).value| && ElemCountsExact(cx, e, data[8..])
    case TOption(t) =>
      assert data == [0] || DecodeTail(cx, t, data[1..]).Some?;
      data == [0] || CountsExact(cx, t, Unframe(data[1..]).value.inner)
    case TResult(t, e) =>
      assert DecodeTail(cx, if data[0] == 0 then t else e, data[1..]).Some?;
      CountsExact(cx, if data[0] == 0 then t else e, Unframe(data[1..]).value.inner)
    case TRecord(ts) => FieldCountsExact(cx, ts, data)
    case TEnum(variants) =>
      var s := Unframe(data).value;
      FieldCountsExact(cx, variants[FindVariant(variants, s.inner)].fields, Unframe(s.rest).value.inner)
    case _ => true
  }

  ghost predicate ElemCountsExact(cx: Formats, e: Ty, data: seq<byte>)
    requires DecodeElems(cx, e, data).Some?
    decreases e, 1, |data|
  {
    data == []
    || (var s := Unframe(data).value; CountsExact(cx, e, s.inner) && ElemCountsExact(cx, e, s.rest))
  }

  ghost predicate FieldCountsExact(cx: Formats, ts: seq<Ty>, data: seq<byte>)
    requires DecodeFields(cx, ts, data).Some?
    decreases ts, 0, 0
  {
    ts == []
    || (var s := Unframe(data).value; CountsExact(cx, ts[0], s.inner) && FieldCountsExact(cx, ts[1..], s.rest))
  }

  lemma FrameSplits(a: seq<byte>, x: seq<byte>, b: seq<byte>, y: seq<byte>)
    requires |a| == |b|
    ensures Frame(a) + x == Frame(b) + y <==> a == b && x == y
  {
    var l, r := Frame(a) + x, Frame(b) + y;
    assert l[8..8 + |a|] == a && l[8 + |a|..] == x;
    assert r[8..8 + |b|] == b && r[8 + |b|..] == y;
  }

  lemma {:induction false} IntWriteBack(w: Width, signed: bool, data: seq<byte>)
    requires |data| == w
    ensures IntFits(w, signed, DecodeInt(w, signed, data))
    ensures EncodeInt(w, DecodeInt(w, signed, data)) == data
  {
    var m, n := Pow256(w), FromLe(data);
    LeExact(data);
    EvenPower(w);
    TwosComplement(m, n, signed);
  }

  lemma TwosComplement(m: nat, n: nat, signed: bool)
    requires n < m && m == 2 * (m / 2)
    ensures var r := if signed && n >= m / 2 then n - m else n;
      r % m == n && if signed then -(m / 2) <= r < m / 2 else 0 <= r < m
  {
    ModOnce(n, m, if signed && n >= m / 2 then -1 else 0);
  }

  /** What a decoder accepted is well typed, re-encodes to the same number of bytes, and re-encodes to the very same
      bytes exactly when all its element counts were truthful. */
  lemma {:induction false} WriteBack(cx: Formats, ty: Ty, data: seq<byte>)
    requires cx.Injective() && Decode(cx, ty, data).Some? && |data| < U64_LIMIT
    ensures HasType(cx, ty, Decode(cx, ty, data).value) && OnWire(Decode(cx, ty, data).value)
    ensures |Encode(cx, ty, Decode(cx, ty, data).value)| == |data|
    ensures Encode(cx, ty, Decode(cx, ty, data).value) == data <==> CountsExact(cx, ty, data)
    decreases ty, 0, 0
  {
    match ty
    case TInt(w, s) => IntWriteBack(w, s, data);
    case TUsize => LeExact(data);
    case TBool =>
    case TUnit =>
    case TString => FrameUnframe(data);
    case TBytes => FrameUnframe(data);
    case TVec(e) => VecWriteBack(cx, e, data);
    case TOption(t) =>
      if data != [0] {
        TailWriteBack(cx, t, data);
      }
    case TResult(t, e) => TailWriteBack(cx, if data[0] == 0 then t else e, data);
    case TRecord(ts) => FieldsWriteBack(cx, ts, data);
    case TEnum(variants) => EnumWriteBack(cx, variants, data);
    case TRef =>
    case TPort =>
  }

  lemma {:induction false} TailWriteBack(cx: Formats, ty: Ty, data: seq<byte>)
    requires cx.Injective() && data != [] && DecodeTail(cx, ty, data[1..]).Some? && |data| < U64_LIMIT
    ensures var v := DecodeTail(cx, ty, data[1..]).value;
      && HasType(cx, ty, v) && OnWire(v)
      && |[data[0]] + Frame(Encode(cx, ty, v))| == |data|
      && ([data[0]] + Frame(Encode(cx, ty, v)) == data <==> CountsExact(cx, ty, Unframe(data[1..]).value.inner))
    decreases ty, 1, 0
  {
    var inner := Unframe(data[1..]).value.inner;
    WriteBack(cx, ty, inner);
    OnlyFrame(data);
    TaggedFrame(data[0], Encode(cx, ty, Decode(cx, ty, inner).value), inner);
  }

  lemma OnlyFrame(data: seq<byte>)
    requires data != [] && Unframe(data[1..]).Some? && Unframe(data[1..]).value.rest == []
    ensures data == [data[0]] + Frame(Unframe(data[1..]).value.inner)
  {
    var inner := Unframe(data[1..]).value.inner;
    FrameUnframe(data[1..]);
    assert Frame(inner) + [] == Frame(inner);
  }

  lemma TaggedFrame(tag: byte, a: seq<byte>, b: seq<byte>)
    requires |a| == |b| < U64_LIMIT
    ensures |[tag] + Frame(a)| == |[tag] + Frame(b)|
    ensures [tag] + Frame(a) == [tag] + Frame(b) <==> a == b
  {
    FrameSplits(a, [], b, []);
    assert Frame(a) + [] == Frame(a) && Frame(b) + [] == Frame(b);
    assert ([tag] + Frame(a))[1..] == Frame(a) && ([tag] + Frame(b))[1..] == Frame(b);
  }

  lemma {:induction false} VecWriteBack(cx: Formats, e: Ty, data: seq<byte>)
    requires cx.Injective() && Decode(cx, TVec(e), data).Some? && |data| < U64_LIMIT
    ensures HasType(cx, TVec(e), Decode(cx, TVec(e), data).value) && OnWire(Decode(cx, TVec(e), data).value)
    ensures |Encode(cx, TVec(e), Decode(cx, TVec(e), data).value)| == |data|
    ensures Encode(cx, TVec(e), Decode(cx, TVec(e), data).value) == data <==> CountsExact(cx, TVec(e), data)
    decreases e, 2, 0
  {
    ElemsWriteBack(cx, e, data[8..]);
    var vs := DecodeElems(cx, e, data[8..]).value;
    var enc := EncodeElems(cx, e, vs);
    LeExact(data[..8]);
    ElemCountFits(cx, e, data[8..]);
    PowersOf256();
    assert (U64(|vs|) + enc)[..8] == U64(|vs|) && (U64(|vs|) + enc)[8..] == enc;
    assert data == data[..8] + data[8..];
    LeRoundTrip(|vs|, 8);
  }

  lemma {:induction false} ElemCountFits(cx: Formats, e: Ty, data: seq<byte>)
    requires DecodeElems(cx, e, data).Some?
    ensures 8 * |DecodeElems(cx, e, data).value| <= |data|
    decreases |data|
  {
    if data != [] {
      ElemCountFits(cx, e, Unframe(data).value.rest);
    }
  }

  lemma {:induction false} ElemsWriteBack(cx: Formats, e: Ty, data: seq<byte>)
    requires cx.Injective() && DecodeElems(cx, e, data).Some? && |data| < U64_LIMIT
    ensures var vs := DecodeElems(cx, e, data).value;
      && ElemsHaveType(cx, e, vs) && AllOnWire(vs)
      && |EncodeElems(cx, e, vs)| == |data|
      && (EncodeElems(cx, e, vs) == data <==> ElemCountsExact(cx, e, data))
    decreases e, 1, |data|
  {
    if data != [] {
      var s := Unframe(data).value;
      FrameUnframe(data);
      WriteBack(cx, e, s.inner);
      ElemsWriteBack(cx, e, s.rest);
      var v, vs := Decode(cx, e, s.inner).value, DecodeElems(cx, e, s.rest).value;
      assert DecodeElems(cx, e, data).value == [v] + vs;
      assert ([v] + vs)[1..] == vs;
      FrameSplits(Encode(cx, e, v), EncodeElems(cx, e, vs), s.inner, s.rest);
    }
  }

  lemma {:induction false} FieldsWriteBack(cx: Formats, ts: seq<Ty>, data: seq<byte>)
    requires cx.Injective() && DecodeFields(cx, ts, data).Some? && |data| < U64_LIMIT
    ensures var vs := DecodeFields(cx, ts, data).value;
      && FieldsHaveType(cx, ts, vs) && AllOnWire(vs)
      && |EncodeFields(cx, ts, vs)| == |data|
      && (EncodeFields(cx, ts, vs) == data <==> FieldCountsExact(cx, ts, data))
    decreases ts, 0, 0
  {
    if ts != [] {
      var s := Unframe(data).value;
      FrameUnframe(data);
      WriteBack(cx, ts[0], s.inner);
      FieldsWriteBack(cx, ts[1..], s.rest);
      var v, vs := Decode(cx, ts[0], s.inner).value, DecodeFields(cx, ts[1..], s.rest).value;
      assert DecodeFields(cx, ts, data).value == [v] + vs;
      assert ([v] + vs)[1..] == vs;
      FrameSplits(Encode(cx, ts[0], v), EncodeFields(cx, ts[1..], vs), s.inner, s.rest);
    }
  }

  lemma {:induction false} EnumWriteBack(cx: Formats, variants: seq<Variant>, data: seq<byte>)
    requires cx.Injective() && Decode(cx, TEnum(variants), data).Some? && |data| < U64_LIMIT
    ensures var v := Decode(cx, TEnum(variants), data).value;
      && HasType(cx, TEnum(variants), v) && OnWire(v)
      && |Encode(cx, TEnum(variants), v)| == |data|
      && (Encode(cx, TEnum(variants), v) == data <==> CountsExact(cx, TEnum(variants), data))
    decreases variants, 0, 0
  {
    var s := Unframe(data).value;
    var p := Unframe(s.rest).value;
    var fields := variants[FindVariant(variants, s.inner)].fields;
    FrameUnframe(data);
    FrameUnframe(s.rest);
    FieldsWriteBack(cx, fields, p.inner);
    var enc := EncodeFields(cx, fields, DecodeFields(cx, fields, p.inner).value);
    FrameSplits(enc, [], p.inner, []);
    assert Frame(enc) + [] == Frame(enc) && Frame(p.inner) + [] == s.rest;
    FrameSplits(s.inner, Frame(enc), s.inner, s.rest);
  }

  predicate NoVec(ty: Ty)
    decreases ty, 0
  {
    match ty
    case TVec(_) => false
    case TOption(t) => NoVec(t)
    case TResult(t, e) => NoVec(t) && NoVec(e)
    case TRecord(ts) => NoVecFields(ts)
    case TEnum(variants) => forall i :: 0 <= i < |variants| ==> NoVecFields(variants[i].fields)
    case _ => true
  }

  predicate NoVecFields(ts: seq<Ty>)
    decreases ts, 0
  {
    ts == [] || (NoVec(ts[0]) && NoVecFields(ts[1..]))
  }

  /** Canonical decoding: without a generic `Vec` in the type, each value has one accepted encoding. */
  lemma Canonical(cx: Formats, ty: Ty, data: seq<byte>)
    requires cx.Injective() && NoVec(ty) && Decode(cx, ty, data).Some? && |data| < U64_LIMIT
    ensures HasType(cx, ty, Decode(cx, ty, data).value) && OnWire(Decode(cx, ty, data).value)
    ensures Encode(cx, ty, Decode(cx, ty, data).value) == data
  {
    WriteBack(cx, ty, data);
    NoVecCounts(cx, ty, data);
  }

  lemma {:induction false} NoVecCounts(cx: Formats, ty: Ty, data: seq<byte>)
    requires NoVec(ty) && Decode(cx, ty, data).Some?
    ensures CountsExact(cx, ty, data)
    decreases ty, 0, 0
  {
    match ty
    case TOption(t) =>
      if data != [0] {
        assert DecodeTail(cx, t, data[1..]).Some?;
        NoVecCounts(cx, t, Unframe(data[1..]).value.inner);
      }
    case TResult(t, e) =>
      assert DecodeTail(cx, if data[0] == 0 then t else e, data[1..]).Some?;
      NoVecCounts(cx, if data[0] == 0 then t else e, Unframe(data[1..]).value.inner);
    case TRecord(ts) => NoVecFieldCounts(cx, ts, data);
    case TEnum(variants) =>
      var s := Unframe(data).value;
      NoVecFieldCounts(cx, variants[FindVariant(variants, s.inner)].fields, Unframe(s.rest).value.inner);
    case _ =>
  }

  lemma {:induction false} NoVecFieldCounts(cx: Formats, ts: seq<Ty>, data: seq<byte>)
    requires NoVecFields(ts) && DecodeFields(cx, ts, data).Some?
    ensures FieldCountsExact(cx, ts, data)
    decreases ts, 0, 0
  {
    if ts != [] {
      var s := Unframe(data).value;
      NoVecCounts(cx, ts[0], s.inner);
      NoVecFieldCounts(cx, ts[1..], s.rest);
    }
  }

  /** For a `Vec` of such elements, input and re-encoding can differ in the count header only. */
  lemma VecHeaderOnly(cx: Formats, e: Ty, data: seq<byte>)
    requires cx.Injective() && NoVec(e) && Decode(cx, TVec(e), data).Some? && |data| < U64_LIMIT
    ensures var vs := Decode(cx, TVec(e), data).value.elems;
      && ElemsHaveType(cx, e, vs) && AllOnWire(vs)
      && Encode(cx, TVec(e), VVec(vs)) == U64(|vs|) + data[8..]
  {
    ElemsWriteBack(cx, e, data[8..]);
    NoVecElemCounts(cx, e, data[8..]);
  }

  lemma {:induction false} NoVecElemCounts(cx: Formats, e: Ty, data: seq<byte>)
    requires NoVec(e) && DecodeElems(cx, e, data).Some?
    ensures ElemCountsExact(cx, e, data)
    decreases |data|
  {
    if data != [] {
      NoVecCounts(cx, e, Unframe(data).value.inner);
      NoVecElemCounts(cx, e, Unframe(data).value.rest);
    }
  }

  /** The count is not compared: with any other 8 bytes in its place, every input is read, or rejected, the same way. */
  lemma CountIgnored(cx: Formats, e: Ty, data: seq<byte>, header: seq<byte>)
    requires |data| >= 8 && |header| == 8
    ensures Decode(cx, TVec(e), header + data[8..]) == Decode(cx, TVec(e), data)
  {
    assert (header + data[8..])[8..] == data[8..];
  }

  // ------------------------------------------------------------------------------------------------
  // Cutting and padding

  /** `data` is exactly `n` frames. */
  ghost predicate Framed(n: nat, data: seq<byte>) {
    if n == 0 then data == [] else Unframe(data).Some? && Framed(n - 1, Unframe(data).value.rest)
  }

  lemma {:induction false} FramedPrefixFree(n: nat, a: seq<byte>, b: seq<byte>)
    requires Framed(n, a) && Framed(n, b) && a <= b
    ensures a == b
  {
    if n > 0 {
      UnframeExtend(a, b);
      FramedPrefixFree(n - 1, Unframe(a).value.rest, Unframe(b).value.rest);
      assert a == a[..8 + |Unframe(a).value.inner|] + Unframe(a).value.rest;
      assert b == b[..8 + |Unframe(a).value.inner|] + Unframe(b).value.rest;
    }
  }

  lemma {:induction false} FieldsAreFramed(cx: Formats, ts: seq<Ty>, data: seq<byte>)
    requires DecodeFields(cx, ts, data).Some?
    ensures Framed(|ts|, data)
    decreases |ts|
  {
    if ts != [] {
      FieldsAreFramed(cx, ts[1..], Unframe(data).value.rest);
    }
  }

  /** Except for a generic `Vec` at the top, no accepted input is a proper prefix of another accepted input, however
      deep `Vec`s are nested inside. */
  lemma PrefixFree(cx: Formats, ty: Ty, a: seq<byte>, b: seq<byte>)
    requires cx.PrefixFree() && !ty.TVec?
    requires Decode(cx, ty, a).Some? && Decode(cx, ty, b).Some? && a <= b
    ensures a == b
  {
    match ty
    case TInt(_, _) =>
    case TUsize =>
    case TBool =>
    case TUnit =>
    case TString => OneFramePrefixFree(a, b);
    case TBytes => OneFramePrefixFree(a, b);
    case TOption(t) =>
      if a != [0] {
        TaggedFramePrefixFree(a, b);
      }
    case TResult(t, e) => TaggedFramePrefixFree(a, b);
    case TRecord(ts) =>
      FieldsAreFramed(cx, ts, a);
      FieldsAreFramed(cx, ts, b);
      FramedPrefixFree(|ts|, a, b);
    case TEnum(_) =>
      assert Framed(0, []) && Framed(1, Unframe(a).value.rest) && Framed(1, Unframe(b).value.rest);
      FramedPrefixFree(2, a, b);
    case TRef =>
    case TPort =>
  }

  lemma OneFramePrefixFree(a: seq<byte>, b: seq<byte>)
    requires Unframe(a).Some? && Unframe(a).value.rest == []
    requires Unframe(b).Some? && Unframe(b).value.rest == []
    requires a <= b
    ensures a == b
  {
    assert Framed(0, []);
    FramedPrefixFree(1, a, b);
  }

  lemma TaggedFramePrefixFree(a: seq<byte>, b: seq<byte>)
    requires a != [] && Unframe(a[1..]).Some? && Unframe(a[1..]).value.rest == []
    requires b != [] && Unframe(b[1..]).Some? && Unframe(b[1..]).value.rest == []
    requires a <= b
    ensures a == b
  {
    OneFramePrefixFree(a[1..], b[1..]);
    assert a == [a[0]] + a[1..] && b == [b[0]] + b[1..];
  }

  /** No encoding survives cutting or padding. */
  lemma CutOrPaddedRejected(cx: Formats, ty: Ty, v: Val, data: seq<byte>)
    requires cx.RoundTrips() && cx.PrefixFree() && !ty.TVec?
    requires HasType(cx, ty, v) && OnWire(v) && |Encode(cx, ty, v)| < U64_LIMIT
    requires data < Encode(cx, ty, v) || Encode(cx, ty, v) < data
    ensures Decode(cx, ty, data).None?
  {
    RoundTrip(cx, ty, v);
    if Decode(cx, ty, data).Some? {
      if data < Encode(cx, ty, v) {
        PrefixFree(cx, ty, data, Encode(cx, ty, v));
      } else {
        PrefixFree(cx, ty, Encode(cx, ty, v), data);
      }
    }
  }

  /** A generic `Vec` at the top is where padding gets in: behind an accepted input, a tail is accepted exactly when it
      is itself a run of element frames, and it is then read as more elements. */
  lemma VecPadding(cx: Formats, e: Ty, data: seq<byte>, tail: seq<byte>)
    requires Decode(cx, TVec(e), data).Some?
    ensures Decode(cx, TVec(e), data + tail).Some? <==> DecodeElems(cx, e, tail).Some?
    ensures Decode(cx, TVec(e), data + tail).Some? ==>
      Decode(cx, TVec(e), data + tail).value.elems
      == Decode(cx, TVec(e), data).value.elems + DecodeElems(cx, e, tail).value
  {
    assert (data + tail)[8..] == data[8..] + tail;
    ElemsPadding(cx, e, data[8..], tail);
  }

  lemma {:induction false} ElemsPadding(cx: Formats, e: Ty, data: seq<byte>, tail: seq<byte>)
    requires DecodeElems(cx, e, data).Some?
    ensures DecodeElems(cx, e, data + tail).Some? <==> DecodeElems(cx, e, tail).Some?
    ensures DecodeElems(cx, e, tail).Some? ==>
      DecodeElems(cx, e, data + tail).value == DecodeElems(cx, e, data).value + DecodeElems(cx, e, tail).value
    decreases |data|
  {
    if data == [] {
      assert data + tail == tail;
    } else {
      UnframeAppend(data, tail);
      var rest := Unframe(data).value.rest;
      ElemsPadding(cx, e, rest, tail);
      if DecodeElems(cx, e, tail).Some? {
        FirstOfMore(Decode(cx, e, Unframe(data).value.inner).value, DecodeElems(cx, e, rest).value,
                    DecodeElems(cx, e, tail).value);
      }
    }
  }

  lemma FirstOfMore(first: Val, more: seq<Val>, tail: seq<Val>)
    ensures [first] + (more + tail) == ([first] + more) + tail
  {
  }
}
