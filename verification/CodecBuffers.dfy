/** The transmaterialization routines in the form the library has them: encoders that extend a buffer, decoders that
    advance an offset. Each is proved to compute the byte format of `Codec`. */
module CodecBuffers {
  import opened Bytes
  import opened Codec

  /** `usize_from_u64_le_bytes(&data[offset..offset + 8])`, after the size check that precedes it everywhere. */
  function LengthAt(data: seq<byte>, offset: nat): (r: Option<nat>)
    ensures r.Some? <==> offset + 8 <= |data|
  {
    if offset + 8 <= |data| then Some(FromU64(data[offset..offset + 8])) else None
  }

  /** Reading a header and its body at an offset is `Unframe` of what is left. */
  lemma ReadAt(data: seq<byte>, offset: nat)
    requires offset <= |data|
    ensures LengthAt(data, offset).None? ==> Unframe(data[offset..]).None?
    ensures LengthAt(data, offset).Some? ==>
      var body := offset + 8;
      var end := body + LengthAt(data, offset).value;
      Unframe(data[offset..]) == if end <= |data| then Some(Split(data[body..end], data[end..])) else None
  {
    UnframeAt(data, offset);
  }

  method AppendFrame(buffer: seq<byte>, bytes: seq<byte>) returns (extended: seq<byte>)
    ensures extended == buffer + Frame(bytes)
  {
    extended := buffer + U64(|bytes|);
    extended := extended + bytes;
    assert extended == buffer + (U64(|bytes|) + bytes);
  }

  method Immaterialize(cx: Formats, ty: Ty, v: Val) returns (buffer: seq<byte>)
    requires HasType(cx, ty, v) && OnWire(v)
    ensures buffer == Encode(cx, ty, v)
    decreases ty, 0
  {
    match ty {
      case TInt(w, _) => buffer := EncodeInt(w, v.n);
      case TUsize => buffer := U64(v.n);
      case TBool => buffer := if v.b then [1] else [0];
      case TUnit => buffer := [];
      case TString => buffer := AppendFrame([], v.utf8);
      case TBytes => buffer := AppendFrame([], v.data);
      case TVec(e) => buffer := ImmaterializeVec(cx, e, v.elems);
      case TOption(t) => buffer := ImmaterializeOption(cx, t, v);
      case TResult(t, e) => buffer := ImmaterializeResult(cx, t, e, v);
      case TRecord(ts) => buffer := ImmaterializeFields(cx, ts, v.fields);
      case TEnum(variants) => buffer := ImmaterializeEnum(cx, variants, v);
      case TRef => buffer := cx.refEnc(v.addr.id);
      case TPort => buffer := cx.portEnc(ProxiedPort(v.timeout, v.addr.id));
    }
  }

  method ImmaterializeOption(cx: Formats, t: Ty, v: Val) returns (buffer: seq<byte>)
    requires HasType(cx, TOption(t), v) && OnWire(v)
    ensures buffer == Encode(cx, TOption(t), v)
    decreases t, 1
  {
    if v.VNone? {
      buffer := [0];
    } else {
      buffer := [1];
      var bytes := Immaterialize(cx, t, v.v);
      buffer := AppendFrame(buffer, bytes);
    }
  }

  method ImmaterializeResult(cx: Formats, t: Ty, e: Ty, v: Val) returns (buffer: seq<byte>)
    requires HasType(cx, TResult(t, e), v) && OnWire(v)
    ensures buffer == Encode(cx, TResult(t, e), v)
    decreases TResult(t, e), 0, 0
  {
    if v.VOk? {
      buffer := [0];
      var bytes := Immaterialize(cx, t, v.v);
      buffer := AppendFrame(buffer, bytes);
    } else {
      buffer := [1];
      var bytes := Immaterialize(cx, e, v.v);
      buffer := AppendFrame(buffer, bytes);
    }
  }

  method ImmaterializeEnum(cx: Formats, variants: seq<Variant>, v: Val) returns (buffer: seq<byte>)
    requires HasType(cx, TEnum(variants), v) && OnWire(v)
    ensures buffer == Encode(cx, TEnum(variants), v)
    decreases variants, 0
  {
    var payload := ImmaterializeFields(cx, variants[FindVariant(variants, v.name)].fields, v.fields);
    buffer := AppendFrame([], v.name);
    buffer := AppendFrame(buffer, payload);
  }

  method ImmaterializeVec(cx: Formats, e: Ty, vs: seq<Val>) returns (buffer: seq<byte>)
    requires ElemsHaveType(cx, e, vs) && AllOnWire(vs)
    ensures buffer == U64(|vs|) + EncodeElems(cx, e, vs)
    decreases e, 1
  {
    buffer := U64(|vs|);
    for i := 0 to |vs|
      invariant ElemsHaveType(cx, e, vs[i..]) && AllOnWire(vs[i..])
      invariant buffer + EncodeElems(cx, e, vs[i..]) == U64(|vs|) + EncodeElems(cx, e, vs)
    {
      ElemsFrom(cx, e, vs, i);
      var bytes := Immaterialize(cx, e, vs[i]);
      Regroup(buffer, Frame(bytes), EncodeElems(cx, e, vs[i + 1..]));
      buffer := AppendFrame(buffer, bytes);
    }
  }

  lemma ElemsFrom(cx: Formats, e: Ty, vs: seq<Val>, i: nat)
    requires i < |vs| && ElemsHaveType(cx, e, vs[i..]) && AllOnWire(vs[i..])
    ensures HasType(cx, e, vs[i]) && OnWire(vs[i])
    ensures ElemsHaveType(cx, e, vs[i + 1..]) && AllOnWire(vs[i + 1..])
    ensures EncodeElems(cx, e, vs[i..]) == Frame(Encode(cx, e, vs[i])) + EncodeElems(cx, e, vs[i + 1..])
  {
    assert vs[i..][1..] == vs[i + 1..];
  }

  lemma Regroup(a: seq<byte>, b: seq<byte>, c: seq<byte>)
    ensures a + b + c == a + (b + c)
  {
  }

  /** One body for every tuple, struct and payload: fields in order, each behind its length. */
  method ImmaterializeFields(cx: Formats, ts: seq<Ty>, vs: seq<Val>) returns (buffer: seq<byte>)
    requires FieldsHaveType(cx, ts, vs) && AllOnWire(vs)
    ensures buffer == EncodeFields(cx, ts, vs)
    decreases ts, 0
  {
    buffer := [];
    ArityMatches(cx, ts, vs);
    for i := 0 to |ts|
      invariant FieldsHaveType(cx, ts[i..], vs[i..]) && AllOnWire(vs[i..])
      invariant buffer + EncodeFields(cx, ts[i..], vs[i..]) == EncodeFields(cx, ts, vs)
    {
      FieldsFrom(cx, ts, vs, i);
      var bytes := Immaterialize(cx, ts[i], vs[i]);
      Regroup(buffer, Frame(bytes), EncodeFields(cx, ts[i + 1..], vs[i + 1..]));
      buffer := AppendFrame(buffer, bytes);
    }
  }

  lemma FieldsFrom(cx: Formats, ts: seq<Ty>, vs: seq<Val>, i: nat)
    requires i < |ts| == |vs| && FieldsHaveType(cx, ts[i..], vs[i..]) && AllOnWire(vs[i..])
    ensures HasType(cx, ts[i], vs[i]) && OnWire(vs[i])
    ensures FieldsHaveType(cx, ts[i + 1..], vs[i + 1..]) && AllOnWire(vs[i + 1..])
    ensures EncodeFields(cx, ts[i..], vs[i..])
         == Frame(Encode(cx, ts[i], vs[i])) + EncodeFields(cx, ts[i + 1..], vs[i + 1..])
  {
    assert vs[i..][1..] == vs[i + 1..] && ts[i..][1..] == ts[i + 1..];
  }

  method Rematerialize(cx: Formats, ty: Ty, data: seq<byte>) returns (r: Option<Val>)
    ensures r == Decode(cx, ty, data)
    decreases ty, 0
  {
    match ty {
      case TInt(w, s) =>
        r := if |data| == w then Some(VInt(DecodeInt(w, s, data))) else None;
      case TUsize =>
        r := if |data| == 8 then Some(VInt(FromU64(data))) else None;
      case TBool =>
        if |data| != 1 {
          return None;
        }
        r := if data[0] == 0 then Some(VBool(false)) else if data[0] == 1 then Some(VBool(true)) else None;
      case TUnit => r := if |data| == 0 then Some(VUnit) else None;
      case TString =>
        var text := RematerializeBytes(data);
        r := if text.Some? && cx.utf8(text.value) then Some(VString(text.value)) else None;
      case TBytes =>
        var bytes := RematerializeBytes(data);
        r := if bytes.Some? then Some(VBytes(bytes.value)) else None;
      case TVec(e) =>
        var elems := RematerializeVec(cx, e, data);
        r := if elems.Some? then Some(VVec(elems.value)) else None;
      case TOption(t) => r := RematerializeOption(cx, t, data);
      case TResult(t, e) => r := RematerializeResult(cx, t, e, data);
      case TRecord(ts) =>
        var fields := RematerializeFields(cx, ts, data);
        r := if fields.Some? then Some(VRecord(fields.value)) else None;
      case TEnum(variants) => r := RematerializeEnum(cx, variants, data);
      case TRef =>
        var id := cx.refDec(data);
        r := if id.Some? then Some(VRef(Remote(id.value))) else None;
      case TPort =>
        var port := cx.portDec(data);
        r := if port.Some? then Some(VPort(Remote(port.value.target), port.value.timeout)) else None;
    }
  }

  method RematerializeBytes(data: seq<byte>) returns (r: Option<seq<byte>>)
    ensures r == (var s := Unframe(data); if s.Some? && s.value.rest == [] then Some(s.value.inner) else None)
  {
    assert data[0..] == data;
    ReadAt(data, 0);
    var length := LengthAt(data, 0);
    if length.None? || |data| != 8 + length.value {
      return None;
    }
    return Some(data[8..8 + length.value]);
  }

  /** One header and its body at `offset`, with both size checks; `next` is the advanced offset. */
  method ReadPart(data: seq<byte>, offset: nat) returns (part: Option<seq<byte>>, next: nat)
    requires offset <= |data|
    ensures part.None? <==> Unframe(data[offset..]).None?
    ensures part.Some? ==>
      offset < next <= |data| && Unframe(data[offset..]) == Some(Split(part.value, data[next..]))
  {
    ReadAt(data, offset);
    var length := LengthAt(data, offset);
    if length.None? {
      return None, offset;
    }
    next := offset + 8;
    if |data| < next + length.value {
      return None, offset;
    }
    part := Some(data[next..next + length.value]);
    next := next + length.value;
  }

  method RematerializeVec(cx: Formats, e: Ty, data: seq<byte>) returns (r: Option<seq<Val>>)
    ensures r == if |data| < 8 then None else DecodeElems(cx, e, data[8..])
    decreases e, 1
  {
    // The count only sizes the buffer that is allocated: nothing below looks at it.
    var count := LengthAt(data, 0);
    if count.None? {
      return None;
    }
    var offset: nat, buffer := 8, [];
    ContinuesFromStart(DecodeElems(cx, e, data[8..]));
    while offset < |data|
      invariant 8 <= offset <= |data|
      invariant Continues(DecodeElems(cx, e, data[8..]), buffer, DecodeElems(cx, e, data[offset..]))
    {
      var part, next := ReadPart(data, offset);
      if part.None? {
        return None;
      }
      var element := Rematerialize(cx, e, part.value);
      if element.None? {
        return None;
      }
      ElemsAt(cx, e, data, offset, element.value);
      ContinuesStep(DecodeElems(cx, e, data[8..]), buffer, DecodeElems(cx, e, data[offset..]), element.value,
                    DecodeElems(cx, e, data[next..]));
      buffer := buffer + [element.value];
      offset := next;
    }
    assert DecodeElems(cx, e, data[offset..]) == Some([]);
    assert buffer + [] == buffer;
    return Some(buffer);
  }

  /** The whole result is what was read so far followed by what the rest gives. */
  ghost predicate Continues(whole: Option<seq<Val>>, read: seq<Val>, rest: Option<seq<Val>>) {
    whole == if rest.Some? then Some(read + rest.value) else None
  }

  lemma ContinuesFromStart(whole: Option<seq<Val>>)
    ensures Continues(whole, [], whole)
  {
    if whole.Some? {
      assert [] + whole.value == whole.value;
    }
  }

  lemma ContinuesStep(whole: Option<seq<Val>>, read: seq<Val>, mid: Option<seq<Val>>, v: Val, rest: Option<seq<Val>>)
    requires Continues(whole, read, mid) && Continues(mid, [v], rest)
    ensures Continues(whole, read + [v], rest)
  {
    if rest.Some? {
      assert read + ([v] + rest.value) == read + [v] + rest.value;
    }
  }

  lemma ElemsAt(cx: Formats, e: Ty, data: seq<byte>, offset: nat, v: Val)
    requires offset < |data|
    requires Unframe(data[offset..]).Some? && Decode(cx, e, Unframe(data[offset..]).value.inner) == Some(v)
    ensures Continues(DecodeElems(cx, e, data[offset..]), [v], DecodeElems(cx, e, Unframe(data[offset..]).value.rest))
  {
  }

  method RematerializeOption(cx: Formats, t: Ty, data: seq<byte>) returns (r: Option<Val>)
    ensures r == Decode(cx, TOption(t), data)
    decreases t, 1
  {
    if |data| < 1 {
      return None;
    }
    var discriminant, offset: nat := data[0], 1;
    if discriminant == 0 {
      return if |data| == offset then Some(VNone) else None;
    } else if discriminant == 1 {
      var inner;
      inner, offset := ReadPart(data, offset);
      if inner.None? || |data| != offset {
        NothingInside(cx, t, data);
        return None;
      }
      Inside(cx, t, data, inner.value);
      var value := Rematerialize(cx, t, inner.value);
      return if value.Some? then Some(VSome(value.value)) else None;
    } else {
      return None;
    }
  }

  /** Behind the discriminant: no complete frame, or more than one. */
  lemma NothingInside(cx: Formats, t: Ty, data: seq<byte>)
    requires data != []
    requires |data| < 9 || Unframe(data[1..]).None? || Unframe(data[1..]).value.rest != []
    ensures DecodeTail(cx, t, data[1..]).None?
  {
  }

  /** One frame behind the discriminant, and nothing more. */
  lemma Inside(cx: Formats, t: Ty, data: seq<byte>, inner: seq<byte>)
    requires data != [] && Unframe(data[1..]) == Some(Split(inner, []))
    ensures DecodeTail(cx, t, data[1..]) == Decode(cx, t, inner)
  {
  }

  method RematerializeResult(cx: Formats, t: Ty, e: Ty, data: seq<byte>) returns (r: Option<Val>)
    ensures r == Decode(cx, TResult(t, e), data)
    decreases TResult(t, e), 0, 0
  {
    if |data| < 9 {
      if data != [] {
        NothingInside(cx, t, data);
        NothingInside(cx, e, data);
      }
      return None;
    }
    var discriminant := data[0];
    var inner, offset := ReadPart(data, 1);
    if inner.None? || |data| != offset {
      NothingInside(cx, t, data);
      NothingInside(cx, e, data);
      return None;
    }
    Inside(cx, t, data, inner.value);
    Inside(cx, e, data, inner.value);
    if discriminant == 0 {
      var value := Rematerialize(cx, t, inner.value);
      return if value.Some? then Some(VOk(value.value)) else None;
    } else if discriminant == 1 {
      var value := Rematerialize(cx, e, inner.value);
      return if value.Some? then Some(VErr(value.value)) else None;
    } else {
      return None;
    }
  }

  method RematerializeFields(cx: Formats, ts: seq<Ty>, data: seq<byte>) returns (r: Option<seq<Val>>)
    ensures r == DecodeFields(cx, ts, data)
    decreases ts, 0
  {
    var offset: nat, values, i := 0, [], 0;
    assert data[0..] == data && ts[0..] == ts;
    ContinuesFromStart(DecodeFields(cx, ts, data));
    while i < |ts|
      invariant 0 <= i <= |ts| && offset <= |data|
      invariant Continues(DecodeFields(cx, ts, data), values, DecodeFields(cx, ts[i..], data[offset..]))
    {
      var part, next := ReadPart(data, offset);
      if part.None? {
        FieldsFail(cx, ts, i, data[offset..]);
        return None;
      }
      var field := Rematerialize(cx, ts[i], part.value);
      if field.None? {
        FieldsFail(cx, ts, i, data[offset..]);
        return None;
      }
      FieldsAt(cx, ts, i, data, offset, field.value);
      ContinuesStep(DecodeFields(cx, ts, data), values, DecodeFields(cx, ts[i..], data[offset..]), field.value,
                    DecodeFields(cx, ts[i + 1..], data[next..]));
      values := values + [field.value];
      offset := next;
      i := i + 1;
    }
    assert values + [] == values;
    if |data| != offset {
      return None;
    }
    return Some(values);
  }

  lemma FieldsFail(cx: Formats, ts: seq<Ty>, i: nat, rest: seq<byte>)
    requires i < |ts|
    requires Unframe(rest).None? || Decode(cx, ts[i], Unframe(rest).value.inner).None?
    ensures DecodeFields(cx, ts[i..], rest).None?
  {
    assert ts[i..][0] == ts[i];
  }

  lemma FieldsAt(cx: Formats, ts: seq<Ty>, i: nat, data: seq<byte>, offset: nat, v: Val)
    requires i < |ts| && offset <= |data|
    requires Unframe(data[offset..]).Some? && Decode(cx, ts[i], Unframe(data[offset..]).value.inner) == Some(v)
    ensures Continues(DecodeFields(cx, ts[i..], data[offset..]), [v],
                      DecodeFields(cx, ts[i + 1..], Unframe(data[offset..]).value.rest))
  {
    assert ts[i..][1..] == ts[i + 1..] && ts[i..][0] == ts[i];
  }

  method RematerializeEnum(cx: Formats, variants: seq<Variant>, data: seq<byte>) returns (r: Option<Val>)
    ensures r == Decode(cx, TEnum(variants), data)
    decreases variants, 0
  {
    assert data[0..] == data;
    var name, offset := ReadPart(data, 0);
    if name.None? || !cx.utf8(name.value) {
      return None;
    }
    var payload;
    payload, offset := ReadPart(data, offset);
    if payload.None? {
      return None;
    }
    var i := FindVariant(variants, name.value);
    if i == |variants| {
      return None;
    }
    var fields := RematerializeFields(cx, variants[i].fields, payload.value);
    if fields.None? || |data| != offset {
      return None;
    }
    return Some(VCase(name.value, fields.value));
  }
}
