/** The transmaterialization byte format as a specification: one encoder and one decoder over a universe of types. */
module Codec {
  import opened Bytes

  /** `RemoteActorId`: the conduit both portals share, the side that issued the id, and the opaque actor id. */
  datatype RemoteId = RemoteId(key: nat, side: nat, id: nat)

  /** Where an actor reference points: a live actor (with the message type of its `ActorRef`), or an id from the wire. */
  datatype Address = Local(actor: nat, message: Ty) | Remote(id: RemoteId)

  /** What a reply port becomes on the wire. */
  datatype ProxiedPort = ProxiedPort(timeout: Option<nat>, target: RemoteId)

  /** Bytes of an integer type: `u8` to `u128`, `i8` to `i128`; `isize` travels as 8 bytes. */
  type Width = w: nat | w == 1 || w == 2 || w == 4 || w == 8 || w == 16 witness 1

  /** Shape of the types that implement `ContextTransmaterializable`. Tuples, tuple structs, named structs and unit
      structs are all a record of their field types; `Vec<u8>` is `TBytes`. `usize` has the bytes of `u64` and is
      another type, which matters to the code that is derived. */
  datatype Ty =
    | TInt(width: Width, signed: bool)
    | TUsize
    | TBool
    | TUnit
    | TString
    | TBytes
    | TVec(elem: Ty)
    | TOption(some: Ty)
    | TResult(ok: Ty, err: Ty)
    | TRecord(fields: seq<Ty>)
    | TEnum(variants: seq<Variant>)
    | TRef
    | TPort

  /** Variant names are the UTF-8 bytes of the identifier. */
  datatype Variant = Variant(name: seq<byte>, fields: seq<Ty>)

  datatype Val =
    | VInt(n: int)
    | VBool(b: bool)
    | VUnit
    | VString(utf8: seq<byte>)
    | VBytes(data: seq<byte>)
    | VVec(elems: seq<Val>)
    | VNone
    | VSome(v: Val)
    | VOk(v: Val)
    | VErr(v: Val)
    | VRecord(fields: seq<Val>)
    | VCase(name: seq<byte>, fields: seq<Val>)
    | VRef(addr: Address)
    | VPort(addr: Address, timeout: Option<nat>)

  /** The parts of the format that come from other crates: bincode for ids, `String::from_utf8` for text. */
  datatype Formats = Formats(
    refEnc: RemoteId -> seq<byte>, refDec: seq<byte> -> Option<RemoteId>,
    portEnc: ProxiedPort -> seq<byte>, portDec: seq<byte> -> Option<ProxiedPort>,
    utf8: seq<byte> -> bool)
  {
    ghost predicate RoundTrips() {
      && (forall r :: refDec(refEnc(r)) == Some(r))
      && (forall p :: portDec(portEnc(p)) == Some(p))
    }

    ghost predicate Injective() {
      && (forall b :: refDec(b).Some? ==> refEnc(refDec(b).value) == b)
      && (forall b :: portDec(b).Some? ==> portEnc(portDec(b).value) == b)
    }

    /** Exact consumption: no accepted id is a proper prefix of another. */
    ghost predicate PrefixFree() {
      && (forall a, b :: refDec(a).Some? && refDec(b).Some? && a <= b ==> a == b)
      && (forall a, b :: portDec(a).Some? && portDec(b).Some? && a <= b ==> a == b)
    }
  }

  // ------------------------------------------------------------------------------------------------
  // Typing

  function FindVariant(variants: seq<Variant>, name: seq<byte>): (i: nat)
    ensures i <= |variants|
    ensures i < |variants| ==> variants[i].name == name
  {
    if variants == [] || variants[0].name == name then 0 else 1 + FindVariant(variants[1..], name)
  }

  predicate IntFits(width: Width, signed: bool, n: int) {
    if signed then -(Pow256(width) / 2) <= n < Pow256(width) / 2 else 0 <= n < Pow256(width)
  }

  predicate HasType(cx: Formats, ty: Ty, v: Val)
    decreases ty, 0, 0
  {
    match (ty, v)
    case (TInt(w, s), VInt(n)) => IntFits(w, s, n)
    case (TUsize, VInt(n)) => 0 <= n < U64_LIMIT
    case (TBool, VBool(_)) => true
    case (TUnit, VUnit) => true
    case (TString, VString(b)) => cx.utf8(b)
    case (TBytes, VBytes(_)) => true
    case (TVec(e), VVec(vs)) => ElemsHaveType(cx, e, vs)
    case (TOption(t), VNone) => true
    case (TOption(t), VSome(x)) => HasType(cx, t, x)
    case (TResult(t, _), VOk(x)) => HasType(cx, t, x)
    case (TResult(_, t), VErr(x)) => HasType(cx, t, x)
    case (TRecord(ts), VRecord(vs)) => FieldsHaveType(cx, ts, vs)
    case (TEnum(variants), VCase(name, vs)) =>
      var i := FindVariant(variants, name);
      i < |variants| && cx.utf8(name) && FieldsHaveType(cx, variants[i].fields, vs)
    case (TRef, VRef(_)) => true
    case (TPort, VPort(_, _)) => true
    case _ => false
  }

  predicate ElemsHaveType(cx: Formats, e: Ty, vs: seq<Val>)
    decreases e, 1, |vs|
  {
    vs == [] || (HasType(cx, e, vs[0]) && ElemsHaveType(cx, e, vs[1..]))
  }

  predicate FieldsHaveType(cx: Formats, ts: seq<Ty>, vs: seq<Val>)
    decreases ts, 0, 0
  {
    if ts == [] then vs == []
    else vs != [] && HasType(cx, ts[0], vs[0]) && FieldsHaveType(cx, ts[1..], vs[1..])
  }

  lemma {:induction false} ArityMatches(cx: Formats, ts: seq<Ty>, vs: seq<Val>)
    requires FieldsHaveType(cx, ts, vs)
    ensures |ts| == |vs|
  {
    if ts != [] {
      ArityMatches(cx, ts[1..], vs[1..]);
    }
  }

  /** Every reference is an id that came from, or goes on, the wire. */
  predicate OnWire(v: Val)
    decreases v, 0
  {
    match v
    case VSome(x) => OnWire(x)
    case VOk(x) => OnWire(x)
    case VErr(x) => OnWire(x)
    case VVec(vs) => AllOnWire(vs)
    case VRecord(vs) => AllOnWire(vs)
    case VCase(_, vs) => AllOnWire(vs)
    case VRef(a) => a.Remote?
    case VPort(a, _) => a.Remote?
    case _ => true
  }

  predicate AllOnWire(vs: seq<Val>)
    decreases vs, 0
  {
    vs == [] || (OnWire(vs[0]) && AllOnWire(vs[1..]))
  }

  // ------------------------------------------------------------------------------------------------
  // Encoding and decoding

  /** Two's complement. */
  function EncodeInt(w: Width, n: int): (b: seq<byte>)
    ensures |b| == w
  {
    Le(n % Pow256(w), w)
  }

  function DecodeInt(w: Width, signed: bool, b: seq<byte>): int
    requires |b| == w
  {
    var n := FromLe(b);
    if signed && n >= Pow256(w) / 2 then n - Pow256(w) else n
  }

  function Encode(cx: Formats, ty: Ty, v: Val): seq<byte>
    requires HasType(cx, ty, v) && OnWire(v)
    decreases ty, 0, 0
  {
    match ty
    case TInt(w, _) => EncodeInt(w, v.n)
    case TUsize => U64(v.n)
    case TBool => [if v.b then 1 else 0]
    case TUnit => []
    case TString => Frame(v.utf8)
    case TBytes => Frame(v.data)
    case TVec(e) => U64(|v.elems|) + EncodeElems(cx, e, v.elems)
    case TOption(t) => if v.VNone? then [0] else [1] + Frame(Encode(cx, t, v.v))
    case TResult(t, e) => if v.VOk? then [0] + Frame(Encode(cx, t, v.v)) else [1] + Frame(Encode(cx, e, v.v))
    case TRecord(ts) => EncodeFields(cx, ts, v.fields)
    case TEnum(variants) =>
      Frame(v.name) + Frame(EncodeFields(cx, variants[FindVariant(variants, v.name)].fields, v.fields))
    case TRef => cx.refEnc(v.addr.id)
    case TPort => cx.portEnc(ProxiedPort(v.timeout, v.addr.id))
  }

  function EncodeElems(cx: Formats, e: Ty, vs: seq<Val>): seq<byte>
    requires ElemsHaveType(cx, e, vs) && AllOnWire(vs)
    decreases e, 1, |vs|
  {
    if vs == [] then [] else Frame(Encode(cx, e, vs[0])) + EncodeElems(cx, e, vs[1..])
  }

  function EncodeFields(cx: Formats, ts: seq<Ty>, vs: seq<Val>): seq<byte>
    requires FieldsHaveType(cx, ts, vs) && AllOnWire(vs)
    decreases ts, 0, 0
  {
    if ts == [] then [] else Frame(Encode(cx, ts[0], vs[0])) + EncodeFields(cx, ts[1..], vs[1..])
  }

  /** `None` is every way the decoder does not return a value: an error, or a panic on an overflowing length. */
  function Decode(cx: Formats, ty: Ty, data: seq<byte>): Option<Val>
    decreases ty, 0, 0
  {
    match ty
    case TInt(w, s) => if |data| == w then Some(VInt(DecodeInt(w, s, data))) else None
    case TUsize => if |data| == 8 then Some(VInt(FromU64(data))) else None
    case TBool => if |data| == 1 && data[0] <= 1 then Some(VBool(data[0] == 1)) else None
    case TUnit => if data == [] then Some(VUnit) else None
    case TString =>
      var s := Unframe(data);
      if s.Some? && s.value.rest == [] && cx.utf8(s.value.inner) then Some(VString(s.value.inner)) else None
    case TBytes =>
      var s := Unframe(data);
      if s.Some? && s.value.rest == [] then Some(VBytes(s.value.inner)) else None
    case TVec(e) =>
      if |data| < 8 then None
      else
        var r := DecodeElems(cx, e, data[8..]);
        if r.Some? then Some(VVec(r.value)) else None
    case TOption(t) =>
      if data == [0] then Some(VNone)
      else if data == [] || data[0] != 1 then None
      else
        var r := DecodeTail(cx, t, data[1..]);
        if r.Some? then Some(VSome(r.value)) else None
    case TResult(t, e) =>
      if data == [] then None
      else if data[0] == 0 then
        var r := DecodeTail(cx, t, data[1..]);
        if r.Some? then Some(VOk(r.value)) else None
      else if data[0] == 1 then
        var r := DecodeTail(cx, e, data[1..]);
        if r.Some? then Some(VErr(r.value)) else None
      else None
    case TRecord(ts) =>
      var r := DecodeFields(cx, ts, data);
      if r.Some? then Some(VRecord(r.value)) else None
    case TEnum(variants) =>
      var s := Unframe(data);
      if s.None? || !cx.utf8(s.value.inner) then None
      else
        var p := Unframe(s.value.rest);
        var i := FindVariant(variants, s.value.inner);
        if p.None? || p.value.rest != [] || i == |variants| then None
        else
          var r := DecodeFields(cx, variants[i].fields, p.value.inner);
          if r.Some? then Some(VCase(s.value.inner, r.value)) else None
    case TRef =>
      var r := cx.refDec(data);
      if r.Some? then Some(VRef(Remote(r.value))) else None
    case TPort =>
      var r := cx.portDec(data);
      if r.Some? then Some(VPort(Remote(r.value.target), r.value.timeout)) else None
  }

  /** One frame and nothing after it. */
  function DecodeTail(cx: Formats, ty: Ty, data: seq<byte>): Option<Val>
    decreases ty, 1, 0
  {
    var s := Unframe(data);
    if s.Some? && s.value.rest == [] then Decode(cx, ty, s.value.inner) else None
  }

  function DecodeElems(cx: Formats, e: Ty, data: seq<byte>): Option<seq<Val>>
    decreases e, 1, |data|
  {
    if data == [] then Some([])
    else
      var s := Unframe(data);
      if s.None? then None
      else
        var v := Decode(cx, e, s.value.inner);
        var vs := DecodeElems(cx, e, s.value.rest);
        if v.None? || vs.None? then None else Some([v.value] + vs.value)
  }

  function DecodeFields(cx: Formats, ts: seq<Ty>, data: seq<byte>): Option<seq<Val>>
    decreases ts, 0, 0
  {
    if ts == [] then (if data == [] then Some([]) else None)
    else
      var s := Unframe(data);
      if s.None? then None
      else
        var v := Decode(cx, ts[0], s.value.inner);
        var vs := DecodeFields(cx, ts[1..], s.value.rest);
        if v.None? || vs.None? then None else Some([v.value] + vs.value)
  }
}
