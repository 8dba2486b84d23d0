/** The derive macro as a small compiler: declarations in, straight-line `let` programs over named bindings out. */
module Derive {
  import opened Bytes
  import opened Codec

  type Ident = string

  // ------------------------------------------------------------------------------------------------
  // Generated code

  datatype Access = SelfField(index: nat) | Binding(name: Ident)

  datatype Stmt =
    | Immaterialize(dst: Ident, ty: Ty, from: Access) // let dst = <ty>::immaterialize(from, ctx).await?;
    | ExtendLength(src: Ident)                       // buffer.extend_from_slice(&(src.len() as u64).to_le_bytes());
    | ExtendBytes(src: Ident)                        // buffer.extend_from_slice(&src);
    | NeedHeader(data: Ident, offset: Ident)         // if data.len() < offset + 8 { return Err(..) }
    | LetLength(dst: Ident, data: Ident, offset: Ident) // let dst: usize = u64::from_le_bytes(..)..;
    | AdvanceHeader(offset: Ident)                   // offset += 8;
    | NeedBody(data: Ident, offset: Ident, length: Ident)
    | LetSlice(dst: Ident, data: Ident, offset: Ident, length: Ident)
    | AdvanceBody(offset: Ident, length: Ident)      // offset += length;
    | Rematerialize(dst: Ident, ty: Ty, src: Ident)  // let dst = <ty>::rematerialize(ctx, src).await?;

  /** What a binding holds: a `usize`, a borrowed `&[u8]`, an owned `Vec<u8>`, a value of a field's type, nothing any more
      because it was passed on by value, or the context. Using a binding of the wrong kind is what the Rust compiler
      rejects. */
  datatype Slot =
    | Number(n: nat) | Slice(bytes: seq<byte>) | Owned(bytes: seq<byte>) | Value(ty: Ty, v: Val) | Moved | Context

  type Env = map<Ident, Slot>

  /** `Failed` is an `Err` returned at run time, `Stuck` a use that does not compile. */
  datatype Outcome<+T> = Done(result: T) | Failed | Stuck

  predicate Holds(env: Env, x: Ident, s: Slot) {
    x in env && env[x] == s
  }

  function Read(from: Access, self: seq<Slot>, env: Env): Slot {
    match from
    case SelfField(i) => if i < |self| then self[i] else Context
    case Binding(x) => if x in env then env[x] else Context
  }

  /** The slot where a value of type `ty` is wanted: the bindings of the generated code itself are values too, a length one
      of `usize` and an encoding one of `Vec<u8>`. */
  function AsValue(s: Slot, ty: Ty): Option<Val> {
    if s.Value? && s.ty == ty then Some(s.v)
    else if s.Number? && ty.TUsize? then Some(VInt(s.n))
    else if s.Owned? && ty.TBytes? then Some(VBytes(s.bytes))
    else None
  }

  /** Serializing takes its argument by value. A copied one is gone as well, which no generated code can tell: it reads
      each field once. */
  function MoveOut(env: Env, from: Access): Env {
    if from.Binding? && from.name in env then env[from.name := Moved] else env
  }

  function Exec(cx: Formats, s: Stmt, self: seq<Slot>, env: Env): Outcome<Env> {
    match s
    case Immaterialize(dst, ty, from) =>
      var source := AsValue(Read(from, self, env), ty);
      if Holds(env, "ctx", Context) && source.Some? && HasType(cx, ty, source.value) && OnWire(source.value)
      then Done(MoveOut(env, from)[dst := Owned(Encode(cx, ty, source.value))])
      else Stuck
    case ExtendLength(src) =>
      if src in env && env[src].Owned? && "buffer" in env && env["buffer"].Owned?
      then Done(env["buffer" := Owned(env["buffer"].bytes + U64(|env[src].bytes|))])
      else Stuck
    case ExtendBytes(src) =>
      if src in env && env[src].Owned? && "buffer" in env && env["buffer"].Owned?
      then Done(env["buffer" := Owned(env["buffer"].bytes + env[src].bytes)])
      else Stuck
    case NeedHeader(data, offset) =>
      if data in env && env[data].Slice? && offset in env && env[offset].Number?
      then if |env[data].bytes| < env[offset].n + 8 then Failed else Done(env)
      else Stuck
    case LetLength(dst, data, offset) =>
      if data in env && env[data].Slice? && offset in env && env[offset].Number?
      then
        if |env[data].bytes| < env[offset].n + 8 then Failed
        else Done(env[dst := Number(FromU64(env[data].bytes[env[offset].n..env[offset].n + 8]))])
      else Stuck
    case AdvanceHeader(offset) =>
      if offset in env && env[offset].Number? then Done(env[offset := Number(env[offset].n + 8)]) else Stuck
    case NeedBody(data, offset, length) =>
      if data in env && env[data].Slice? && offset in env && env[offset].Number? && length in env && env[length].Number?
      then if |env[data].bytes| < env[offset].n + env[length].n then Failed else Done(env)
      else Stuck
    case LetSlice(dst, data, offset, length) =>
      if data in env && env[data].Slice? && offset in env && env[offset].Number? && length in env && env[length].Number?
      then
        if |env[data].bytes| < env[offset].n + env[length].n then Failed
        else Done(env[dst := Slice(env[data].bytes[env[offset].n..env[offset].n + env[length].n])])
      else Stuck
    case AdvanceBody(offset, length) =>
      if offset in env && env[offset].Number? && length in env && env[length].Number?
      then Done(env[offset := Number(env[offset].n + env[length].n)])
      else Stuck
    case Rematerialize(dst, ty, src) =>
      if src in env && env[src].Slice? && Holds(env, "ctx", Context)
      then
        var r := Decode(cx, ty, env[src].bytes);
        if r.Some? then Done(env[dst := Value(ty, r.value)]) else Failed
      else Stuck
  }

  function Run(cx: Formats, code: seq<Stmt>, self: seq<Slot>, env: Env): Outcome<Env> {
    if code == [] then Done(env)
    else
      var r := Exec(cx, code[0], self, env);
      if r.Done? then Run(cx, code[1..], self, r.result) else r
  }

  // ------------------------------------------------------------------------------------------------
  // The generator

  /** A named field, and whether it carries a `#[serde]` or a `#[bincode]` attribute. */
  datatype Field = Field(name: Ident, ty: Ty, serde: bool, bincode: bool)

  datatype Body = UnitBody | TupleBody(types: seq<Ty>) | NamedBody(fields: seq<Field>)

  datatype VariantDecl = VariantDecl(name: seq<byte>, body: Body)

  datatype Item = StructItem(body: Body) | EnumItem(variants: seq<VariantDecl>)

  datatype DeriveError = BothAttributes(field: Ident) | SerdeNotImplemented | BincodeNotImplemented

  datatype Result<+T> = Ok(value: T) | Error(error: DeriveError)

  /** The bindings the decoding code of one field introduces. */
  datatype Names = Names(length: Ident, bytes: Ident, value: Ident)

  /** Code for a list of fields: the serializing part, the deserializing part, and what the constructor is built from. */
  datatype Codes = Codes(ser: seq<Stmt>, de: seq<Stmt>, build: seq<Ident>)

  datatype Arm = Arm(name: seq<byte>, binders: seq<Ident>, types: seq<Ty>, codes: Codes)

  datatype Impl = StructImpl(types: seq<Ty>, codes: Codes) | EnumImpl(arms: seq<Arm>)

  function SerializeCode(ty: Ty, src: Access, dst: Ident): seq<Stmt> {
    [Immaterialize(dst, ty, src), ExtendLength(dst), ExtendBytes(dst)]
  }

  function DeserializeCode(ty: Ty, names: Names, data: Ident, offset: Ident): seq<Stmt> {
    [NeedHeader(data, offset), LetLength(names.length, data, offset), AdvanceHeader(offset),
     NeedBody(data, offset, names.length), LetSlice(names.bytes, data, offset, names.length),
     AdvanceBody(offset, names.length), Rematerialize(names.value, ty, names.bytes)]
  }

  function NamedNames(field: Ident): Names {
    Names("field_len_" + field, "field_bytes_" + field, "field_" + field)
  }

  function Digits(n: nat): string {
    if n < 10 then [['0', '1', '2', '3', '4', '5', '6', '7', '8', '9'][n]]
    else Digits(n / 10) + Digits(n % 10)
  }

  function NumberedNames(i: nat): Names {
    Names("field" + Digits(i) + "_len", "field" + Digits(i) + "_bytes", "field" + Digits(i) + "_value")
  }

  /** `for_field`: the code of one named field, or the error its attributes cause. */
  function ForField(field: Field, index: nat, useSelf: bool, data: Ident, offset: Ident): Result<Codes> {
    if field.serde && field.bincode then Error(BothAttributes(field.name))
    else if field.serde then Error(SerdeNotImplemented)
    else if field.bincode then Error(BincodeNotImplemented)
    else
      var access := if useSelf then SelfField(index) else Binding(field.name);
      Ok(Codes(SerializeCode(field.ty, access, "field_bytes_" + field.name),
               DeserializeCode(field.ty, NamedNames(field.name), data, offset),
               ["field_" + field.name]))
  }

  function Join(a: Codes, b: Codes): Codes {
    Codes(a.ser + b.ser, a.de + b.de, a.build + b.build)
  }

  /** Fields `index` and up of a named list; the first error wins. */
  function NamedCodes(fields: seq<Field>, index: nat, useSelf: bool, data: Ident, offset: Ident): Result<Codes>
    decreases |fields| - index
  {
    if index >= |fields| then Ok(Codes([], [], []))
    else
      var first := ForField(fields[index], index, useSelf, data, offset);
      if first.Error? then first
      else
        var rest := NamedCodes(fields, index + 1, useSelf, data, offset);
        if rest.Error? then rest else Ok(Join(first.value, rest.value))
  }

  /** The numbered scheme of tuple structs and tuple variants; attributes of the fields are not looked at. */
  function TupleCode(ty: Ty, i: nat, useSelf: bool, data: Ident, offset: Ident): Codes {
    var access := if useSelf then SelfField(i) else Binding("field" + Digits(i));
    Codes(SerializeCode(ty, access, "field_bytes_" + Digits(i)),
          DeserializeCode(ty, NumberedNames(i), data, offset),
          [NumberedNames(i).value])
  }

  function TupleCodes(types: seq<Ty>, index: nat, useSelf: bool, data: Ident, offset: Ident): Codes
    decreases |types| - index
  {
    if index >= |types| then Codes([], [], [])
    else Join(TupleCode(types[index], index, useSelf, data, offset), TupleCodes(types, index + 1, useSelf, data, offset))
  }

  function FieldTypes(fields: seq<Field>): (ts: seq<Ty>)
    ensures |ts| == |fields|
  {
    seq(|fields|, i requires 0 <= i < |fields| => fields[i].ty)
  }

  function BodyTypes(body: Body): seq<Ty> {
    match body
    case UnitBody => []
    case TupleBody(types) => types
    case NamedBody(fields) => FieldTypes(fields)
  }

  function BodyCodes(body: Body, useSelf: bool, data: Ident, offset: Ident): Result<Codes> {
    match body
    case UnitBody => Ok(Codes([], [], []))
    case TupleBody(types) => Ok(TupleCodes(types, 0, useSelf, data, offset))
    case NamedBody(fields) => NamedCodes(fields, 0, useSelf, data, offset)
  }

  /** What the pattern of a variant binds. */
  function Binders(body: Body): seq<Ident> {
    match body
    case UnitBody => []
    case TupleBody(types) => seq(|types|, i requires 0 <= i < |types| => "field" + Digits(i))
    case NamedBody(fields) => seq(|fields|, i requires 0 <= i < |fields| => fields[i].name)
  }

  function DeriveArms(variants: seq<VariantDecl>): Result<seq<Arm>> {
    if variants == [] then Ok([])
    else
      var d := variants[0];
      var codes := BodyCodes(d.body, false, "payload_data", "payload_offset");
      if codes.Error? then Error(codes.error)
      else
        var rest := DeriveArms(variants[1..]);
        if rest.Error? then rest
        else Ok([Arm(d.name, Binders(d.body), BodyTypes(d.body), codes.value)] + rest.value)
  }

  function DeriveItem(item: Item): Result<Impl> {
    match item
    case StructItem(body) =>
      var codes := BodyCodes(body, true, "data", "offset");
      if codes.Error? then Error(codes.error) else Ok(StructImpl(BodyTypes(body), codes.value))
    case EnumItem(variants) =>
      var arms := DeriveArms(variants);
      if arms.Error? then Error(arms.error) else Ok(EnumImpl(arms.value))
  }

  // ------------------------------------------------------------------------------------------------
  // Running the generated implementations

  function BufferOf(r: Outcome<Env>): Outcome<seq<byte>> {
    if r.Done? then
      if "buffer" in r.result && r.result["buffer"].Owned? then Done(r.result["buffer"].bytes) else Stuck
    else if r.Failed? then Failed
    else Stuck
  }

  /** The struct literal: every binding must hold a value of its field's type. */
  function Build(env: Env, types: seq<Ty>, build: seq<Ident>): Outcome<seq<Val>> {
    if types == [] || build == [] then (if types == [] && build == [] then Done([]) else Stuck)
    else if build[0] in env && AsValue(env[build[0]], types[0]).Some? then
      var rest := Build(env, types[1..], build[1..]);
      if rest.Done? then Done([AsValue(env[build[0]], types[0]).value] + rest.result) else rest
    else Stuck
  }

  /** Deserializing code, the consumption check, the struct literal. */
  function Consume(r: Outcome<Env>, types: seq<Ty>, build: seq<Ident>, data: Ident, offset: Ident): Outcome<seq<Val>> {
    if r.Done? then
      var env := r.result;
      if data in env && env[data].Slice? && offset in env && env[offset].Number?
      then if |env[data].bytes| != env[offset].n then Failed else Build(env, types, build)
      else Stuck
    else if r.Failed? then Failed
    else Stuck
  }

  function Slots(types: seq<Ty>, vs: seq<Val>): (r: seq<Slot>)
    requires |types| == |vs|
    ensures |r| == |vs|
  {
    seq(|vs|, i requires 0 <= i < |vs| => Value(types[i], vs[i]))
  }

  function RunStructEncode(cx: Formats, types: seq<Ty>, codes: Codes, fields: seq<Val>): Outcome<seq<byte>>
    requires |fields| == |types|
  {
    BufferOf(Run(cx, codes.ser, Slots(types, fields), map["ctx" := Context, "buffer" := Owned([])]))
  }

  function RunDecode(cx: Formats, types: seq<Ty>, codes: Codes, input: seq<byte>, data: Ident, offset: Ident)
    : Outcome<seq<Val>>
  {
    var env := map["ctx" := Context, data := Slice(input), offset := Number(0)];
    Consume(Run(cx, codes.de, [], env), types, codes.build, data, offset)
  }

  /** The pattern of a match arm, in field order. */
  function Bind(env: Env, binders: seq<Ident>, types: seq<Ty>, fields: seq<Val>): Env
    requires |binders| == |types| == |fields|
    decreases binders
  {
    if binders == [] then env
    else Bind(env[binders[0] := Value(types[0], fields[0])], binders[1..], types[1..], fields[1..])
  }

  /** One serializing arm: the pattern, then `let mut buffer = Vec::new()`, then the fields. */
  function RunArmEncode(cx: Formats, arm: Arm, fields: seq<Val>): Outcome<seq<byte>>
    requires |arm.binders| == |arm.types| == |fields|
  {
    var env := Bind(map["ctx" := Context, "buffer" := Owned([])], arm.binders, arm.types, fields);
    BufferOf(Run(cx, arm.codes.ser, [], env["buffer" := Owned([])]))
  }

  /** The variants the arms are for: the arm of a name is the one of its variant. */
  function ArmVariants(arms: seq<Arm>): (variants: seq<Variant>)
    ensures |variants| == |arms|
  {
    seq(|arms|, i requires 0 <= i < |arms| => Variant(arms[i].name, arms[i].types))
  }

  function RunEnumEncode(cx: Formats, arms: seq<Arm>, name: seq<byte>, fields: seq<Val>): Outcome<seq<byte>> {
    var i := FindVariant(ArmVariants(arms), name);
    if i < |arms| && |arms[i].binders| == |arms[i].types| == |fields| then
      var payload := RunArmEncode(cx, arms[i], fields);
      if payload.Done? then Done(Frame(name) + Frame(payload.result)) else payload
    else Stuck
  }

  function RunEnumDecode(cx: Formats, arms: seq<Arm>, input: seq<byte>): Outcome<Val> {
    var name := Unframe(input);
    if name.None? || !cx.utf8(name.value.inner) then Failed
    else
      var payload := Unframe(name.value.rest);
      var i := FindVariant(ArmVariants(arms), name.value.inner);
      if payload.None? || i == |arms| then Failed
      else
        var r := RunDecode(cx, arms[i].types, arms[i].codes, payload.value.inner, "payload_data", "payload_offset");
        if r.Done? then
          if payload.value.rest != [] then Failed else Done(VCase(name.value.inner, r.result))
        else if r.Failed? then Failed
        else Stuck
  }
}
