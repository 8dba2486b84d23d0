/** Whole declarations: structs and enums through the derive macro, and the loops of the generator itself. */
module DeriveItems {
  import opened Bytes
  import opened Codec
  import opened Derive
  import opened DeriveTheorems
  import opened DeriveEncoders

  function VariantTypes(variants: seq<VariantDecl>): (vs: seq<Variant>)
    ensures |vs| == |variants|
    ensures forall i :: 0 <= i < |vs| ==> vs[i] == Variant(variants[i].name, BodyTypes(variants[i].body))
  {
    seq(|variants|, i requires 0 <= i < |variants| => Variant(variants[i].name, BodyTypes(variants[i].body)))
  }

  function ItemType(item: Item): Ty {
    match item
    case StructItem(body) => TRecord(BodyTypes(body))
    case EnumItem(variants) => TEnum(VariantTypes(variants))
  }

  predicate ItemDecodeNamesOk(item: Item) {
    match item
    case StructItem(body) => DecodeNamesOk(body)
    case EnumItem(variants) => forall i :: 0 <= i < |variants| ==> DecodeNamesOk(variants[i].body)
  }

  predicate ItemEncodeNamesOk(item: Item) {
    item.EnumItem? ==>
      forall i :: 0 <= i < |item.variants| ==> EncodeNamesOk(item.variants[i].body) && DistinctNames(item.variants[i].body)
  }

  function RunImmaterialize(cx: Formats, impl: Impl, v: Val): Outcome<seq<byte>> {
    match impl
    case StructImpl(types, codes) =>
      if v.VRecord? && |v.fields| == |types| then RunStructEncode(cx, types, codes, v.fields) else Stuck
    case EnumImpl(arms) =>
      if v.VCase? then RunEnumEncode(cx, arms, v.name, v.fields) else Stuck
  }

  function RunRematerialize(cx: Formats, impl: Impl, input: seq<byte>): Outcome<Val> {
    match impl
    case StructImpl(types, codes) =>
      var r := RunDecode(cx, types, codes, input, "data", "offset");
      if r.Done? then Done(VRecord(r.result)) else if r.Failed? then Failed else Stuck
    case EnumImpl(arms) => RunEnumDecode(cx, arms, input)
  }

  predicate Annotated(body: Body) {
    body.NamedBody? && exists i :: 0 <= i < |body.fields| && !Plain(body.fields[i])
  }

  /** Deriving is refused exactly when a named field carries `#[serde]` or `#[bincode]`. */
  lemma DeriveRefuses(item: Item)
    ensures DeriveItem(item).Error? <==>
      match item
      case StructItem(body) => Annotated(body)
      case EnumItem(variants) => exists i :: 0 <= i < |variants| && Annotated(variants[i].body)
  {
    match item
    case StructItem(body) => BodyCodesArePlans(body, true, "data", "offset");
    case EnumItem(variants) => ArmsRefused(variants);
  }

  lemma {:induction false} ArmsRefused(variants: seq<VariantDecl>)
    ensures DeriveArms(variants).Error? <==> exists i :: 0 <= i < |variants| && Annotated(variants[i].body)
    decreases |variants|
  {
    if variants != [] {
      BodyCodesArePlans(variants[0].body, false, "payload_data", "payload_offset");
      ArmsRefused(variants[1..]);
      assert forall i :: 0 < i < |variants| ==> variants[i] == variants[1..][i - 1];
    }
  }

  /** The error says which of the two attributes the field carries. */
  predicate RefusedFor(f: Field, e: DeriveError) {
    match e
    case BothAttributes(name) => f.serde && f.bincode && name == f.name
    case SerdeNotImplemented => f.serde && !f.bincode
    case BincodeNotImplemented => !f.serde && f.bincode
  }

  /** The first field that carries one is the one complained about. */
  predicate FirstAnnotated(fields: seq<Field>, i: nat) {
    i < |fields| && !Plain(fields[i]) && forall j :: 0 <= j < i ==> Plain(fields[j])
  }

  lemma {:induction false} FieldsRefused(fields: seq<Field>, index: nat, i: nat, useSelf: bool, data: Ident, offset: Ident)
    requires FirstAnnotated(fields, i) && index <= i
    ensures var r := NamedCodes(fields, index, useSelf, data, offset); r.Error? && RefusedFor(fields[i], r.error)
    decreases i - index
  {
    if index < i {
      FieldsRefused(fields, index + 1, i, useSelf, data, offset);
    }
  }

  lemma StructRefused(fields: seq<Field>, i: nat)
    requires FirstAnnotated(fields, i)
    ensures var r := DeriveItem(StructItem(NamedBody(fields))); r.Error? && RefusedFor(fields[i], r.error)
  {
    FieldsRefused(fields, 0, i, true, "data", "offset");
  }

  /** Of an enum, the first such field of the first variant that has one. */
  lemma {:induction false} VariantsRefused(variants: seq<VariantDecl>, k: nat, i: nat)
    requires k < |variants| && variants[k].body.NamedBody? && FirstAnnotated(variants[k].body.fields, i)
    requires forall j :: 0 <= j < k ==> !Annotated(variants[j].body)
    ensures var r := DeriveArms(variants); r.Error? && RefusedFor(variants[k].body.fields[i], r.error)
    decreases k
  {
    if k == 0 {
      FieldsRefused(variants[0].body.fields, 0, i, false, "payload_data", "payload_offset");
    } else {
      BodyCodesArePlans(variants[0].body, false, "payload_data", "payload_offset");
      assert forall j :: 0 < j < |variants| ==> variants[1..][j - 1] == variants[j];
      VariantsRefused(variants[1..], k - 1, i);
    }
  }

  lemma {:induction false} ArmAt(variants: seq<VariantDecl>, i: nat)
    requires DeriveArms(variants).Ok? && i < |variants|
    ensures |DeriveArms(variants).value| == |variants|
    ensures var d := variants[i];
      var codes := BodyCodes(d.body, false, "payload_data", "payload_offset");
      codes.Ok? && DeriveArms(variants).value[i] == Arm(d.name, Binders(d.body), BodyTypes(d.body), codes.value)
    decreases |variants|
  {
    if |variants| > 1 {
      ArmAt(variants[1..], if i == 0 then 0 else i - 1);
    } else {
      assert variants[1..] == [];
    }
  }

  lemma ArmsAreVariants(variants: seq<VariantDecl>)
    requires DeriveArms(variants).Ok?
    ensures ArmVariants(DeriveArms(variants).value) == VariantTypes(variants)
  {
    ArmsCount(variants);
    forall i | 0 <= i < |variants|
      ensures ArmVariants(DeriveArms(variants).value)[i] == VariantTypes(variants)[i]
    {
      ArmAt(variants, i);
    }
  }

  lemma {:induction false} ArmsCount(variants: seq<VariantDecl>)
    requires DeriveArms(variants).Ok?
    ensures |DeriveArms(variants).value| == |variants|
    decreases |variants|
  {
    if variants != [] {
      ArmsCount(variants[1..]);
    }
  }

  /** The derived decoder of a whole declaration is the decoder of its type. The code of the fields is generated as
      statements and run; what an enum has around it, reading name and payload and the check at the end, is the same for
      every enum and is given directly by `RunEnumDecode`. */
  lemma DerivedDecodes(cx: Formats, item: Item, input: seq<byte>)
    requires DeriveItem(item).Ok? && ItemDecodeNamesOk(item)
    ensures RunRematerialize(cx, DeriveItem(item).value, input) == ToOutcome(Decode(cx, ItemType(item), input))
  {
    match item
    case StructItem(body) => FieldsDecodeCorrect(cx, body, true, "data", "offset", input);
    case EnumItem(variants) => EnumDecodes(cx, variants, input);
  }

  lemma EnumDecodes(cx: Formats, variants: seq<VariantDecl>, input: seq<byte>)
    requires DeriveArms(variants).Ok? && forall i :: 0 <= i < |variants| ==> DecodeNamesOk(variants[i].body)
    ensures RunEnumDecode(cx, DeriveArms(variants).value, input)
         == ToOutcome(Decode(cx, TEnum(VariantTypes(variants)), input))
  {
    var name := Unframe(input);
    if name.Some? {
      var i := FindVariant(VariantTypes(variants), name.value.inner);
      ArmsAreVariants(variants);
      var payload := Unframe(name.value.rest);
      if i < |variants| && payload.Some? {
        ArmAt(variants, i);
        FieldsDecodeCorrect(cx, variants[i].body, false, "payload_data", "payload_offset", payload.value.inner);
      }
    }
  }

  /** The derived encoder of a whole declaration is the encoder of its type; the frames of an enum's name and payload are
      given directly by `RunEnumEncode`. */
  lemma DerivedEncodes(cx: Formats, item: Item, v: Val)
    requires DeriveItem(item).Ok? && ItemEncodeNamesOk(item)
    requires HasType(cx, ItemType(item), v) && OnWire(v)
    ensures RunImmaterialize(cx, DeriveItem(item).value, v) == Done(Encode(cx, ItemType(item), v))
  {
    match item
    case StructItem(body) => StructEncodeCorrect(cx, body, v.fields);
    case EnumItem(variants) =>
      var i := FindVariant(VariantTypes(variants), v.name);
      ArmsAreVariants(variants);
      ArmAt(variants, i);
      ArmEncodeCorrect(cx, variants[i].body, variants[i].name, v.fields);
      ArmRuns(cx, variants[i].body, variants[i].name, v.fields);
  }

  /** A named struct, a tuple struct and a tuple with the same field types share their bytes. */
  lemma SameFieldsSameBytes(cx: Formats, fields: seq<Field>, vs: seq<Val>)
    requires DeriveItem(StructItem(NamedBody(fields))).Ok?
    requires HasType(cx, TRecord(FieldTypes(fields)), VRecord(vs)) && OnWire(VRecord(vs))
    ensures var named := DeriveItem(StructItem(NamedBody(fields))).value;
      var numbered := DeriveItem(StructItem(TupleBody(FieldTypes(fields)))).value;
      RunImmaterialize(cx, named, VRecord(vs)) == RunImmaterialize(cx, numbered, VRecord(vs))
      == Done(Encode(cx, TRecord(FieldTypes(fields)), VRecord(vs)))
  {
    DerivedEncodes(cx, StructItem(NamedBody(fields)), VRecord(vs));
    DerivedEncodes(cx, StructItem(TupleBody(FieldTypes(fields))), VRecord(vs));
  }

  // ------------------------------------------------------------------------------------------------
  // The generator's loops

  /** The tuple path pushes the pieces of one field after the other. */
  method DeriveTuple(types: seq<Ty>, useSelf: bool, data: Ident, offset: Ident) returns (codes: Codes)
    ensures codes == TupleCodes(types, 0, useSelf, data, offset)
  {
    var serializeFields, deserializeFields, valueIdents := [], [], [];
    for i := 0 to |types|
      invariant Join(Codes(serializeFields, deserializeFields, valueIdents), TupleCodes(types, i, useSelf, data, offset))
             == TupleCodes(types, 0, useSelf, data, offset)
    {
      ghost var soFar := Codes(serializeFields, deserializeFields, valueIdents);
      var piece := TupleCode(types[i], i, useSelf, data, offset);
      JoinAssociates(soFar, piece, TupleCodes(types, i + 1, useSelf, data, offset));
      serializeFields := serializeFields + piece.ser;
      deserializeFields := deserializeFields + piece.de;
      valueIdents := valueIdents + piece.build;
    }
    codes := Codes(serializeFields, deserializeFields, valueIdents);
    assert Join(codes, Codes([], [], [])) == codes;
  }

  lemma JoinAssociates(a: Codes, b: Codes, c: Codes)
    ensures Join(Join(a, b), c) == Join(a, Join(b, c))
  {
    assert a.ser + b.ser + c.ser == a.ser + (b.ser + c.ser);
    assert a.de + b.de + c.de == a.de + (b.de + c.de);
    assert a.build + b.build + c.build == a.build + (b.build + c.build);
  }

  /** The enum path pushes one arm per variant and gives up at the first refused one. */
  method DeriveEnum(variants: seq<VariantDecl>) returns (r: Result<seq<Arm>>)
    ensures r == DeriveArms(variants)
  {
    var arms: seq<Arm> := [];
    assert variants[0..] == variants;
    assert DeriveArms(variants).Ok? ==> [] + DeriveArms(variants).value == DeriveArms(variants).value;
    for i := 0 to |variants|
      invariant DeriveArms(variants) == After(arms, DeriveArms(variants[i..]))
    {
      var d := variants[i];
      assert variants[i..][0] == d && variants[i..][1..] == variants[i + 1..];
      var codes: Result<Codes>;
      if d.body.TupleBody? {
        var tuple := DeriveTuple(d.body.types, false, "payload_data", "payload_offset");
        codes := Ok(tuple);
      } else {
        codes := BodyCodes(d.body, false, "payload_data", "payload_offset");
      }
      if codes.Error? {
        return Error(codes.error);
      }
      var arm := Arm(d.name, Binders(d.body), BodyTypes(d.body), codes.value);
      AfterOne(arms, arm, DeriveArms(variants[i + 1..]));
      arms := arms + [arm];
    }
    assert arms + [] == arms;
    r := Ok(arms);
  }

  function After(arms: seq<Arm>, rest: Result<seq<Arm>>): Result<seq<Arm>> {
    if rest.Error? then rest else Ok(arms + rest.value)
  }

  lemma AfterOne(arms: seq<Arm>, arm: Arm, rest: Result<seq<Arm>>)
    ensures After(arms, After([arm], rest)) == After(arms + [arm], rest)
  {
    if rest.Ok? {
      assert arms + ([arm] + rest.value) == arms + [arm] + rest.value;
    }
  }
}
