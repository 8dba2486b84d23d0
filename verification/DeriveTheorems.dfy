/** The derive macro is a correct compiler: what its generated code computes, and for which field names it does not. */
module DeriveTheorems {
  import opened Bytes
  import opened Codec
  import opened Derive
  import opened DeriveRuns
  import opened DeriveWrites
  import opened DeriveReads

  // ------------------------------------------------------------------------------------------------
  // Names

  lemma SamePrefix(p: string, a: string, b: string)
    ensures p + a == p + b <==> a == b
  {
    assert (p + a)[|p|..] == a && (p + b)[|p|..] == b;
  }

  lemma NamedNamesClear(x: Ident)
    ensures ClearNames(NamedNames(x), "data", "offset") && ClearNames(NamedNames(x), "payload_data", "payload_offset")
    ensures "field_bytes_" + x != "buffer" && "field_bytes_" + x != "ctx"
  {
    var n := NamedNames(x);
    assert |n.bytes| == |n.length| + 2 == |n.value| + 6;
    assert n.length[0] == n.bytes[0] == n.value[0] == 'f';
    assert "data"[0] == 'd' && "offset"[0] == 'o' && "ctx"[0] == 'c' && "buffer"[0] == 'b';
    assert "payload_data"[0] == 'p' && "payload_offset"[0] == 'p';
  }

  /** When the value of field `x` is overwritten by the code of field `y`. */
  lemma NamedIntroduces(x: Ident, y: Ident)
    ensures Introduces(NamedNames(y), NamedNames(x).value) <==> x == "bytes_" + y || x == "len_" + y || x == y
    ensures NamedNames(x).value == NamedNames(y).length <==> x == "len_" + y
    ensures NamedNames(x).value == NamedNames(y).bytes <==> x == "bytes_" + y
    ensures x == "bytes_" + y || x == "len_" + y ==> NamedNames(x).value != NamedNames(y).value
  {
    SamePrefix("field_", x, y);
    SamePrefix("field_", x, "bytes_" + y);
    SamePrefix("field_", x, "len_" + y);
    assert "field_" + ("bytes_" + y) == "field_bytes_" + y;
    assert "field_" + ("len_" + y) == "field_len_" + y;
    assert |"bytes_" + y| == |y| + 6 && |"len_" + y| == |y| + 4;
  }

  predicate Digit(c: char) {
    '0' <= c <= '9'
  }

  function DigitsValue(s: string): nat {
    if s == [] then 0
    else if !Digit(s[|s| - 1]) then 0
    else 10 * DigitsValue(s[..|s| - 1]) + (s[|s| - 1] as int - '0' as int)
  }

  lemma {:induction false} DigitsRead(n: nat)
    ensures DigitsValue(Digits(n)) == n
    ensures |Digits(n)| > 0 && forall i :: 0 <= i < |Digits(n)| ==> Digit(Digits(n)[i])
    decreases n
  {
    if n < 10 {
      assert Digits(n)[..0] == [];
    } else {
      DigitsRead(n / 10);
      DigitsRead(n % 10);
      assert |Digits(n % 10)| == 1;
      assert Digits(n)[..|Digits(n)| - 1] == Digits(n / 10);
      assert Digits(n)[|Digits(n)| - 1] == Digits(n % 10)[0];
      assert DigitsValue(Digits(n % 10)) == Digits(n % 10)[0] as int - '0' as int by {
        assert Digits(n % 10)[..0] == [];
      }
    }
  }

  predicate AllDigits(s: string) {
    forall i :: 0 <= i < |s| ==> Digit(s[i])
  }

  lemma LongestDigits(a: string, s: string, b: string, t: string)
    requires AllDigits(a) && AllDigits(b)
    requires s != [] && t != [] && !Digit(s[0]) && !Digit(t[0])
    requires a + s == b + t
    ensures a == b && s == t
  {
    var w := a + s;
    assert w[|a|] == s[0] && w[|b|] == t[0];
    assert forall k :: 0 <= k < |b| ==> w[k] == b[k];
    assert forall k :: 0 <= k < |a| ==> w[k] == a[k];
    assert w[..|a|] == a && w[..|a|] == b && w[|a|..] == s && w[|a|..] == t;
  }

  /** A decimal number followed by an underscore can be read off unambiguously. */
  lemma DigitsThenSuffix(i: nat, s: string, j: nat, t: string)
    requires s != [] && t != [] && !Digit(s[0]) && !Digit(t[0])
    requires "field" + Digits(i) + s == "field" + Digits(j) + t
    ensures i == j && s == t
  {
    StripPrefix("field", Digits(i), s, Digits(j), t);
    DigitsRead(i);
    DigitsRead(j);
    LongestDigits(Digits(i), s, Digits(j), t);
  }

  lemma StripPrefix(p: string, a: string, s: string, b: string, t: string)
    requires p + a + s == p + b + t
    ensures a + s == b + t
  {
    assert p + a + s == p + (a + s) && p + b + t == p + (b + t);
    SamePrefix(p, a + s, b + t);
  }

  lemma NumberedIntroduces(i: nat, j: nat)
    ensures Introduces(NumberedNames(j), NumberedNames(i).value) <==> i == j
    ensures ClearNames(NumberedNames(i), "data", "offset") && ClearNames(NumberedNames(i), "payload_data", "payload_offset")
    ensures "field_bytes_" + Digits(i) != "buffer" && "field_bytes_" + Digits(i) != "ctx"
  {
    var n, m := NumberedNames(i), NumberedNames(j);
    assert "_value"[0] == '_' && "_bytes"[0] == '_' && "_len"[0] == '_';
    assert "_value"[1] == 'v' && "_bytes"[1] == 'b' && "_len"[1] == 'l';
    if n.value == m.length { DigitsThenSuffix(i, "_value", j, "_len"); }
    if n.value == m.bytes { DigitsThenSuffix(i, "_value", j, "_bytes"); }
    if n.value == m.value { DigitsThenSuffix(i, "_value", j, "_value"); }
    if n.length == n.bytes { DigitsThenSuffix(i, "_len", i, "_bytes"); }
    if n.value == n.bytes { DigitsThenSuffix(i, "_value", i, "_bytes"); }
    if n.value == n.length { DigitsThenSuffix(i, "_value", i, "_len"); }
    assert n.length[0] == n.bytes[0] == n.value[0] == 'f' && ("field_bytes_" + Digits(i))[0] == 'f';
    assert "data"[0] == 'd' && "offset"[0] == 'o' && "ctx"[0] == 'c' && "buffer"[0] == 'b';
    assert "payload_data"[0] == 'p' && "payload_offset"[0] == 'p';
  }

  /** The binders `field0`, `field1`, .. of a tuple variant: distinct, and never a name the arm's code introduces. */
  lemma TupleBinders(i: nat, j: nat)
    ensures "field" + Digits(i) == "field" + Digits(j) <==> i == j
    ensures "field" + Digits(i) != "field_bytes_" + Digits(j)
    ensures "field" + Digits(i) != "buffer" && "field" + Digits(i) != "ctx"
  {
    DigitsRead(i);
    DigitsRead(j);
    SamePrefix("field", Digits(i), Digits(j));
    assert ("field" + Digits(i))[5] == Digits(i)[0];
    assert ("field_bytes_" + Digits(j))[5] == '_';
    assert ("field" + Digits(i))[0] == 'f' && "buffer"[0] == 'b' && "ctx"[0] == 'c';
  }

  // ------------------------------------------------------------------------------------------------
  // Generated code as plans

  function NamedPlans(fields: seq<Field>, useSelf: bool): (ps: seq<Plan>)
    ensures |ps| == |fields|
  {
    seq(|fields|, i requires 0 <= i < |fields| =>
      Plan(fields[i].ty, if useSelf then SelfField(i) else Binding(fields[i].name),
           "field_bytes_" + fields[i].name, NamedNames(fields[i].name)))
  }

  function TuplePlans(types: seq<Ty>, useSelf: bool): (ps: seq<Plan>)
    ensures |ps| == |types|
  {
    seq(|types|, i requires 0 <= i < |types| =>
      Plan(types[i], if useSelf then SelfField(i) else Binding("field" + Digits(i)),
           "field_bytes_" + Digits(i), NumberedNames(i)))
  }

  function BodyPlans(body: Body, useSelf: bool): seq<Plan> {
    match body
    case UnitBody => []
    case TupleBody(types) => TuplePlans(types, useSelf)
    case NamedBody(fields) => NamedPlans(fields, useSelf)
  }

  function CodesOf(plans: seq<Plan>, data: Ident, offset: Ident): Codes {
    Codes(SerCode(plans), DeCode(plans, data, offset), ValueNames(plans))
  }

  lemma ConsPlan(plans: seq<Plan>, index: nat, data: Ident, offset: Ident)
    requires index < |plans|
    ensures CodesOf(plans[index..], data, offset)
         == var p := plans[index];
            Join(Codes(SerializeCode(p.ty, p.from, p.dst), DeserializeCode(p.ty, p.names, data, offset), [p.names.value]),
                 CodesOf(plans[index + 1..], data, offset))
  {
    assert plans[index..][0] == plans[index] && plans[index..][1..] == plans[index + 1..];
    assert ValueNames(plans[index..]) == [plans[index].names.value] + ValueNames(plans[index + 1..]);
  }

  predicate Plain(f: Field) {
    !f.serde && !f.bincode
  }

  lemma {:induction false} NamedCodesArePlans(fields: seq<Field>, index: nat, useSelf: bool, data: Ident, offset: Ident)
    requires index <= |fields|
    ensures NamedCodes(fields, index, useSelf, data, offset).Ok? <==> forall i :: index <= i < |fields| ==> Plain(fields[i])
    ensures NamedCodes(fields, index, useSelf, data, offset).Ok? ==>
      NamedCodes(fields, index, useSelf, data, offset).value == CodesOf(NamedPlans(fields, useSelf)[index..], data, offset)
    decreases |fields| - index
  {
    if index < |fields| {
      ConsPlan(NamedPlans(fields, useSelf), index, data, offset);
      NamedCodesArePlans(fields, index + 1, useSelf, data, offset);
      assert ForField(fields[index], index, useSelf, data, offset).Ok? <==> Plain(fields[index]);
    }
  }

  lemma {:induction false} TupleCodesArePlans(types: seq<Ty>, index: nat, useSelf: bool, data: Ident, offset: Ident)
    requires index <= |types|
    ensures TupleCodes(types, index, useSelf, data, offset) == CodesOf(TuplePlans(types, useSelf)[index..], data, offset)
    decreases |types| - index
  {
    if index < |types| {
      ConsPlan(TuplePlans(types, useSelf), index, data, offset);
      TupleCodesArePlans(types, index + 1, useSelf, data, offset);
    }
  }

  /** Deriving fails exactly on an annotated named field; otherwise the code is that of the field plans. */
  lemma BodyCodesArePlans(body: Body, useSelf: bool, data: Ident, offset: Ident)
    ensures BodyCodes(body, useSelf, data, offset).Error?
       <==> body.NamedBody? && exists i :: 0 <= i < |body.fields| && !Plain(body.fields[i])
    ensures BodyCodes(body, useSelf, data, offset).Ok? ==>
      BodyCodes(body, useSelf, data, offset).value == CodesOf(BodyPlans(body, useSelf), data, offset)
    ensures Types(BodyPlans(body, useSelf)) == BodyTypes(body)
  {
    match body
    case UnitBody =>
    case TupleBody(types) => TupleCodesArePlans(types, 0, useSelf, data, offset);
      assert TuplePlans(types, useSelf)[0..] == TuplePlans(types, useSelf);
    case NamedBody(fields) => NamedCodesArePlans(fields, 0, useSelf, data, offset);
      assert NamedPlans(fields, useSelf)[0..] == NamedPlans(fields, useSelf);
  }

  // ------------------------------------------------------------------------------------------------
  // Decoding

  /** No earlier field is named `bytes_x`, `len_x` or `x` for a later field `x`. Tuple fields cannot be. */
  predicate DecodeNamesOk(body: Body) {
    body.NamedBody? ==>
      forall i, j :: 0 <= i < j < |body.fields| ==> !Overwrites(body.fields[j].name, body.fields[i].name)
  }

  predicate Overwrites(later: Ident, earlier: Ident) {
    earlier == "bytes_" + later || earlier == "len_" + later || earlier == later
  }

  /** What Rust already demands of a struct. */
  predicate DistinctNames(body: Body) {
    body.NamedBody? ==> forall i, j :: 0 <= i < j < |body.fields| ==> body.fields[i].name != body.fields[j].name
  }

  predicate LoopNames(data: Ident, offset: Ident) {
    (data == "data" && offset == "offset") || (data == "payload_data" && offset == "payload_offset")
  }

  lemma LoopNamesDiffer(data: Ident, offset: Ident)
    requires LoopNames(data, offset)
    ensures data != offset && data != "ctx" && offset != "ctx"
  {
    assert "payload_data"[8] != "payload_offset"[8];
    assert "data"[0] == 'd' && "offset"[0] == 'o' && "ctx"[0] == 'c' && data[0] != 'c' && offset[0] != 'c';
  }

  lemma PlansClear(body: Body, useSelf: bool, data: Ident, offset: Ident)
    requires LoopNames(data, offset)
    ensures AllClear(BodyPlans(body, useSelf), data, offset) && SafeDst(BodyPlans(body, useSelf))
  {
    var plans := BodyPlans(body, useSelf);
    forall i | 0 <= i < |plans|
      ensures ClearNames(plans[i].names, data, offset) && plans[i].dst != "buffer" && plans[i].dst != "ctx"
    {
      if body.NamedBody? { NamedNamesClear(body.fields[i].name); } else { NumberedIntroduces(i, i); }
    }
  }

  lemma PlansOverwrite(body: Body, useSelf: bool, i: nat, j: nat)
    requires i < j < |BodyPlans(body, useSelf)|
    ensures Introduces(BodyPlans(body, useSelf)[j].names, BodyPlans(body, useSelf)[i].names.value)
       <==> body.NamedBody? && Overwrites(body.fields[j].name, body.fields[i].name)
  {
    if body.NamedBody? {
      NamedIntroduces(body.fields[i].name, body.fields[j].name);
    } else {
      NumberedIntroduces(i, j);
    }
  }

  function ToOutcome<T>(r: Option<T>): Outcome<T> {
    if r.Some? then Done(r.value) else Failed
  }

  lemma {:induction false} BuildGives(env: Env, plans: seq<Plan>, vs: seq<Val>)
    requires |plans| == |vs|
    requires forall i {:trigger plans[i]} :: 0 <= i < |plans| ==>
      plans[i].names.value in env && AsValue(env[plans[i].names.value], plans[i].ty) == Some(vs[i])
    ensures Build(env, Types(plans), ValueNames(plans)) == Done(vs)
    decreases |plans|
  {
    if plans != [] {
      assert Types(plans)[1..] == Types(plans[1..]) && ValueNames(plans)[1..] == ValueNames(plans[1..]);
      assert forall i {:trigger plans[1..][i]} :: 0 <= i < |plans[1..]| ==> plans[1..][i] == plans[i + 1];
      assert plans[0].names.value in env;
      BuildGives(env, plans[1..], vs[1..]);
      assert [vs[0]] + vs[1..] == vs;
    }
  }

  lemma {:induction false} BuildStuck(env: Env, plans: seq<Plan>, k: nat)
    requires k < |plans| && plans[k].names.value in env
    requires AsValue(env[plans[k].names.value], plans[k].ty).None?
    ensures Build(env, Types(plans), ValueNames(plans)) == Stuck
    decreases k
  {
    if k > 0 {
      assert Types(plans)[1..] == Types(plans[1..]) && ValueNames(plans)[1..] == ValueNames(plans[1..]);
      BuildStuck(env, plans[1..], k - 1);
    }
  }

  function DecodeEnv(data: Ident, offset: Ident, input: seq<byte>): Env {
    map["ctx" := Context, data := Slice(input), offset := Number(0)]
  }

  lemma DecodeRuns(cx: Formats, body: Body, useSelf: bool, data: Ident, offset: Ident, input: seq<byte>)
      returns (r: Outcome<Env>)
    requires LoopNames(data, offset)
    ensures var plans := BodyPlans(body, useSelf);
      && r == Run(cx, DeCode(plans, data, offset), [], DecodeEnv(data, offset, input))
      && DecodedTo(plans, data, offset, input, DecodeEnv(data, offset, input), ReadFields(cx, Types(plans), input),
                   Inners(|plans|, input), r)
  {
    var plans, env := BodyPlans(body, useSelf), DecodeEnv(data, offset, input);
    PlansClear(body, useSelf, data, offset);
    LoopNamesDiffer(data, offset);
    assert input[0..] == input;
    CodeRunsFields(cx, plans, data, offset, input, 0, env);
    r := RunFields(cx, plans, offset, input, 0, env);
    RunDeserialize(cx, plans, data, offset, input, 0, env, ReadFields(cx, Types(plans), input), r);
  }

  /** The first field from number `j` on whose code writes the value binding of field `i`; none if the number of fields. */
  function Overwriter(fields: seq<Field>, i: nat, j: nat): (r: nat)
    requires i < |fields| && j <= |fields|
    ensures j <= r <= |fields|
    ensures r < |fields| ==> Overwrites(fields[r].name, fields[i].name)
    ensures forall k :: j <= k < r ==> !Overwrites(fields[k].name, fields[i].name)
    decreases |fields| - j
  {
    if j == |fields| || Overwrites(fields[j].name, fields[i].name) then j else Overwriter(fields, i, j + 1)
  }

  /** The one clash rustc accepts: a `usize` field named `len_x` before a field `x`, whose length is a `usize` too. */
  predicate DecodeCompiles(body: Body) {
    body.NamedBody? ==>
      forall i :: 0 <= i < |body.fields| ==> FieldCompiles(body.fields, i)
  }

  predicate FieldCompiles(fields: seq<Field>, i: nat)
    requires i < |fields|
  {
    var j := Overwriter(fields, i, i + 1);
    j < |fields| ==> fields[i].name == "len_" + fields[j].name && fields[i].ty.TUsize?
  }

  /** What the struct literal is built from: the decoded fields, but the byte length of field `x` for a field `len_x`. */
  function Received(body: Body, vs: seq<Val>, inners: seq<seq<byte>>): (r: seq<Val>)
    requires |vs| == |inners| == |BodyTypes(body)|
    ensures |r| == |vs|
  {
    if !body.NamedBody? then vs
    else seq(|vs|, i requires 0 <= i < |vs| => ReceivedField(body.fields, vs, inners, i))
  }

  function ReceivedField(fields: seq<Field>, vs: seq<Val>, inners: seq<seq<byte>>, i: nat): Val
    requires i < |vs| == |inners| == |fields|
  {
    var j := Overwriter(fields, i, i + 1);
    if j < |fields| then VInt(|inners[j]|) else vs[i]
  }

  predicate PartOk(cx: Formats, ty: Ty, part: seq<byte>, v: Val) {
    |part| < U64_LIMIT && Decode(cx, ty, part) == Some(v)
  }

  predicate EachPart(cx: Formats, ts: seq<Ty>, parts: seq<seq<byte>>, vs: seq<Val>)
    requires |ts| == |parts| == |vs|
  {
    forall k :: 0 <= k < |ts| ==> PartOk(cx, ts[k], parts[k], vs[k])
  }

  lemma EachPartCons(cx: Formats, ts: seq<Ty>, first: seq<byte>, parts: seq<seq<byte>>, vs: seq<Val>)
    requires ts != [] && |ts[1..]| == |parts| == |vs| && EachPart(cx, ts[1..], parts, vs)
    requires |first| < U64_LIMIT && Decode(cx, ts[0], first).Some?
    ensures EachPart(cx, ts, [first] + parts, [Decode(cx, ts[0], first).value] + vs)
  {
    var v := Decode(cx, ts[0], first).value;
    forall k | 0 <= k < |ts| ensures PartOk(cx, ts[k], ([first] + parts)[k], ([v] + vs)[k]) {
      if k > 0 {
        assert ts[1..][k - 1] == ts[k] && PartOk(cx, ts[1..][k - 1], parts[k - 1], vs[k - 1]);
      }
    }
  }

  /** An accepted list of fields is a list of frames, each accepted by its own field. */
  lemma {:induction false} DecodeSplits(cx: Formats, ts: seq<Ty>, input: seq<byte>)
    requires DecodeFields(cx, ts, input).Some?
    ensures var vs, parts := DecodeFields(cx, ts, input).value, Inners(|ts|, input);
      |vs| == |parts| == |ts| && EachPart(cx, ts, parts, vs)
    decreases |ts|
  {
    if ts != [] {
      FrameUnframe(input);
      DecodeSplits(cx, ts[1..], Unframe(input).value.rest);
      var rest := Unframe(input).value.rest;
      EachPartCons(cx, ts, Unframe(input).value.inner, Inners(|ts| - 1, rest), DecodeFields(cx, ts[1..], rest).value);
    }
  }

  lemma EachPartLater(cx: Formats, ts: seq<Ty>, parts: seq<seq<byte>>, vs: seq<Val>)
    requires ts != [] && |ts| == |parts| == |vs| && EachPart(cx, ts, parts, vs)
    ensures PartOk(cx, ts[0], parts[0], vs[0]) && EachPart(cx, ts[1..], parts[1..], vs[1..])
  {
    forall k | 0 <= k < |ts[1..]| ensures PartOk(cx, ts[1..][k], parts[1..][k], vs[1..][k]) {
      assert PartOk(cx, ts[k + 1], parts[k + 1], vs[k + 1]);
    }
  }

  lemma FrameDecodes(cx: Formats, ts: seq<Ty>, part: seq<byte>, v: Val, rest: seq<byte>)
    requires ts != [] && PartOk(cx, ts[0], part, v)
    ensures DecodeFields(cx, ts, Frame(part) + rest)
         == var more := DecodeFields(cx, ts[1..], rest); if more.None? then None else Some([v] + more.value)
  {
    UnframeFrame(part, rest);
  }

  lemma {:induction false} FramesReadBack(cx: Formats, ts: seq<Ty>, parts: seq<seq<byte>>, vs: seq<Val>)
    requires |ts| == |parts| == |vs| && EachPart(cx, ts, parts, vs)
    ensures DecodeFields(cx, ts, FramesOf(parts)) == Some(vs)
    decreases |ts|
  {
    if ts != [] {
      EachPartLater(cx, ts, parts, vs);
      FrameDecodes(cx, ts, parts[0], vs[0], FramesOf(parts[1..]));
      FramesReadBack(cx, ts[1..], parts[1..], vs[1..]);
      assert [vs[0]] + vs[1..] == vs;
    }
  }

  lemma {:induction false} FramesInners(parts: seq<seq<byte>>)
    requires forall k :: 0 <= k < |parts| ==> |parts[k]| < U64_LIMIT
    ensures Inners(|parts|, FramesOf(parts)) == parts
    decreases |parts|
  {
    if parts != [] {
      UnframeFrame(parts[0], FramesOf(parts[1..]));
      FramesInners(parts[1..]);
      assert [parts[0]] + parts[1..] == parts;
    }
  }

  lemma FramesDecode(cx: Formats, ts: seq<Ty>, parts: seq<seq<byte>>, vs: seq<Val>)
    requires |ts| == |parts| == |vs| && EachPart(cx, ts, parts, vs)
    ensures DecodeFields(cx, ts, FramesOf(parts)) == Some(vs) && Inners(|ts|, FramesOf(parts)) == parts
  {
    forall k | 0 <= k < |parts| ensures |parts[k]| < U64_LIMIT {
      assert PartOk(cx, ts[k], parts[k], vs[k]);
    }
    FramesReadBack(cx, ts, parts, vs);
    FramesInners(parts);
  }

  /** What each field's value binding holds when the literal is built. */
  lemma FieldSlot(body: Body, useSelf: bool, data: Ident, offset: Ident, input: seq<byte>, env: Env, vs: seq<Val>,
                  inners: seq<seq<byte>>, r: Outcome<Env>, i: nat)
    requires DistinctNames(body) && i < |BodyPlans(body, useSelf)| == |vs| == |inners|
    requires DecodedTo(BodyPlans(body, useSelf), data, offset, input, env, Some((vs, [])), inners, r)
    ensures var p := BodyPlans(body, useSelf)[i];
      && p.names.value in r.result
      && AsValue(r.result[p.names.value], p.ty)
         == (if body.NamedBody? && !FieldCompiles(body.fields, i) then None
             else Some(if body.NamedBody? then ReceivedField(body.fields, vs, inners, i) else vs[i]))
  {
    var plans := BodyPlans(body, useSelf);
    var x := plans[i].names.value;
    if body.NamedBody? && Overwriter(body.fields, i, i + 1) < |plans| {
      var j := Overwriter(body.fields, i, i + 1);
      OneOverwriter(body, useSelf, i, j);
      assert Holds(r.result, x, Wrote(plans[j], x, inners[j], vs[j]));
      NamedIntroduces(body.fields[i].name, body.fields[j].name);
      NamedNamesClear(body.fields[j].name);
    } else {
      forall k | i < k < |plans| ensures !Introduces(plans[k].names, x) {
        PlansOverwrite(body, useSelf, i, k);
      }
      assert LastWriter(plans, i, x);
    }
  }

  lemma OneOverwriter(body: Body, useSelf: bool, i: nat, j: nat)
    requires body.NamedBody? && DistinctNames(body)
    requires i < j < |body.fields| && Overwrites(body.fields[j].name, body.fields[i].name)
    ensures LastWriter(BodyPlans(body, useSelf), j, BodyPlans(body, useSelf)[i].names.value)
  {
    var plans := BodyPlans(body, useSelf);
    PlansOverwrite(body, useSelf, i, j);
    forall k | j < k < |plans| ensures !Introduces(plans[k].names, plans[i].names.value) {
      PlansOverwrite(body, useSelf, i, k);
      OverwritesOne(body.fields[i].name, body.fields[j].name, body.fields[k].name);
    }
  }

  lemma OverwritesOne(x: Ident, y: Ident, z: Ident)
    requires x != y && x != z && y != z && Overwrites(y, x)
    ensures !Overwrites(z, x)
  {
    SamePrefix("len_", y, z);
    SamePrefix("bytes_", y, z);
    assert ("len_" + y)[0] == 'l' && ("bytes_" + z)[0] == 'b' && ("len_" + z)[0] == 'l' && ("bytes_" + y)[0] == 'b';
  }

  /** The generated decoder of a field list, on every input and whatever the fields are called: it fails where the
      field-by-field decoder fails; otherwise its code does not compile, or, if all its name clashes are of the kind
      rustc accepts, the fields concerned come back as lengths of other fields. */
  lemma FieldsDecodeExactly(cx: Formats, body: Body, useSelf: bool, data: Ident, offset: Ident, input: seq<byte>)
    requires BodyCodes(body, useSelf, data, offset).Ok? && LoopNames(data, offset) && DistinctNames(body)
    ensures var n, vs := |BodyTypes(body)|, DecodeFields(cx, BodyTypes(body), input);
      var r := RunDecode(cx, BodyTypes(body), BodyCodes(body, useSelf, data, offset).value, input, data, offset);
      if vs.None? then r == Failed
      else
        && |vs.value| == |Inners(n, input)| == n
        && r == if DecodeCompiles(body) then Done(Received(body, vs.value, Inners(n, input))) else Stuck
  {
    var plans, n := BodyPlans(body, useSelf), |BodyTypes(body)|;
    BodyCodesArePlans(body, useSelf, data, offset);
    assert |plans| == |Types(plans)| == n;
    var r := DecodeRuns(cx, body, useSelf, data, offset, input);
    ReadThenEmpty(cx, BodyTypes(body), input);
    var vs := DecodeFields(cx, BodyTypes(body), input);
    if vs.Some? {
      DecodeSplits(cx, BodyTypes(body), input);
      LiteralBuilt(body, useSelf, data, offset, input, DecodeEnv(data, offset, input), vs.value, Inners(n, input), r);
    }
  }

  lemma LiteralBuilt(body: Body, useSelf: bool, data: Ident, offset: Ident, input: seq<byte>, env: Env, vs: seq<Val>,
                     inners: seq<seq<byte>>, r: Outcome<Env>)
    requires DistinctNames(body) && |BodyPlans(body, useSelf)| == |BodyTypes(body)| == |vs| == |inners|
    requires DecodedTo(BodyPlans(body, useSelf), data, offset, input, env, Some((vs, [])), inners, r)
    ensures var plans := BodyPlans(body, useSelf);
      Build(r.result, Types(plans), ValueNames(plans))
      == if DecodeCompiles(body) then Done(Received(body, vs, inners)) else Stuck
  {
    var plans := BodyPlans(body, useSelf);
    if DecodeCompiles(body) {
      var out := Received(body, vs, inners);
      forall i {:trigger plans[i]} | 0 <= i < |plans|
        ensures plans[i].names.value in r.result && AsValue(r.result[plans[i].names.value], plans[i].ty) == Some(out[i])
      {
        FieldSlot(body, useSelf, data, offset, input, env, vs, inners, r, i);
      }
      BuildGives(r.result, plans, out);
    } else {
      var i :| 0 <= i < |body.fields| && !FieldCompiles(body.fields, i);
      FieldSlot(body, useSelf, data, offset, input, env, vs, inners, r, i);
      BuildStuck(r.result, plans, i);
    }
  }

  /** With the names in order, it computes the field-by-field specification. */
  lemma FieldsDecodeCorrect(cx: Formats, body: Body, useSelf: bool, data: Ident, offset: Ident, input: seq<byte>)
    requires BodyCodes(body, useSelf, data, offset).Ok? && LoopNames(data, offset) && DecodeNamesOk(body)
    ensures DecodesRight(cx, body, useSelf, data, offset, input)
  {
    FieldsDecodeExactly(cx, body, useSelf, data, offset, input);
    var vs := DecodeFields(cx, BodyTypes(body), input);
    if vs.Some? {
      AllCompile(body);
      ReceivedInOrder(body, vs.value, Inners(|BodyTypes(body)|, input));
    }
  }

  lemma AllCompile(body: Body)
    requires DecodeNamesOk(body)
    ensures DistinctNames(body) && DecodeCompiles(body)
  {
  }

  lemma ReceivedInOrder(body: Body, vs: seq<Val>, inners: seq<seq<byte>>)
    requires DecodeNamesOk(body) && |vs| == |inners| == |BodyTypes(body)|
    ensures Received(body, vs, inners) == vs
  {
  }

  predicate DecodesRight(cx: Formats, body: Body, useSelf: bool, data: Ident, offset: Ident, input: seq<byte>)
    requires BodyCodes(body, useSelf, data, offset).Ok?
  {
    RunDecode(cx, BodyTypes(body), BodyCodes(body, useSelf, data, offset).value, input, data, offset)
    == ToOutcome(DecodeFields(cx, BodyTypes(body), input))
  }

  /** The generated decoder is right on all inputs exactly when the names are in order, for every declaration that has
      an acceptable input at all. */
  lemma DecoderRightIff(cx: Formats, body: Body, useSelf: bool, data: Ident, offset: Ident, sample: seq<byte>)
    requires BodyCodes(body, useSelf, data, offset).Ok? && LoopNames(data, offset) && DistinctNames(body)
    requires DecodeFields(cx, BodyTypes(body), sample).Some?
    ensures (forall input :: DecodesRight(cx, body, useSelf, data, offset, input)) <==> DecodeNamesOk(body)
  {
    if DecodeNamesOk(body) {
      forall input ensures DecodesRight(cx, body, useSelf, data, offset, input) {
        FieldsDecodeCorrect(cx, body, useSelf, data, offset, input);
      }
    } else {
      var input := WrongInput(cx, body, useSelf, data, offset, sample);
      assert !DecodesRight(cx, body, useSelf, data, offset, input);
    }
  }

  /** With a clash, the decoder is wrong on the sample, or on the sample with another number in the field concerned. */
  lemma WrongInput(cx: Formats, body: Body, useSelf: bool, data: Ident, offset: Ident, sample: seq<byte>)
      returns (input: seq<byte>)
    requires BodyCodes(body, useSelf, data, offset).Ok? && LoopNames(data, offset) && DistinctNames(body)
    requires DecodeFields(cx, BodyTypes(body), sample).Some? && !DecodeNamesOk(body)
    ensures !DecodesRight(cx, body, useSelf, data, offset, input)
  {
    DecodeSplits(cx, BodyTypes(body), sample);
    input := sample;
    if !DecodeCompiles(body) {
      FieldsDecodeExactly(cx, body, useSelf, data, offset, sample);
    } else {
      var i, j := ClashOf(body);
      var parts := Inners(|BodyTypes(body)|, sample);
      if DecodeFields(cx, BodyTypes(body), sample).value[i] == VInt(|parts[j]|) {
        input := OtherNumber(cx, BodyTypes(body), sample, i, if |parts[j]| == 0 then 1 else 0);
      }
      WrongField(cx, body, useSelf, data, offset, input, i, j);
    }
  }

  lemma ClashOf(body: Body) returns (i: nat, j: nat)
    requires !DecodeNamesOk(body) && DecodeCompiles(body)
    ensures body.NamedBody? && i < j < |body.fields| == |BodyTypes(body)|
    ensures j == Overwriter(body.fields, i, i + 1) && BodyTypes(body)[i].TUsize?
  {
    var i0, j0 :| 0 <= i0 < j0 < |body.fields| && Overwrites(body.fields[j0].name, body.fields[i0].name);
    i, j := i0, Overwriter(body.fields, i0, i0 + 1);
    assert FieldCompiles(body.fields, i);
  }

  lemma WrongField(cx: Formats, body: Body, useSelf: bool, data: Ident, offset: Ident, input: seq<byte>, i: nat, j: nat)
    requires BodyCodes(body, useSelf, data, offset).Ok? && LoopNames(data, offset) && DistinctNames(body)
    requires body.NamedBody? && i < j < |body.fields| && j == Overwriter(body.fields, i, i + 1) && DecodeCompiles(body)
    requires var n, vs := |BodyTypes(body)|, DecodeFields(cx, BodyTypes(body), input);
      vs.Some? && |vs.value| == |Inners(n, input)| == n && vs.value[i] != VInt(|Inners(n, input)[j]|)
    ensures !DecodesRight(cx, body, useSelf, data, offset, input)
  {
    FieldsDecodeExactly(cx, body, useSelf, data, offset, input);
    var n, vs := |BodyTypes(body)|, DecodeFields(cx, BodyTypes(body), input).value;
    assert Received(body, vs, Inners(n, input))[i] == VInt(|Inners(n, input)[j]|);
  }

  /** An acceptable input with another number in a `usize` field and all other fields as they were. */
  lemma OtherNumber(cx: Formats, ts: seq<Ty>, sample: seq<byte>, i: nat, m: nat) returns (input: seq<byte>)
    requires DecodeFields(cx, ts, sample).Some? && i < |ts| && ts[i].TUsize? && m < U64_LIMIT
    ensures |Inners(|ts|, sample)| == |Inners(|ts|, input)| == |ts|
    ensures DecodeFields(cx, ts, input).Some? && |DecodeFields(cx, ts, input).value| == |ts|
    ensures DecodeFields(cx, ts, input).value[i] == VInt(m)
    ensures forall k :: 0 <= k < |ts| && k != i ==> Inners(|ts|, input)[k] == Inners(|ts|, sample)[k]
  {
    DecodeSplits(cx, ts, sample);
    var vs, parts := DecodeFields(cx, ts, sample).value, Inners(|ts|, sample);
    PowersOf256();
    LeRoundTrip(m, 8);
    var parts', vs' := parts[i := U64(m)], vs[i := VInt(m)];
    forall k | 0 <= k < |ts| ensures PartOk(cx, ts[k], parts'[k], vs'[k]) {
      assert PartOk(cx, ts[k], parts[k], vs[k]);
    }
    FramesDecode(cx, ts, parts', vs');
    input := FramesOf(parts');
  }

  /** `struct { len_x: usize, x: String }`: whatever number is sent, the decoder compiles and returns the length of the
      text's encoding in its place. */
  lemma LengthTakesOver(cx: Formats, n: nat, text: seq<byte>)
    requires n < U64_LIMIT && 8 + |text| < U64_LIMIT && cx.utf8(text)
    ensures var body := NamedBody([Field("len_x", TUsize, false, false), Field("x", TString, false, false)]);
      var input := FramesOf([U64(n), Frame(text)]);
      && BodyCodes(body, true, "data", "offset").Ok?
      && DecodeFields(cx, BodyTypes(body), input) == Some([VInt(n), VString(text)])
      && RunDecode(cx, BodyTypes(body), BodyCodes(body, true, "data", "offset").value, input, "data", "offset")
         == Done([VInt(8 + |text|), VString(text)])
  {
    var fields := [Field("len_x", TUsize, false, false), Field("x", TString, false, false)];
    var body, parts, vs := NamedBody(fields), [U64(n), Frame(text)], [VInt(n), VString(text)];
    BodyCodesArePlans(body, true, "data", "offset");
    LengthAndText(cx, n, text);
    LengthClashes(fields);
    DecodedAs(cx, body, FramesOf(parts), vs, parts);
    ReceivedTwo(fields, vs, parts);
    LengthReceived(fields, vs, parts);
  }

  lemma ReceivedTwo(fields: seq<Field>, vs: seq<Val>, parts: seq<seq<byte>>)
    requires |fields| == |vs| == |parts| == 2
    ensures Received(NamedBody(fields), vs, parts)
         == [ReceivedField(fields, vs, parts, 0), ReceivedField(fields, vs, parts, 1)]
  {
  }

  lemma DecodedAs(cx: Formats, body: Body, input: seq<byte>, vs: seq<Val>, parts: seq<seq<byte>>)
    requires BodyCodes(body, true, "data", "offset").Ok? && DistinctNames(body) && DecodeCompiles(body)
    requires DecodeFields(cx, BodyTypes(body), input) == Some(vs) && Inners(|BodyTypes(body)|, input) == parts
    ensures |vs| == |parts| == |BodyTypes(body)|
    ensures RunDecode(cx, BodyTypes(body), BodyCodes(body, true, "data", "offset").value, input, "data", "offset")
         == Done(Received(body, vs, parts))
  {
    FieldsDecodeExactly(cx, body, true, "data", "offset", input);
  }

  lemma LengthReceived(fields: seq<Field>, vs: seq<Val>, parts: seq<seq<byte>>)
    requires |fields| == |vs| == |parts| == 2 && Overwriter(fields, 0, 1) == 1 && Overwriter(fields, 1, 2) == 2
    ensures ReceivedField(fields, vs, parts, 0) == VInt(|parts[1]|) && ReceivedField(fields, vs, parts, 1) == vs[1]
  {
  }

  lemma LengthAndText(cx: Formats, n: nat, text: seq<byte>)
    requires n < U64_LIMIT && 8 + |text| < U64_LIMIT && cx.utf8(text)
    ensures var parts := [U64(n), Frame(text)];
      && DecodeFields(cx, [TUsize, TString], FramesOf(parts)) == Some([VInt(n), VString(text)])
      && Inners(2, FramesOf(parts)) == parts
  {
    PowersOf256();
    LeRoundTrip(n, 8);
    UnframeFrame(text, []);
    assert Frame(text) + [] == Frame(text);
    FramesDecode(cx, [TUsize, TString], [U64(n), Frame(text)], [VInt(n), VString(text)]);
  }

  lemma LengthClashes(fields: seq<Field>)
    requires fields == [Field("len_x", TUsize, false, false), Field("x", TString, false, false)]
    ensures DistinctNames(NamedBody(fields)) && DecodeCompiles(NamedBody(fields))
    ensures Overwriter(fields, 0, 1) == 1 && Overwriter(fields, 1, 2) == 2
    ensures BodyTypes(NamedBody(fields)) == [TUsize, TString]
  {
    assert "len_x"[0] != "x"[0] && "len_x" == "len_" + "x";
  }
}
