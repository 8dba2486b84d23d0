/** What the deserializing code of a list of fields does, whatever its bindings are called. */
module DeriveReads {
  import opened Bytes
  import opened Codec
  import opened Derive
  import opened DeriveRuns

  /** The names one field introduces keep clear of each other and of the loop variables. */
  predicate ClearNames(n: Names, data: Ident, offset: Ident) {
    && n.length != n.bytes && n.length != n.value && n.bytes != n.value
    && n.length !in {data, offset, "ctx"} && n.bytes !in {data, offset, "ctx"} && n.value !in {data, offset, "ctx"}
  }

  predicate AllClear(plans: seq<Plan>, data: Ident, offset: Ident) {
    forall i :: 0 <= i < |plans| ==> ClearNames(plans[i].names, data, offset)
  }

  /** The state after decoding one field. */
  function AfterField(env: Env, p: Plan, offset: Ident, at: nat, inner: seq<byte>, v: Val): Env {
    env[p.names.length := Number(|inner|)][p.names.bytes := Slice(inner)]
       [offset := Number(at + 8 + |inner|)][p.names.value := Value(p.ty, v)]
  }

  lemma RunDeserializeOne(cx: Formats, p: Plan, data: Ident, offset: Ident, input: seq<byte>, at: nat, env: Env)
    requires ClearNames(p.names, data, offset) && data != offset && at <= |input|
    requires Holds(env, "ctx", Context) && data != "ctx" && offset != "ctx"
    requires Holds(env, data, Slice(input)) && Holds(env, offset, Number(at))
    ensures var s := Unframe(input[at..]);
      Run(cx, DeserializeCode(p.ty, p.names, data, offset), [], env)
      == if s.None? || Decode(cx, p.ty, s.value.inner).None? then Failed
         else Done(AfterField(env, p, offset, at, s.value.inner, Decode(cx, p.ty, s.value.inner).value))
  {
    RunPastHeader(cx, p, data, offset, input, at, env);
    if at + 8 <= |input| {
      var len := FromU64(input[at..at + 8]);
      RunAtBody(cx, p, data, offset, input, at, len, env);
      OneFrame(cx, p, offset, input, at, len, env);
    } else {
      UnframeAt(input, at);
    }
  }

  /** What reading the block of `len` bytes behind a header leaves. */
  function AfterBlock(cx: Formats, p: Plan, offset: Ident, input: seq<byte>, at: nat, len: nat, env: Env): Outcome<Env> {
    if |input| < at + 8 + len then Failed
    else
      var inner := input[at + 8..at + 8 + len];
      var r := Decode(cx, p.ty, inner);
      if r.None? then Failed else Done(AfterField(env, p, offset, at, inner, r.value))
  }

  lemma OneFrame(cx: Formats, p: Plan, offset: Ident, input: seq<byte>, at: nat, len: nat, env: Env)
    requires at + 8 <= |input| && len == FromU64(input[at..at + 8])
    ensures var s := Unframe(input[at..]);
      AfterBlock(cx, p, offset, input, at, len, env)
      == if s.None? || Decode(cx, p.ty, s.value.inner).None? then Failed
         else Done(AfterField(env, p, offset, at, s.value.inner, Decode(cx, p.ty, s.value.inner).value))
  {
    UnframeAt(input, at);
  }

  lemma RunAtBody(cx: Formats, p: Plan, data: Ident, offset: Ident, input: seq<byte>, at: nat, len: nat, env: Env)
    requires ClearNames(p.names, data, offset) && data != offset && at + 8 <= |input|
    requires Holds(env, "ctx", Context) && data != "ctx" && offset != "ctx" && Holds(env, data, Slice(input))
    ensures Run(cx, DeserializeCode(p.ty, p.names, data, offset)[3..], [],
                env[p.names.length := Number(len)][offset := Number(at + 8)])
         == AfterBlock(cx, p, offset, input, at, len, env)
  {
    RunBody(cx, p, data, offset, input, at + 8, len, env[p.names.length := Number(len)][offset := Number(at + 8)]);
    if at + 8 + len <= |input| && Decode(cx, p.ty, input[at + 8..at + 8 + len]).Some? {
      SameEnv(env, p, data, offset, at, input[at + 8..at + 8 + len], Decode(cx, p.ty, input[at + 8..at + 8 + len]).value);
    }
  }

  lemma SameEnv(env: Env, p: Plan, data: Ident, offset: Ident, at: nat, inner: seq<byte>, v: Val)
    requires ClearNames(p.names, data, offset)
    ensures AfterField(env, p, offset, at, inner, v)
         == env[p.names.length := Number(|inner|)][offset := Number(at + 8)][p.names.bytes := Slice(inner)]
               [offset := Number(at + 8 + |inner|)][p.names.value := Value(p.ty, v)]
  {
  }

  /** Size check, length, `offset += 8`. */
  lemma RunHeader(cx: Formats, p: Plan, data: Ident, offset: Ident, input: seq<byte>, at: nat, env: Env)
    requires ClearNames(p.names, data, offset) && data != offset && at <= |input|
    requires Holds(env, data, Slice(input)) && Holds(env, offset, Number(at))
    ensures Run(cx, DeserializeCode(p.ty, p.names, data, offset)[..3], [], env)
         == if |input| < at + 8 then Failed
            else Done(env[p.names.length := Number(FromU64(input[at..at + 8]))][offset := Number(at + 8)])
  {
    var code := DeserializeCode(p.ty, p.names, data, offset)[..3];
    if at + 8 <= |input| {
      var e1 := env[p.names.length := Number(FromU64(input[at..at + 8]))];
      HeaderSteps(cx, p.names.length, data, offset, input, at, env);
      ThreeSteps(cx, code, [], env, env, e1, e1[offset := Number(at + 8)]);
    } else {
      assert Exec(cx, code[0], [], env) == Failed;
    }
  }

  lemma HeaderSteps(cx: Formats, length: Ident, data: Ident, offset: Ident, input: seq<byte>, at: nat, env: Env)
    requires at + 8 <= |input| && Holds(env, data, Slice(input)) && Holds(env, offset, Number(at)) && length != offset
    ensures var e1 := env[length := Number(FromU64(input[at..at + 8]))];
      && Exec(cx, NeedHeader(data, offset), [], env) == Done(env)
      && Exec(cx, LetLength(length, data, offset), [], env) == Done(e1)
      && Exec(cx, AdvanceHeader(offset), [], e1) == Done(e1[offset := Number(at + 8)])
  {
  }

  lemma RunPastHeader(cx: Formats, p: Plan, data: Ident, offset: Ident, input: seq<byte>, at: nat, env: Env)
    requires ClearNames(p.names, data, offset) && data != offset && at <= |input|
    requires Holds(env, data, Slice(input)) && Holds(env, offset, Number(at))
    ensures var code := DeserializeCode(p.ty, p.names, data, offset);
      Run(cx, code, [], env)
      == if |input| < at + 8 then Failed
         else Run(cx, code[3..], [], env[p.names.length := Number(FromU64(input[at..at + 8]))][offset := Number(at + 8)])
  {
    var code := DeserializeCode(p.ty, p.names, data, offset);
    assert code == code[..3] + code[3..];
    RunAppend(cx, code[..3], code[3..], [], env);
    RunHeader(cx, p, data, offset, input, at, env);
  }

  /** Size check, slice, `offset += len`, the field's own decoder. */
  lemma RunBody(cx: Formats, p: Plan, data: Ident, offset: Ident, input: seq<byte>, at: nat, len: nat, env: Env)
    requires ClearNames(p.names, data, offset) && data != offset && at <= |input|
    requires Holds(env, "ctx", Context) && data != "ctx" && offset != "ctx"
    requires Holds(env, data, Slice(input)) && Holds(env, offset, Number(at)) && Holds(env, p.names.length, Number(len))
    ensures Run(cx, DeserializeCode(p.ty, p.names, data, offset)[3..], [], env)
         == if |input| < at + len then Failed
            else
              var inner := input[at..at + len];
              var r := Decode(cx, p.ty, inner);
              if r.None? then Failed
              else Done(env[p.names.bytes := Slice(inner)][offset := Number(at + len)]
                           [p.names.value := Value(p.ty, r.value)])
  {
    var code := DeserializeCode(p.ty, p.names, data, offset)[3..];
    if at + len <= |input| {
      assert code == code[..3] + [code[3]];
      RunAppend(cx, code[..3], [code[3]], [], env);
      RunToDecoder(cx, p, data, offset, input, at, len, env);
      OneStep(cx, code[3], [], env[p.names.bytes := Slice(input[at..at + len])][offset := Number(at + len)]);
    } else {
      assert Exec(cx, code[0], [], env) == Failed;
    }
  }

  lemma RunToDecoder(cx: Formats, p: Plan, data: Ident, offset: Ident, input: seq<byte>, at: nat, len: nat, env: Env)
    requires ClearNames(p.names, data, offset) && data != offset && at + len <= |input|
    requires Holds(env, data, Slice(input)) && Holds(env, offset, Number(at)) && Holds(env, p.names.length, Number(len))
    ensures Run(cx, DeserializeCode(p.ty, p.names, data, offset)[3..][..3], [], env)
         == Done(env[p.names.bytes := Slice(input[at..at + len])][offset := Number(at + len)])
  {
    var code := DeserializeCode(p.ty, p.names, data, offset)[3..];
    var e1 := env[p.names.bytes := Slice(input[at..at + len])];
    var e2 := e1[offset := Number(at + len)];
    assert Exec(cx, code[0], [], env) == Done(env);
    assert Exec(cx, code[1], [], env) == Done(e1);
    assert Exec(cx, code[2], [], e1) == Done(e2);
    ThreeSteps(cx, code[..3], [], env, env, e1, e2);
  }

  /** Reads one frame per type and leaves the rest. */
  function ReadFields(cx: Formats, ts: seq<Ty>, data: seq<byte>): Option<(seq<Val>, seq<byte>)> {
    if ts == [] then Some(([], data))
    else
      var s := Unframe(data);
      if s.None? then None
      else
        var v := Decode(cx, ts[0], s.value.inner);
        var more := ReadFields(cx, ts[1..], s.value.rest);
        if v.None? || more.None? then None else Some(([v.value] + more.value.0, more.value.1))
  }

  lemma {:induction false} ReadThenEmpty(cx: Formats, ts: seq<Ty>, data: seq<byte>)
    ensures DecodeFields(cx, ts, data)
         == var r := ReadFields(cx, ts, data); if r.Some? && r.value.1 == [] then Some(r.value.0) else None
    ensures var r := ReadFields(cx, ts, data);
      r.Some? ==> |r.value.0| == |ts| && |r.value.1| <= |data| && r.value.1 == data[|data| - |r.value.1|..]
    decreases |ts|
  {
    if ts != [] {
      var s := Unframe(data);
      if s.Some? {
        ReadThenEmpty(cx, ts[1..], s.value.rest);
      }
    }
  }

  predicate Introduces(n: Names, x: Ident) {
    x == n.length || x == n.bytes || x == n.value
  }

  /** Field `j` is the last one whose code writes `x`. */
  predicate LastWriter(plans: seq<Plan>, j: nat, x: Ident)
    requires j < |plans|
  {
    Introduces(plans[j].names, x) && forall k :: j < k < |plans| ==> !Introduces(plans[k].names, x)
  }

  /** What a field's code leaves in a binding it writes. */
  function Wrote(p: Plan, x: Ident, inner: seq<byte>, v: Val): Slot {
    if x == p.names.value then Value(p.ty, v) else if x == p.names.bytes then Slice(inner) else Number(|inner|)
  }

  /** What the deserializing code of a list of fields does, clash or not: each binding holds what its last writer put
      there. */
  ghost predicate DecodedTo(plans: seq<Plan>, data: Ident, offset: Ident, input: seq<byte>, env: Env,
                            read: Option<(seq<Val>, seq<byte>)>, inners: seq<seq<byte>>, r: Outcome<Env>)
  {
    if read.None? then r == Failed
    else
      && |read.value.1| <= |input| && |plans| == |read.value.0| == |inners|
      && r.Done? && Holds(r.result, data, Slice(input)) && Holds(r.result, offset, Number(|input| - |read.value.1|))
      && (forall x :: x in env && x != offset && (forall i :: 0 <= i < |plans| ==> !Introduces(plans[i].names, x))
           ==> x in r.result && r.result[x] == env[x])
      && (forall j, x :: 0 <= j < |plans| && LastWriter(plans, j, x)
           ==> Holds(r.result, x, Wrote(plans[j], x, inners[j], read.value.0[j])))
  }

  /** The first frame, decoded. */
  function FirstField(cx: Formats, ty: Ty, data: seq<byte>): Option<(seq<byte>, Val)> {
    var s := Unframe(data);
    if s.None? || Decode(cx, ty, s.value.inner).None? then None
    else Some((s.value.inner, Decode(cx, ty, s.value.inner).value))
  }

  /** Where the code stands after its first field. */
  datatype Step = Step(env: Env, at: nat, rest: seq<byte>, inner: seq<byte>, v: Val)

  function NextStep(cx: Formats, p: Plan, offset: Ident, rest: seq<byte>, at: nat, env: Env): Option<Step> {
    var first := FirstField(cx, p.ty, rest);
    if first.None? then None
    else
      var (inner, v) := first.value;
      Some(Step(AfterField(env, p, offset, at, inner, v), at + 8 + |inner|, Unframe(rest).value.rest, inner, v))
  }

  /** A list of fields, one whole field at a time, on what is left of the input. */
  function RunFields(cx: Formats, plans: seq<Plan>, offset: Ident, rest: seq<byte>, at: nat, env: Env): Outcome<Env> {
    if plans == [] then Done(env)
    else
      var next := NextStep(cx, plans[0], offset, rest, at, env);
      if next.None? then Failed
      else RunFields(cx, plans[1..], offset, next.value.rest, next.value.at, next.value.env)
  }

  predicate AtField(env: Env, data: Ident, offset: Ident, input: seq<byte>, at: nat) {
    && data != offset && data != "ctx" && offset != "ctx" && at <= |input|
    && Holds(env, "ctx", Context) && Holds(env, data, Slice(input)) && Holds(env, offset, Number(at))
  }

  lemma AllClearLater(plans: seq<Plan>, data: Ident, offset: Ident)
    requires plans != [] && AllClear(plans, data, offset)
    ensures ClearNames(plans[0].names, data, offset) && AllClear(plans[1..], data, offset)
  {
    assert forall i :: 0 <= i < |plans[1..]| ==> plans[1..][i] == plans[i + 1];
  }

  /** The first field is decoded, then the others run behind it. */
  lemma RunFirstRead(cx: Formats, plans: seq<Plan>, data: Ident, offset: Ident, input: seq<byte>, at: nat, env: Env)
    requires plans != [] && ClearNames(plans[0].names, data, offset) && AtField(env, data, offset, input, at)
    ensures var next := NextStep(cx, plans[0], offset, input[at..], at, env);
      Run(cx, DeCode(plans, data, offset), [], env)
      == if next.None? then Failed else Run(cx, DeCode(plans[1..], data, offset), [], next.value.env)
  {
    var p := plans[0];
    RunDeserializeOne(cx, p, data, offset, input, at, env);
    RunAppend(cx, DeserializeCode(p.ty, p.names, data, offset), DeCode(plans[1..], data, offset), [], env);
  }

  lemma NextField(cx: Formats, p: Plan, data: Ident, offset: Ident, input: seq<byte>, at: nat, env: Env)
    requires ClearNames(p.names, data, offset) && AtField(env, data, offset, input, at)
    ensures var next := NextStep(cx, p, offset, input[at..], at, env);
      next.Some? ==>
        && AtField(next.value.env, data, offset, input, next.value.at)
        && next.value.rest == input[next.value.at..]
        && next.value.env == AfterField(env, p, offset, at, next.value.inner, next.value.v)
  {
    UnframeAt(input, at);
  }

  /** The generated statements do what running whole fields does. */
  lemma {:induction false} CodeRunsFields(cx: Formats, plans: seq<Plan>, data: Ident, offset: Ident, input: seq<byte>,
                                          at: nat, env: Env)
    requires AllClear(plans, data, offset) && AtField(env, data, offset, input, at)
    ensures Run(cx, DeCode(plans, data, offset), [], env) == RunFields(cx, plans, offset, input[at..], at, env)
    decreases |plans|
  {
    if plans != [] {
      AllClearLater(plans, data, offset);
      RunFirstRead(cx, plans, data, offset, input, at, env);
      NextField(cx, plans[0], data, offset, input, at, env);
      var next := NextStep(cx, plans[0], offset, input[at..], at, env);
      if next.Some? {
        CodeRunsFields(cx, plans[1..], data, offset, input, next.value.at, next.value.env);
      }
    }
  }

  lemma ReadFirst(cx: Formats, plans: seq<Plan>, offset: Ident, data: seq<byte>, at: nat, env: Env)
    requires plans != []
    ensures var next := NextStep(cx, plans[0], offset, data, at, env);
      ReadFields(cx, Types(plans), data)
      == if next.None? then None else ReadMore(next.value.v, ReadFields(cx, Types(plans[1..]), next.value.rest))
  {
    assert Types(plans)[1..] == Types(plans[1..]);
  }

  function ReadMore(v: Val, more: Option<(seq<Val>, seq<byte>)>): Option<(seq<Val>, seq<byte>)> {
    if more.None? then None else Some(([v] + more.value.0, more.value.1))
  }

  /** What the code of a list of fields does is what reading one frame per field gives. */
  lemma {:induction false} RunDeserialize(cx: Formats, plans: seq<Plan>, data: Ident, offset: Ident, input: seq<byte>,
                                          at: nat, env: Env, read: Option<(seq<Val>, seq<byte>)>, r: Outcome<Env>)
    requires AllClear(plans, data, offset) && AtField(env, data, offset, input, at)
    requires read == ReadFields(cx, Types(plans), input[at..]) && r == RunFields(cx, plans, offset, input[at..], at, env)
    ensures DecodedTo(plans, data, offset, input, env, read, Inners(|plans|, input[at..]), r)
    decreases |plans|
  {
    if plans == [] {
      DecodedNone(plans, data, offset, input, at, env);
    } else {
      var next := NextStep(cx, plans[0], offset, input[at..], at, env);
      ReadFirst(cx, plans, offset, input[at..], at, env);
      if next.Some? {
        AllClearLater(plans, data, offset);
        NextField(cx, plans[0], data, offset, input, at, env);
        var more := ReadFields(cx, Types(plans[1..]), next.value.rest);
        RunDeserialize(cx, plans[1..], data, offset, input, next.value.at, next.value.env, more, r);
        DecodedFirst(cx, plans, data, offset, input, at, env, next.value, more, r);
      }
    }
  }

  lemma DecodedFirst(cx: Formats, plans: seq<Plan>, data: Ident, offset: Ident, input: seq<byte>, at: nat, env: Env,
                     step: Step, more: Option<(seq<Val>, seq<byte>)>, r: Outcome<Env>)
    requires plans != [] && AllClear(plans, data, offset) && AtField(env, data, offset, input, at)
    requires NextStep(cx, plans[0], offset, input[at..], at, env) == Some(step)
    requires step.at <= |input| && step.rest == input[step.at..]
    requires DecodedTo(plans[1..], data, offset, input, step.env, more, Inners(|plans[1..]|, input[step.at..]), r)
    ensures DecodedTo(plans, data, offset, input, env, ReadMore(step.v, more), Inners(|plans|, input[at..]), r)
  {
    InnersFirst(cx, plans, offset, input[at..], at, env);
    DecodedCons(plans, data, offset, input, env, at, step, more, Inners(|plans[1..]|, input[step.at..]), r);
  }

  lemma DecodedNone(plans: seq<Plan>, data: Ident, offset: Ident, input: seq<byte>, at: nat, env: Env)
    requires plans == [] && AtField(env, data, offset, input, at)
    ensures DecodedTo(plans, data, offset, input, env, Some(([], input[at..])), [], Done(env))
  {
  }

  lemma InnersFirst(cx: Formats, plans: seq<Plan>, offset: Ident, data: seq<byte>, at: nat, env: Env)
    requires plans != [] && NextStep(cx, plans[0], offset, data, at, env).Some?
    ensures var step := NextStep(cx, plans[0], offset, data, at, env).value;
      Inners(|plans|, data) == [step.inner] + Inners(|plans| - 1, step.rest)
  {
  }

  lemma DecodedCons(plans: seq<Plan>, data: Ident, offset: Ident, input: seq<byte>, env: Env, at: nat, next: Step,
                    read: Option<(seq<Val>, seq<byte>)>, inners: seq<seq<byte>>, r: Outcome<Env>)
    requires plans != [] && AllClear(plans, data, offset)
    requires next.env == AfterField(env, plans[0], offset, at, next.inner, next.v)
    requires DecodedTo(plans[1..], data, offset, input, next.env, read, inners, r)
    ensures DecodedTo(plans, data, offset, input, env, ReadMore(next.v, read), [next.inner] + inners, r)
  {
    if read.Some? {
      forall x | x in env && x != offset && forall i :: 0 <= i < |plans| ==> !Introduces(plans[i].names, x)
        ensures x in r.result && r.result[x] == env[x]
      {
        KeptBehindFirst(plans, offset, env, at, next, x);
      }
      forall j, x | 0 <= j < |plans| && LastWriter(plans, j, x)
        ensures Holds(r.result, x, Wrote(plans[j], x, ([next.inner] + inners)[j], ([next.v] + read.value.0)[j]))
      {
        if j > 0 {
          LastLater(plans, j, x);
        } else {
          AllClearLater(plans, data, offset);
          WrittenFirst(plans, data, offset, env, at, next, x);
        }
      }
    }
  }

  /** A binding no field writes is still there behind the first field, for the others to leave alone. */
  lemma KeptBehindFirst(plans: seq<Plan>, offset: Ident, env: Env, at: nat, next: Step, x: Ident)
    requires plans != [] && next.env == AfterField(env, plans[0], offset, at, next.inner, next.v)
    requires x in env && x != offset && forall i :: 0 <= i < |plans| ==> !Introduces(plans[i].names, x)
    ensures x in next.env && next.env[x] == env[x]
    ensures forall i :: 0 <= i < |plans[1..]| ==> !Introduces(plans[1..][i].names, x)
  {
    assert !Introduces(plans[0].names, x);
    NotLater(plans, x);
  }

  lemma WrittenFirst(plans: seq<Plan>, data: Ident, offset: Ident, env: Env, at: nat, next: Step, x: Ident)
    requires plans != [] && LastWriter(plans, 0, x) && ClearNames(plans[0].names, data, offset)
    requires next.env == AfterField(env, plans[0], offset, at, next.inner, next.v)
    ensures x != offset && Holds(next.env, x, Wrote(plans[0], x, next.inner, next.v))
    ensures forall i :: 0 <= i < |plans[1..]| ==> !Introduces(plans[1..][i].names, x)
  {
    NotLater(plans, x);
  }

  lemma NotLater(plans: seq<Plan>, x: Ident)
    requires plans != [] && forall k :: 0 < k < |plans| ==> !Introduces(plans[k].names, x)
    ensures forall i :: 0 <= i < |plans[1..]| ==> !Introduces(plans[1..][i].names, x)
  {
    assert forall i :: 0 <= i < |plans[1..]| ==> plans[1..][i] == plans[i + 1];
  }

  lemma LastLater(plans: seq<Plan>, j: nat, x: Ident)
    requires 0 < j < |plans| && LastWriter(plans, j, x)
    ensures plans[1..][j - 1] == plans[j] && LastWriter(plans[1..], j - 1, x)
  {
    assert forall i :: 0 <= i < |plans[1..]| ==> plans[1..][i] == plans[i + 1];
  }
}
