/** The straight-line programs of the derive macro as lists of fields, and lists of frames as byte strings. */
module DeriveRuns {
  import opened Bytes
  import opened Codec
  import opened Derive

  /** One field of a generated implementation, whichever naming scheme produced it. */
  datatype Plan = Plan(ty: Ty, from: Access, dst: Ident, names: Names)

  function SerCode(plans: seq<Plan>): seq<Stmt> {
    if plans == [] then [] else SerializeCode(plans[0].ty, plans[0].from, plans[0].dst) + SerCode(plans[1..])
  }

  function DeCode(plans: seq<Plan>, data: Ident, offset: Ident): seq<Stmt> {
    if plans == [] then []
    else DeserializeCode(plans[0].ty, plans[0].names, data, offset) + DeCode(plans[1..], data, offset)
  }

  function Types(plans: seq<Plan>): (ts: seq<Ty>)
    ensures |ts| == |plans|
  {
    seq(|plans|, i requires 0 <= i < |plans| => plans[i].ty)
  }

  function ValueNames(plans: seq<Plan>): (ns: seq<Ident>)
    ensures |ns| == |plans|
  {
    seq(|plans|, i requires 0 <= i < |plans| => plans[i].names.value)
  }

  lemma {:induction false} RunAppend(cx: Formats, a: seq<Stmt>, b: seq<Stmt>, self: seq<Slot>, env: Env)
    ensures Run(cx, a + b, self, env)
         == var r := Run(cx, a, self, env); if r.Done? then Run(cx, b, self, r.result) else r
    decreases |a|
  {
    if a == [] {
      assert a + b == b;
    } else {
      assert (a + b)[0] == a[0] && (a + b)[1..] == a[1..] + b;
      var r := Exec(cx, a[0], self, env);
      if r.Done? {
        RunAppend(cx, a[1..], b, self, r.result);
      }
    }
  }

  lemma ThreeSteps(cx: Formats, code: seq<Stmt>, self: seq<Slot>, e0: Env, e1: Env, e2: Env, e3: Env)
    requires |code| == 3
    requires Exec(cx, code[0], self, e0) == Done(e1) && Exec(cx, code[1], self, e1) == Done(e2)
    requires Exec(cx, code[2], self, e2) == Done(e3)
    ensures Run(cx, code, self, e0) == Done(e3)
  {
    assert code[1..][0] == code[1] && code[1..][1..][0] == code[2];
    assert code[1..][1..][1..] == [];
    assert Run(cx, code[1..][1..], self, e2) == Done(e3);
    assert Run(cx, code[1..], self, e1) == Done(e3);
  }

  lemma OneStep(cx: Formats, s: Stmt, self: seq<Slot>, env: Env)
    ensures Run(cx, [s], self, env) == Exec(cx, s, self, env)
  {
    assert [s][1..] == [];
  }

  // ------------------------------------------------------------------------------------------------
  // Frames

  /** One frame per part. */
  function FramesOf(parts: seq<seq<byte>>): seq<byte> {
    if parts == [] then [] else Frame(parts[0]) + FramesOf(parts[1..])
  }

  /** The contents of the first `n` frames, as far as there are any. */
  function Inners(n: nat, data: seq<byte>): seq<seq<byte>> {
    if n == 0 || Unframe(data).None? then []
    else [Unframe(data).value.inner] + Inners(n - 1, Unframe(data).value.rest)
  }

  function EncodeOr(cx: Formats, ty: Ty, v: Val): seq<byte> {
    if HasType(cx, ty, v) && OnWire(v) then Encode(cx, ty, v) else []
  }

  function EncodeAll(cx: Formats, ts: seq<Ty>, vs: seq<Val>): (parts: seq<seq<byte>>)
    requires |ts| == |vs|
    ensures |parts| == |ts|
    ensures forall i :: 0 <= i < |ts| ==> parts[i] == EncodeOr(cx, ts[i], vs[i])
  {
    seq(|ts|, i requires 0 <= i < |ts| => EncodeOr(cx, ts[i], vs[i]))
  }

  /** Well-typed fields, one by one. */
  predicate EachTyped(cx: Formats, ts: seq<Ty>, vs: seq<Val>) {
    |ts| == |vs| && forall i :: 0 <= i < |ts| ==> HasType(cx, ts[i], vs[i]) && OnWire(vs[i])
  }

  lemma {:induction false} TypedEach(cx: Formats, ts: seq<Ty>, vs: seq<Val>)
    ensures FieldsHaveType(cx, ts, vs) && AllOnWire(vs) <==> EachTyped(cx, ts, vs)
    decreases |ts|
  {
    if ts != [] && vs != [] {
      TypedEach(cx, ts[1..], vs[1..]);
      EachTypedCons(cx, ts, vs);
    }
  }

  lemma EachTypedCons(cx: Formats, ts: seq<Ty>, vs: seq<Val>)
    requires ts != [] && vs != []
    ensures EachTyped(cx, ts, vs) <==> HasType(cx, ts[0], vs[0]) && OnWire(vs[0]) && EachTyped(cx, ts[1..], vs[1..])
  {
    if EachTyped(cx, ts, vs) {
      assert forall i :: 0 <= i < |ts[1..]| ==> ts[1..][i] == ts[i + 1] && vs[1..][i] == vs[i + 1];
    }
    if HasType(cx, ts[0], vs[0]) && OnWire(vs[0]) && EachTyped(cx, ts[1..], vs[1..]) {
      forall i | 0 <= i < |ts| ensures HasType(cx, ts[i], vs[i]) && OnWire(vs[i]) {
        if i > 0 { assert ts[i] == ts[1..][i - 1] && vs[i] == vs[1..][i - 1]; }
      }
    }
  }

  lemma {:induction false} EncodedFrames(cx: Formats, ts: seq<Ty>, vs: seq<Val>)
    requires FieldsHaveType(cx, ts, vs) && AllOnWire(vs)
    ensures |ts| == |vs| && EncodeFields(cx, ts, vs) == FramesOf(EncodeAll(cx, ts, vs))
    decreases |ts|
  {
    if ts != [] {
      EncodedFrames(cx, ts[1..], vs[1..]);
      assert EncodeAll(cx, ts, vs)[1..] == EncodeAll(cx, ts[1..], vs[1..]);
    }
  }
}
