/** What the serializing code of a list of fields does, whatever its bindings are called. */
module DeriveWrites {
  import opened Bytes
  import opened Codec
  import opened Derive
  import opened DeriveRuns

  predicate SafeDst(plans: seq<Plan>) {
    forall i :: 0 <= i < |plans| ==> plans[i].dst != "buffer" && plans[i].dst != "ctx"
  }

  function AfterWrite(env: Env, p: Plan, enc: seq<byte>, written: seq<byte>): Env {
    MoveOut(env, p.from)[p.dst := Owned(enc)]["buffer" := Owned(written + Frame(enc))]
  }

  /** One field; `None` when its code does not compile. */
  function NextWrite(cx: Formats, p: Plan, self: seq<Slot>, env: Env): Option<Env> {
    var source := AsValue(Read(p.from, self, env), p.ty);
    if !Holds(env, "ctx", Context) || source.None? || !HasType(cx, p.ty, source.value) || !OnWire(source.value) then None
    else if p.from == Binding("buffer") || "buffer" !in env || !env["buffer"].Owned? then None
    else Some(AfterWrite(env, p, Encode(cx, p.ty, source.value), env["buffer"].bytes))
  }

  /** A list of fields, one whole field at a time. */
  function WriteFields(cx: Formats, plans: seq<Plan>, self: seq<Slot>, env: Env): Outcome<Env> {
    if plans == [] then Done(env)
    else
      var next := NextWrite(cx, plans[0], self, env);
      if next.None? then Stuck else WriteFields(cx, plans[1..], self, next.value)
  }

  lemma RunWriteOne(cx: Formats, p: Plan, self: seq<Slot>, env: Env)
    requires p.dst != "buffer"
    ensures var next := NextWrite(cx, p, self, env);
      Run(cx, SerializeCode(p.ty, p.from, p.dst), self, env) == if next.None? then Stuck else Done(next.value)
  {
    var code := SerializeCode(p.ty, p.from, p.dst);
    var e1 := Exec(cx, code[0], self, env);
    if e1.Done? {
      RunExtend(cx, p, self, env, e1.result);
    }
  }

  lemma RunExtend(cx: Formats, p: Plan, self: seq<Slot>, env: Env, e1: Env)
    requires p.dst != "buffer"
    requires Exec(cx, Immaterialize(p.dst, p.ty, p.from), self, env) == Done(e1)
    ensures var next := NextWrite(cx, p, self, env);
      Run(cx, SerializeCode(p.ty, p.from, p.dst), self, env) == if next.None? then Stuck else Done(next.value)
  {
    var code := SerializeCode(p.ty, p.from, p.dst);
    if p.from != Binding("buffer") && "buffer" in env && env["buffer"].Owned? {
      RunBothExtends(cx, code, p.dst, self, env, e1, env["buffer"].bytes, e1[p.dst].bytes);
    } else {
      assert code[1..][0] == ExtendLength(p.dst);
      assert Exec(cx, code[1..][0], self, e1) == Stuck;
    }
  }

  lemma RunBothExtends(cx: Formats, code: seq<Stmt>, dst: Ident, self: seq<Slot>, env: Env, e1: Env,
                       written: seq<byte>, enc: seq<byte>)
    requires |code| == 3 && code[1] == ExtendLength(dst) && code[2] == ExtendBytes(dst) && dst != "buffer"
    requires Exec(cx, code[0], self, env) == Done(e1)
    requires Holds(e1, "buffer", Owned(written)) && Holds(e1, dst, Owned(enc))
    ensures Run(cx, code, self, env) == Done(e1["buffer" := Owned(written + Frame(enc))])
  {
    var e2 := e1["buffer" := Owned(written + U64(|enc|))];
    var e3 := e2["buffer" := Owned(written + U64(|enc|) + enc)];
    assert Exec(cx, code[1], self, e1) == Done(e2);
    assert Exec(cx, code[2], self, e2) == Done(e3);
    ThreeSteps(cx, code, self, env, e1, e2, e3);
    assert written + U64(|enc|) + enc == written + Frame(enc);
    assert e3 == e1["buffer" := Owned(written + Frame(enc))];
  }

  /** The generated statements do what writing whole fields does. */
  lemma {:induction false} CodeWritesFields(cx: Formats, plans: seq<Plan>, self: seq<Slot>, env: Env)
    requires SafeDst(plans)
    ensures Run(cx, SerCode(plans), self, env) == WriteFields(cx, plans, self, env)
    decreases |plans|
  {
    if plans != [] {
      var p := plans[0];
      SafeDstLater(plans);
      RunWriteOne(cx, p, self, env);
      RunAppend(cx, SerializeCode(p.ty, p.from, p.dst), SerCode(plans[1..]), self, env);
      var next := NextWrite(cx, p, self, env);
      if next.Some? {
        CodeWritesFields(cx, plans[1..], self, next.value);
      }
    }
  }

  lemma SafeDstLater(plans: seq<Plan>)
    requires plans != [] && SafeDst(plans)
    ensures plans[0].dst != "buffer" && plans[0].dst != "ctx" && SafeDst(plans[1..])
  {
    assert forall i :: 0 <= i < |plans[1..]| ==> plans[1..][i] == plans[i + 1];
  }

  // ------------------------------------------------------------------------------------------------
  // What each field is read from

  /** The last of the first `i` fields whose encoding took over the source of field `k`. */
  function Shadower(plans: seq<Plan>, k: nat, i: nat): (r: Option<nat>)
    requires i <= k < |plans|
    ensures r.Some? ==> r.value < i && plans[k].from == Binding(plans[r.value].dst)
    ensures r.None? ==> forall j :: 0 <= j < i ==> plans[k].from != Binding(plans[j].dst)
  {
    if i == 0 then None
    else if plans[k].from == Binding(plans[i - 1].dst) then Some(i - 1)
    else Shadower(plans, k, i - 1)
  }

  /** Field `k` is read from the output buffer, or from an earlier encoding although it is no byte vector. */
  predicate Bad(plans: seq<Plan>, k: nat)
    requires k < |plans|
  {
    plans[k].from == Binding("buffer") || (Shadower(plans, k, k).Some? && !plans[k].ty.TBytes?)
  }

  /** The values the code serializes for the first `k` fields: an earlier field's encoding in place of a shadowed one. */
  function Seen(cx: Formats, plans: seq<Plan>, vs: seq<Val>, k: nat): (seen: seq<Val>)
    requires k <= |plans| == |vs|
    ensures |seen| == k
  {
    if k == 0 then []
    else
      var before := Seen(cx, plans, vs, k - 1);
      var i := Shadower(plans, k - 1, k - 1);
      before + [if i.None? then vs[k - 1] else VBytes(EncodeOr(cx, plans[i.value].ty, before[i.value]))]
  }

  lemma {:induction false} SeenAt(cx: Formats, plans: seq<Plan>, vs: seq<Val>, n: nat, k: nat)
    requires k < n <= |plans| == |vs|
    ensures Shadower(plans, k, k).None? ==> Seen(cx, plans, vs, n)[k] == vs[k]
    ensures Shadower(plans, k, k).Some? ==>
      var i := Shadower(plans, k, k).value;
      Seen(cx, plans, vs, n)[k] == VBytes(EncodeOr(cx, plans[i].ty, Seen(cx, plans, vs, n)[i]))
    decreases n
  {
    if k < n - 1 {
      SeenAt(cx, plans, vs, n - 1, k);
    }
  }

  lemma SeenTyped(cx: Formats, plans: seq<Plan>, vs: seq<Val>)
    requires EachTyped(cx, Types(plans), vs) && forall k :: 0 <= k < |plans| ==> !Bad(plans, k)
    ensures EachTyped(cx, Types(plans), Seen(cx, plans, vs, |plans|))
  {
    var seen := Seen(cx, plans, vs, |plans|);
    forall k | 0 <= k < |plans| ensures HasType(cx, Types(plans)[k], seen[k]) && OnWire(seen[k]) {
      assert !Bad(plans, k);
      SeenAt(cx, plans, vs, |plans|, k);
    }
  }

  // ------------------------------------------------------------------------------------------------
  // Midway

  /** What the source of field `j` holds once the first `k` fields are written. */
  function SourceAt(cx: Formats, plans: seq<Plan>, vs: seq<Val>, seen: seq<Val>, k: nat, j: nat): Slot
    requires k <= j < |plans| == |vs| == |seen|
  {
    var i := Shadower(plans, j, k);
    if i.None? then Value(plans[j].ty, vs[j]) else Owned(EncodeOr(cx, plans[i.value].ty, seen[i.value]))
  }

  ghost predicate Midway(cx: Formats, plans: seq<Plan>, vs: seq<Val>, seen: seq<Val>, self: seq<Slot>, env: Env, k: nat,
                         written: seq<byte>)
    requires k <= |plans| == |vs| == |seen|
  {
    && Holds(env, "ctx", Context) && Holds(env, "buffer", Owned(written))
    && forall j {:trigger plans[j]} :: k <= j < |plans| && plans[j].from != Binding("buffer") ==>
         Read(plans[j].from, self, env) == SourceAt(cx, plans, vs, seen, k, j)
  }

  predicate Apart(plans: seq<Plan>) {
    && (forall i, j :: 0 <= i < j < |plans| ==> plans[i].from != plans[j].from)
    && (forall i :: 0 <= i < |plans| ==> plans[i].from != Binding("ctx"))
  }

  lemma NextGood(cx: Formats, plans: seq<Plan>, vs: seq<Val>, seen: seq<Val>, self: seq<Slot>, env: Env, k: nat,
                 written: seq<byte>)
    requires k < |plans| == |vs| && EachTyped(cx, Types(plans), vs) && seen == Seen(cx, plans, vs, |plans|)
    requires Midway(cx, plans, vs, seen, self, env, k, written) && !Bad(plans, k)
    ensures NextWrite(cx, plans[k], self, env)
         == Some(AfterWrite(env, plans[k], EncodeOr(cx, plans[k].ty, seen[k]), written))
  {
    assert plans[k].from != Binding("buffer");
    assert HasType(cx, Types(plans)[k], vs[k]);
    SeenAt(cx, plans, vs, |plans|, k);
  }

  lemma NextBad(cx: Formats, plans: seq<Plan>, vs: seq<Val>, seen: seq<Val>, self: seq<Slot>, env: Env, k: nat,
                written: seq<byte>)
    requires k < |plans| == |vs| == |seen|
    requires Midway(cx, plans, vs, seen, self, env, k, written) && Bad(plans, k)
    ensures NextWrite(cx, plans[k], self, env) == None
  {
    if plans[k].from != Binding("buffer") {
      assert Read(plans[k].from, self, env) == SourceAt(cx, plans, vs, seen, k, k);
    }
  }

  lemma MidwayStep(cx: Formats, plans: seq<Plan>, vs: seq<Val>, seen: seq<Val>, self: seq<Slot>, env: Env, k: nat,
                   written: seq<byte>)
    requires k < |plans| == |vs| == |seen| && SafeDst(plans) && Apart(plans)
    requires Midway(cx, plans, vs, seen, self, env, k, written)
    ensures var enc := EncodeOr(cx, plans[k].ty, seen[k]);
      Midway(cx, plans, vs, seen, self, AfterWrite(env, plans[k], enc, written), k + 1, written + Frame(enc))
  {
    var env1 := AfterWrite(env, plans[k], EncodeOr(cx, plans[k].ty, seen[k]), written);
    forall j {:trigger plans[j]} | k + 1 <= j < |plans| && plans[j].from != Binding("buffer")
      ensures Read(plans[j].from, self, env1) == SourceAt(cx, plans, vs, seen, k + 1, j)
    {
      assert plans[k].from != plans[j].from;
      assert Read(plans[j].from, self, env) == SourceAt(cx, plans, vs, seen, k, j);
    }
  }

  /** From midway on: the code does not compile if a bad field is to come, else it appends the frames of what it sees. */
  lemma {:induction false} WriteFrom(cx: Formats, plans: seq<Plan>, vs: seq<Val>, seen: seq<Val>, self: seq<Slot>, env: Env,
                                     k: nat, written: seq<byte>, r: Outcome<Env>)
    requires k <= |plans| == |vs| && EachTyped(cx, Types(plans), vs) && seen == Seen(cx, plans, vs, |plans|)
    requires SafeDst(plans) && Apart(plans) && Midway(cx, plans, vs, seen, self, env, k, written)
    requires r == WriteFields(cx, plans[k..], self, env)
    ensures (exists j :: k <= j < |plans| && Bad(plans, j)) ==> r == Stuck
    ensures (forall j :: k <= j < |plans| ==> !Bad(plans, j)) ==>
      r.Done? && Holds(r.result, "buffer", Owned(written + FramesOf(EncodeAll(cx, Types(plans), seen)[k..])))
    decreases |plans| - k
  {
    var parts := EncodeAll(cx, Types(plans), seen);
    if k == |plans| {
      assert written + FramesOf(parts[k..]) == written;
    } else {
      assert plans[k..][0] == plans[k] && plans[k..][1..] == plans[k + 1..];
      if Bad(plans, k) {
        NextBad(cx, plans, vs, seen, self, env, k, written);
      } else {
        NextGood(cx, plans, vs, seen, self, env, k, written);
        MidwayStep(cx, plans, vs, seen, self, env, k, written);
        var env1 := AfterWrite(env, plans[k], parts[k], written);
        WriteFrom(cx, plans, vs, seen, self, env1, k + 1, written + Frame(parts[k]), r);
        MoreFrames(written, parts, k);
      }
    }
  }

  lemma MoreFrames(written: seq<byte>, parts: seq<seq<byte>>, k: nat)
    requires k < |parts|
    ensures written + FramesOf(parts[k..]) == written + Frame(parts[k]) + FramesOf(parts[k + 1..])
  {
    assert parts[k..][0] == parts[k] && parts[k..][1..] == parts[k + 1..];
  }

  /** The whole list. */
  lemma WritesWhatItSees(cx: Formats, plans: seq<Plan>, vs: seq<Val>, self: seq<Slot>, env: Env)
    requires FieldsHaveType(cx, Types(plans), vs) && AllOnWire(vs) && SafeDst(plans) && Apart(plans)
    requires Holds(env, "ctx", Context) && Holds(env, "buffer", Owned([]))
    requires |plans| == |vs|
    requires forall j {:trigger plans[j]} :: 0 <= j < |plans| && plans[j].from != Binding("buffer") ==>
      Read(plans[j].from, self, env) == Value(plans[j].ty, vs[j])
    ensures (exists j :: 0 <= j < |plans| && Bad(plans, j)) ==> Run(cx, SerCode(plans), self, env) == Stuck
    ensures (forall j :: 0 <= j < |plans| ==> !Bad(plans, j)) ==>
      var seen := Seen(cx, plans, vs, |plans|);
      && FieldsHaveType(cx, Types(plans), seen) && AllOnWire(seen)
      && BufferOf(Run(cx, SerCode(plans), self, env)) == Done(EncodeFields(cx, Types(plans), seen))
  {
    var seen := Seen(cx, plans, vs, |plans|);
    TypedEach(cx, Types(plans), vs);
    CodeWritesFields(cx, plans, self, env);
    assert plans[0..] == plans;
    WriteFrom(cx, plans, vs, seen, self, env, 0, [], WriteFields(cx, plans, self, env));
    if forall j :: 0 <= j < |plans| ==> !Bad(plans, j) {
      SeenTyped(cx, plans, vs);
      TypedEach(cx, Types(plans), seen);
      EncodedFrames(cx, Types(plans), seen);
      var parts := EncodeAll(cx, Types(plans), seen);
      assert parts[0..] == parts && [] + FramesOf(parts) == FramesOf(parts);
    }
  }
}
