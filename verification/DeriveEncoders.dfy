/** The encoders the macro derives: structs, whose fields are read from `self`, and enum variants, whose fields are bound
    by the pattern of a match arm and can be taken over by the bindings of the generated code. */
module DeriveEncoders {
  import opened Bytes
  import opened Codec
  import opened Derive
  import opened DeriveRuns
  import opened DeriveWrites
  import opened DeriveTheorems

  /** Struct encoders read `self.field` and cannot be disturbed. */
  lemma StructEncodeCorrect(cx: Formats, body: Body, vs: seq<Val>)
    requires BodyCodes(body, true, "data", "offset").Ok?
    requires FieldsHaveType(cx, BodyTypes(body), vs) && AllOnWire(vs)
    ensures |vs| == |BodyTypes(body)|
    ensures RunStructEncode(cx, BodyTypes(body), BodyCodes(body, true, "data", "offset").value, vs)
         == Done(EncodeFields(cx, BodyTypes(body), vs))
  {
    var plans := BodyPlans(body, true);
    ArityMatches(cx, BodyTypes(body), vs);
    BodyCodesArePlans(body, true, "data", "offset");
    PlansClear(body, true, "data", "offset");
    SelfSources(body);
    assert "ctx" != "buffer" by { assert "ctx"[0] != "buffer"[0]; }
    assert forall i {:trigger plans[i]} :: 0 <= i < |plans| ==> plans[i].ty == BodyTypes(body)[i];
    WritesWhatItSees(cx, plans, vs, Slots(BodyTypes(body), vs), map["ctx" := Context, "buffer" := Owned([])]);
    SeenUndisturbed(cx, plans, vs);
  }

  lemma SelfSources(body: Body)
    ensures var plans := BodyPlans(body, true);
      && Apart(plans) && (forall i {:trigger plans[i]} :: 0 <= i < |plans| ==> plans[i].from == SelfField(i))
      && (forall i :: 0 <= i < |plans| ==> !Bad(plans, i) && Shadower(plans, i, i).None?)
  {
    var plans := BodyPlans(body, true);
    assert forall i {:trigger plans[i]} :: 0 <= i < |plans| ==> plans[i].from == SelfField(i);
  }

  /** Where nothing is taken over, the fields themselves are serialized. */
  lemma SeenUndisturbed(cx: Formats, plans: seq<Plan>, vs: seq<Val>)
    requires |plans| == |vs| && forall i :: 0 <= i < |plans| ==> Shadower(plans, i, i).None?
    ensures Seen(cx, plans, vs, |plans|) == vs
  {
    forall k | 0 <= k < |plans| ensures Seen(cx, plans, vs, |plans|)[k] == vs[k] {
      SeenAt(cx, plans, vs, |plans|, k);
    }
  }

  // ------------------------------------------------------------------------------------------------
  // Match arms

  /** A named variant's fields keep clear of `buffer`, `ctx` and `field_bytes_` plus an earlier field's name. */
  predicate EncodeNamesOk(body: Body) {
    body.NamedBody? ==>
      && (forall i :: 0 <= i < |body.fields| ==> body.fields[i].name != "buffer" && body.fields[i].name != "ctx")
      && (forall i, j :: 0 <= i < j < |body.fields| ==> !TakesOver(body.fields[i].name, body.fields[j].name))
  }

  /** The encoding of the field `earlier` is bound under the name of the field `later`. */
  predicate TakesOver(earlier: Ident, later: Ident) {
    later == "field_bytes_" + earlier
  }

  /** The one clash rustc accepts: a `Vec<u8>` field named `field_bytes_x` behind a field `x`, whose encoding is a
      `Vec<u8>` too. `buffer` is used after it was moved, and `ctx` is no context. */
  predicate EncodeCompiles(body: Body) {
    body.NamedBody? ==>
      && (forall i :: 0 <= i < |body.fields| ==> body.fields[i].name != "buffer" && body.fields[i].name != "ctx")
      && (forall i, j :: 0 <= i < j < |body.fields| && TakesOver(body.fields[i].name, body.fields[j].name)
           ==> body.fields[j].ty.TBytes?)
  }

  lemma {:induction false} BindKeeps(env: Env, binders: seq<Ident>, types: seq<Ty>, vs: seq<Val>, x: Ident)
    requires |binders| == |types| == |vs| && x !in binders
    ensures x in Bind(env, binders, types, vs) <==> x in env
    ensures x in env ==> Bind(env, binders, types, vs)[x] == env[x]
    decreases |binders|
  {
    if binders != [] {
      BindKeeps(env[binders[0] := Value(types[0], vs[0])], binders[1..], types[1..], vs[1..], x);
    }
  }

  lemma {:induction false} BindAt(env: Env, binders: seq<Ident>, types: seq<Ty>, vs: seq<Val>, k: nat)
    requires |binders| == |types| == |vs| && k < |binders|
    requires forall i, j :: 0 <= i < j < |binders| ==> binders[i] != binders[j]
    ensures Holds(Bind(env, binders, types, vs), binders[k], Value(types[k], vs[k]))
    decreases |binders|
  {
    var env1 := env[binders[0] := Value(types[0], vs[0])];
    if k == 0 {
      BindKeeps(env1, binders[1..], types[1..], vs[1..], binders[0]);
    } else {
      BindAt(env1, binders[1..], types[1..], vs[1..], k - 1);
    }
  }

  lemma BindersDiffer(body: Body)
    requires DistinctNames(body)
    ensures |Binders(body)| == |BodyTypes(body)| == |BodyPlans(body, false)|
    ensures forall i, j :: 0 <= i < j < |Binders(body)| ==> Binders(body)[i] != Binders(body)[j]
    ensures var ps := BodyPlans(body, false);
      forall i :: 0 <= i < |ps| ==> ps[i].from == Binding(Binders(body)[i]) && ps[i].ty == BodyTypes(body)[i]
  {
    if body.TupleBody? {
      forall i, j | 0 <= i < j < |Binders(body)| ensures Binders(body)[i] != Binders(body)[j] {
        TupleBinders(i, j);
      }
    }
  }

  /** The environment an arm's field code starts in. */
  function ArmEnv(body: Body, vs: seq<Val>): Env
    requires |Binders(body)| == |BodyTypes(body)| == |vs|
  {
    Bind(map["ctx" := Context, "buffer" := Owned([])], Binders(body), BodyTypes(body), vs)["buffer" := Owned([])]
  }

  lemma ArmSources(body: Body, vs: seq<Val>, k: nat)
    requires DistinctNames(body) && k < |BodyTypes(body)| == |vs|
    ensures |Binders(body)| == |BodyTypes(body)| == |BodyPlans(body, false)|
    ensures Binders(body)[k] != "buffer" ==>
      Read(BodyPlans(body, false)[k].from, [], ArmEnv(body, vs)) == Value(BodyTypes(body)[k], vs[k])
  {
    BindersDiffer(body);
    BindAt(map["ctx" := Context, "buffer" := Owned([])], Binders(body), BodyTypes(body), vs, k);
  }

  lemma ArmContext(body: Body, vs: seq<Val>)
    requires DistinctNames(body) && |BodyTypes(body)| == |vs|
    ensures |Binders(body)| == |BodyTypes(body)|
    ensures "ctx" in ArmEnv(body, vs) && (ArmEnv(body, vs)["ctx"] == Context <==> "ctx" !in Binders(body))
  {
    BindersDiffer(body);
    var env: Env := map["ctx" := Context, "buffer" := Owned([])];
    assert "ctx" != "buffer" by { assert "ctx"[0] != "buffer"[0]; }
    if "ctx" in Binders(body) {
      var k :| 0 <= k < |Binders(body)| && Binders(body)[k] == "ctx";
      BindAt(env, Binders(body), BodyTypes(body), vs, k);
    } else {
      BindKeeps(env, Binders(body), BodyTypes(body), vs, "ctx");
    }
  }

  lemma NoContextBinder(body: Body)
    requires !body.NamedBody?
    ensures "ctx" !in Binders(body) && "buffer" !in Binders(body)
  {
    if body.TupleBody? {
      forall k | 0 <= k < |Binders(body)| ensures Binders(body)[k] != "ctx" && Binders(body)[k] != "buffer" {
        TupleBinders(k, k);
      }
    }
  }

  /** The numbered scheme takes nothing over. */
  lemma TupleUndisturbed(body: Body, k: nat)
    requires !body.NamedBody? && k < |BodyPlans(body, false)|
    ensures !Bad(BodyPlans(body, false), k) && Shadower(BodyPlans(body, false), k, k).None?
  {
    var plans := BodyPlans(body, false);
    TupleBinders(k, k);
    forall i | 0 <= i < k ensures plans[k].from != Binding(plans[i].dst) {
      TupleBinders(k, i);
    }
  }

  /** In the named scheme it is the names that decide. */
  lemma NamedShadower(body: Body, k: nat)
    requires body.NamedBody? && k < |body.fields|
    ensures var i := Shadower(BodyPlans(body, false), k, k);
      && (i.Some? <==> exists j :: 0 <= j < k && TakesOver(body.fields[j].name, body.fields[k].name))
      && (i.Some? ==> TakesOver(body.fields[i.value].name, body.fields[k].name))
  {
    var plans := BodyPlans(body, false);
    assert forall j :: 0 <= j < k ==>
      (plans[k].from == Binding(plans[j].dst) <==> TakesOver(body.fields[j].name, body.fields[k].name));
  }

  lemma CompilesMeansNoneBad(body: Body)
    requires "ctx" !in Binders(body)
    ensures EncodeCompiles(body) <==> forall k :: 0 <= k < |BodyPlans(body, false)| ==> !Bad(BodyPlans(body, false), k)
  {
    var plans := BodyPlans(body, false);
    if body.NamedBody? {
      assert forall i :: 0 <= i < |body.fields| ==> Binders(body)[i] == body.fields[i].name;
      forall k | 0 <= k < |plans|
        ensures Bad(plans, k) <==>
          (body.fields[k].name == "buffer"
           || (exists j :: 0 <= j < k && TakesOver(body.fields[j].name, body.fields[k].name) && !body.fields[k].ty.TBytes?))
      {
        NamedShadower(body, k);
      }
    } else {
      forall k | 0 <= k < |plans| ensures !Bad(plans, k) {
        TupleUndisturbed(body, k);
      }
    }
  }

  lemma ArmApart(body: Body)
    requires DistinctNames(body) && "ctx" !in Binders(body)
    ensures Apart(BodyPlans(body, false))
  {
    BindersDiffer(body);
  }

  lemma ArmRuns(cx: Formats, body: Body, name: seq<byte>, vs: seq<Val>)
    requires BodyCodes(body, false, "payload_data", "payload_offset").Ok? && DistinctNames(body)
    requires FieldsHaveType(cx, BodyTypes(body), vs)
    ensures |Binders(body)| == |BodyTypes(body)| == |BodyPlans(body, false)| == |vs|
    ensures ArmResult(cx, body, name, vs)
         == BufferOf(Run(cx, SerCode(BodyPlans(body, false)), [], ArmEnv(body, vs)))
  {
    ArityMatches(cx, BodyTypes(body), vs);
    BindersDiffer(body);
    BodyCodesArePlans(body, false, "payload_data", "payload_offset");
  }

  /** What the arm of the variant returns. */
  function ArmResult(cx: Formats, body: Body, name: seq<byte>, vs: seq<Val>): Outcome<seq<byte>>
    requires BodyCodes(body, false, "payload_data", "payload_offset").Ok?
  {
    var codes := BodyCodes(body, false, "payload_data", "payload_offset").value;
    if |Binders(body)| == |BodyTypes(body)| == |vs|
    then RunArmEncode(cx, Arm(name, Binders(body), BodyTypes(body), codes), vs)
    else Stuck
  }

  lemma ContextLost(cx: Formats, body: Body, vs: seq<Val>)
    requires DistinctNames(body) && |BodyTypes(body)| == |vs| && "ctx" in Binders(body)
    ensures |Binders(body)| == |BodyTypes(body)|
    ensures Run(cx, SerCode(BodyPlans(body, false)), [], ArmEnv(body, vs)) == Stuck
    ensures !EncodeCompiles(body) && !EncodeNamesOk(body)
  {
    ArmContext(body, vs);
    if !body.NamedBody? {
      NoContextBinder(body);
    } else {
      var plans := BodyPlans(body, false);
      var k :| 0 <= k < |Binders(body)| && Binders(body)[k] == "ctx";
      assert body.fields[k].name == "ctx";
      assert SerCode(plans)[0] == Immaterialize(plans[0].dst, plans[0].ty, plans[0].from);
      assert Exec(cx, SerCode(plans)[0], [], ArmEnv(body, vs)) == Stuck;
    }
  }

  /** The arm of a variant, whatever its fields are called: its code does not compile, or it writes the encoding of what
      it sees, which is an earlier field's encoding in place of a byte vector named after it. */
  lemma ArmEncodeExactly(cx: Formats, body: Body, name: seq<byte>, vs: seq<Val>)
    requires BodyCodes(body, false, "payload_data", "payload_offset").Ok? && DistinctNames(body)
    requires FieldsHaveType(cx, BodyTypes(body), vs) && AllOnWire(vs)
    ensures |BodyPlans(body, false)| == |vs|
    ensures !EncodeCompiles(body) ==> ArmResult(cx, body, name, vs) == Stuck
    ensures EncodeCompiles(body) ==>
      var seen := Seen(cx, BodyPlans(body, false), vs, |vs|);
      && FieldsHaveType(cx, BodyTypes(body), seen) && AllOnWire(seen)
      && ArmResult(cx, body, name, vs) == Done(EncodeFields(cx, BodyTypes(body), seen))
  {
    ArmRuns(cx, body, name, vs);
    if "ctx" in Binders(body) {
      ContextLost(cx, body, vs);
    } else {
      var plans := BodyPlans(body, false);
      ArmContext(body, vs);
      ArmApart(body);
      PlansClear(body, false, "payload_data", "payload_offset");
      BodyCodesArePlans(body, false, "payload_data", "payload_offset");
      forall j {:trigger plans[j]} | 0 <= j < |plans| && plans[j].from != Binding("buffer")
        ensures Read(plans[j].from, [], ArmEnv(body, vs)) == Value(plans[j].ty, vs[j])
      {
        BindersDiffer(body);
        ArmSources(body, vs, j);
      }
      WritesWhatItSees(cx, plans, vs, [], ArmEnv(body, vs));
      CompilesMeansNoneBad(body);
    }
  }

  ghost predicate EncodesRight(cx: Formats, body: Body, name: seq<byte>, vs: seq<Val>)
    requires BodyCodes(body, false, "payload_data", "payload_offset").Ok?
  {
    FieldsHaveType(cx, BodyTypes(body), vs) && AllOnWire(vs) ==>
      ArmResult(cx, body, name, vs) == Done(EncodeFields(cx, BodyTypes(body), vs))
  }

  /** With the names in order, it writes the encoding of the fields. */
  lemma ArmEncodeCorrect(cx: Formats, body: Body, name: seq<byte>, vs: seq<Val>)
    requires BodyCodes(body, false, "payload_data", "payload_offset").Ok? && DistinctNames(body) && EncodeNamesOk(body)
    ensures EncodesRight(cx, body, name, vs)
  {
    if FieldsHaveType(cx, BodyTypes(body), vs) && AllOnWire(vs) {
      var plans := BodyPlans(body, false);
      ArmEncodeExactly(cx, body, name, vs);
      forall k | 0 <= k < |plans| ensures Shadower(plans, k, k).None? {
        if body.NamedBody? { NamedShadower(body, k); } else { TupleUndisturbed(body, k); }
      }
      SeenUndisturbed(cx, plans, vs);
    }
  }

  /** The generated arm is right on all values exactly when the names are in order, for every variant that has a value at
      all. */
  lemma EncoderRightIff(cx: Formats, body: Body, name: seq<byte>, sample: seq<Val>)
    requires BodyCodes(body, false, "payload_data", "payload_offset").Ok? && DistinctNames(body)
    requires FieldsHaveType(cx, BodyTypes(body), sample) && AllOnWire(sample)
    ensures (forall vs :: EncodesRight(cx, body, name, vs)) <==> EncodeNamesOk(body)
  {
    if EncodeNamesOk(body) {
      forall vs ensures EncodesRight(cx, body, name, vs) {
        ArmEncodeCorrect(cx, body, name, vs);
      }
    } else if !EncodeCompiles(body) {
      ArmEncodeExactly(cx, body, name, sample);
      assert !EncodesRight(cx, body, name, sample);
    } else {
      var vs := WrongValue(cx, body, name, sample);
      assert !EncodesRight(cx, body, name, vs);
    }
  }

  /** The first field that is taken over. */
  lemma FirstTaken(body: Body) returns (k: nat)
    requires EncodeCompiles(body) && !EncodeNamesOk(body)
    ensures body.NamedBody? && k < |body.fields| && body.fields[k].ty.TBytes?
    ensures var plans := BodyPlans(body, false);
      Shadower(plans, k, k).Some? && forall j :: 0 <= j < k ==> Shadower(plans, j, j).None?
  {
    var i0, k0 :| 0 <= i0 < k0 < |body.fields| && TakesOver(body.fields[i0].name, body.fields[k0].name);
    NamedShadower(body, k0);
    k := FirstOf(BodyPlans(body, false), k0);
    NamedShadower(body, k);
  }

  lemma FirstOf(plans: seq<Plan>, k0: nat) returns (k: nat)
    requires k0 < |plans| && Shadower(plans, k0, k0).Some?
    ensures k <= k0 && Shadower(plans, k, k).Some? && forall j :: 0 <= j < k ==> Shadower(plans, j, j).None?
    decreases k0
  {
    if j :| 0 <= j < k0 && Shadower(plans, j, j).Some? {
      k := FirstOf(plans, j);
    } else {
      k := k0;
    }
  }

  /** Another byte vector in the field that is taken over, of a length that shows. */
  lemma WrongValue(cx: Formats, body: Body, name: seq<byte>, sample: seq<Val>) returns (vs: seq<Val>)
    requires BodyCodes(body, false, "payload_data", "payload_offset").Ok? && DistinctNames(body)
    requires FieldsHaveType(cx, BodyTypes(body), sample) && AllOnWire(sample)
    requires EncodeCompiles(body) && !EncodeNamesOk(body)
    ensures !EncodesRight(cx, body, name, vs)
  {
    var plans, ts := BodyPlans(body, false), BodyTypes(body);
    ArityMatches(cx, ts, sample);
    BodyCodesArePlans(body, false, "payload_data", "payload_offset");
    var k := FirstTaken(body);
    var i := Shadower(plans, k, k).value;
    var s := EncodeOr(cx, plans[i].ty, sample[i]);
    var b := OtherLength(s);
    vs := sample[k := VBytes(b)];
    OtherBytes(cx, ts, sample, k, b);
    SeenDiffers(cx, plans, sample, vs, k);
    WrongBytes(cx, body, name, vs, k, b, s);
  }

  lemma OtherBytes(cx: Formats, ts: seq<Ty>, sample: seq<Val>, k: nat, b: seq<byte>)
    requires FieldsHaveType(cx, ts, sample) && AllOnWire(sample) && k < |ts| == |sample| && ts[k].TBytes?
    ensures FieldsHaveType(cx, ts, sample[k := VBytes(b)]) && AllOnWire(sample[k := VBytes(b)])
  {
    TypedEach(cx, ts, sample);
    TypedEach(cx, ts, sample[k := VBytes(b)]);
  }

  lemma WrongBytes(cx: Formats, body: Body, name: seq<byte>, vs: seq<Val>, k: nat, b: seq<byte>, s: seq<byte>)
    requires BodyCodes(body, false, "payload_data", "payload_offset").Ok? && DistinctNames(body) && EncodeCompiles(body)
    requires FieldsHaveType(cx, BodyTypes(body), vs) && AllOnWire(vs)
    requires k < |vs| == |BodyPlans(body, false)| == |BodyTypes(body)| && BodyTypes(body)[k].TBytes?
    requires var seen := Seen(cx, BodyPlans(body, false), vs, |vs|);
      (forall j :: 0 <= j < k ==> seen[j] == vs[j]) && vs[k] == VBytes(b) && seen[k] == VBytes(s)
    requires U64(|Frame(b)|) != U64(|Frame(s)|)
    ensures !EncodesRight(cx, body, name, vs)
  {
    ArmEncodeExactly(cx, body, name, vs);
    BytesDiffer(cx, BodyTypes(body), vs, Seen(cx, BodyPlans(body, false), vs, |vs|), k, b, s);
  }

  lemma BytesDiffer(cx: Formats, ts: seq<Ty>, vs: seq<Val>, seen: seq<Val>, k: nat, b: seq<byte>, s: seq<byte>)
    requires FieldsHaveType(cx, ts, vs) && AllOnWire(vs) && FieldsHaveType(cx, ts, seen) && AllOnWire(seen)
    requires k < |ts| == |vs| == |seen| && forall j :: 0 <= j < k ==> seen[j] == vs[j]
    requires ts[k].TBytes? && vs[k] == VBytes(b) && seen[k] == VBytes(s) && U64(|Frame(b)|) != U64(|Frame(s)|)
    ensures EncodeFields(cx, ts, vs) != EncodeFields(cx, ts, seen)
  {
    EncodedFrames(cx, ts, vs);
    EncodedFrames(cx, ts, seen);
    FramesDiffer(EncodeAll(cx, ts, vs), EncodeAll(cx, ts, seen), k);
  }

  lemma OtherLength(s: seq<byte>) returns (b: seq<byte>)
    ensures U64(|Frame(b)|) != U64(|Frame(s)|)
  {
    PowersOf256();
    LeRoundTrip(8, 8);
    LeRoundTrip(9, 8);
    b := if U64(|Frame(s)|) == U64(8) then [0] else [];
  }

  lemma SeenDiffers(cx: Formats, plans: seq<Plan>, sample: seq<Val>, vs: seq<Val>, k: nat)
    requires k < |plans| == |sample| == |vs| && Shadower(plans, k, k).Some?
    requires vs == sample[k := vs[k]] && forall j :: 0 <= j < k ==> Shadower(plans, j, j).None?
    ensures var seen, i := Seen(cx, plans, vs, |plans|), Shadower(plans, k, k).value;
      && (forall j :: 0 <= j < k ==> seen[j] == vs[j])
      && seen[k] == VBytes(EncodeOr(cx, plans[i].ty, sample[i]))
  {
    forall j | 0 <= j < k ensures Seen(cx, plans, vs, |plans|)[j] == vs[j] {
      SeenAt(cx, plans, vs, |plans|, j);
    }
    SeenAt(cx, plans, vs, |plans|, k);
  }

  lemma {:induction false} FramesDiffer(a: seq<seq<byte>>, b: seq<seq<byte>>, k: nat)
    requires k < |a| == |b| && U64(|a[k]|) != U64(|b[k]|) && forall j :: 0 <= j < k ==> a[j] == b[j]
    ensures FramesOf(a) != FramesOf(b)
    decreases k
  {
    if k == 0 {
      assert FramesOf(a)[..8] == U64(|a[0]|) && FramesOf(b)[..8] == U64(|b[0]|);
    } else {
      assert a[1..][k - 1] == a[k] && b[1..][k - 1] == b[k];
      FramesDiffer(a[1..], b[1..], k - 1);
      var n := |Frame(a[0])|;
      assert FramesOf(a)[n..] == FramesOf(a[1..]) && FramesOf(b)[n..] == FramesOf(b[1..]);
    }
  }

  /** `enum E { V { x: u8, field_bytes_x: Vec<u8> } }`: whatever bytes the second field holds, the encoder compiles and
      writes the encoding of `x` in their place. */
  lemma EncodingTakesOver(cx: Formats, name: seq<byte>, n: byte, b: seq<byte>)
    ensures var body := NamedBody([Field("x", TInt(1, false), false, false),
                                   Field("field_bytes_x", TBytes, false, false)]);
      && BodyCodes(body, false, "payload_data", "payload_offset").Ok?
      && FieldsHaveType(cx, BodyTypes(body), [VInt(n), VBytes([n])]) && AllOnWire([VInt(n), VBytes([n])])
      && ArmResult(cx, body, name, [VInt(n), VBytes(b)])
         == Done(EncodeFields(cx, BodyTypes(body), [VInt(n), VBytes([n])]))
  {
    var fields := [Field("x", TInt(1, false), false, false), Field("field_bytes_x", TBytes, false, false)];
    var body := NamedBody(fields);
    BodyCodesArePlans(body, false, "payload_data", "payload_offset");
    EncodingClashes(fields);
    ByteAndBytes(cx, n, b);
    ByteAndBytes(cx, n, [n]);
    ArmEncodeExactly(cx, body, name, [VInt(n), VBytes(b)]);
    EncodingSeen(cx, BodyPlans(body, false), n, b);
  }

  lemma EncodingSeen(cx: Formats, plans: seq<Plan>, n: byte, b: seq<byte>)
    requires |plans| == 2 && plans[0].ty == TInt(1, false)
    requires Shadower(plans, 0, 0) == None && Shadower(plans, 1, 1) == Some(0)
    requires EncodeOr(cx, TInt(1, false), VInt(n)) == [n]
    ensures Seen(cx, plans, [VInt(n), VBytes(b)], 2) == [VInt(n), VBytes([n])]
  {
    SeenAt(cx, plans, [VInt(n), VBytes(b)], 2, 0);
    SeenAt(cx, plans, [VInt(n), VBytes(b)], 2, 1);
  }

  lemma ByteAndBytes(cx: Formats, n: byte, b: seq<byte>)
    ensures FieldsHaveType(cx, [TInt(1, false), TBytes], [VInt(n), VBytes(b)]) && AllOnWire([VInt(n), VBytes(b)])
    ensures EncodeOr(cx, TInt(1, false), VInt(n)) == [n]
  {
    PowersOf256();
    TypedEach(cx, [TInt(1, false), TBytes], [VInt(n), VBytes(b)]);
    assert Le(n, 1) == [n % 256] + Le(n / 256, 0);
  }

  lemma EncodingClashes(fields: seq<Field>)
    requires fields == [Field("x", TInt(1, false), false, false), Field("field_bytes_x", TBytes, false, false)]
    ensures DistinctNames(NamedBody(fields)) && EncodeCompiles(NamedBody(fields))
    ensures BodyTypes(NamedBody(fields)) == [TInt(1, false), TBytes]
    ensures var plans := BodyPlans(NamedBody(fields), false);
      |plans| == 2 && plans[0].ty == TInt(1, false) && Shadower(plans, 0, 0) == None && Shadower(plans, 1, 1) == Some(0)
  {
    assert "field_bytes_x"[0] == 'f' && "x"[0] == 'x' && "buffer"[0] == 'b' && "ctx"[0] == 'c';
    assert "field_bytes_" + "x" == "field_bytes_x";
    var plans := BodyPlans(NamedBody(fields), false);
    assert plans[1].from == Binding(plans[0].dst);
  }
}
