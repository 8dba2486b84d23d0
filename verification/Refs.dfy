/** The actor references inside a message: listing them in traversal order, and putting others in their place. */
module Refs {
  import opened Bytes
  import opened Codec

  function Addresses(v: Val): seq<Address>
    decreases v, 0
  {
    match v
    case VSome(x) => Addresses(x)
    case VOk(x) => Addresses(x)
    case VErr(x) => Addresses(x)
    case VVec(vs) => AllAddresses(vs)
    case VRecord(vs) => AllAddresses(vs)
    case VCase(_, vs) => AllAddresses(vs)
    case VRef(a) => [a]
    case VPort(a, _) => [a]
    case _ => []
  }

  function AllAddresses(vs: seq<Val>): seq<Address>
    decreases vs, 0
  {
    if vs == [] then [] else Addresses(vs[0]) + AllAddresses(vs[1..])
  }

  /** The same tree with its references replaced, in traversal order. */
  function Fill(v: Val, subs: seq<Address>): Val
    requires |subs| == |Addresses(v)|
    decreases v, 0
  {
    match v
    case VSome(x) => VSome(Fill(x, subs))
    case VOk(x) => VOk(Fill(x, subs))
    case VErr(x) => VErr(Fill(x, subs))
    case VVec(vs) => VVec(FillAll(vs, subs))
    case VRecord(vs) => VRecord(FillAll(vs, subs))
    case VCase(name, vs) => VCase(name, FillAll(vs, subs))
    case VRef(_) => VRef(subs[0])
    case VPort(_, timeout) => VPort(subs[0], timeout)
    case _ => v
  }

  function FillAll(vs: seq<Val>, subs: seq<Address>): (r: seq<Val>)
    requires |subs| == |AllAddresses(vs)|
    ensures |r| == |vs|
    decreases vs, 0
  {
    if vs == [] then []
    else
      var n := |Addresses(vs[0])|;
      [Fill(vs[0], subs[..n])] + FillAll(vs[1..], subs[n..])
  }

  /** The references of the replaced tree are the replacements, and putting the originals back gives the original: the
      trees differ in their references only. */
  lemma {:induction false} FillRestores(v: Val, subs: seq<Address>)
    requires |subs| == |Addresses(v)|
    ensures Addresses(Fill(v, subs)) == subs
    ensures Fill(Fill(v, subs), Addresses(v)) == v
    decreases v, 0
  {
    match v
    case VSome(x) => FillRestores(x, subs);
    case VOk(x) => FillRestores(x, subs);
    case VErr(x) => FillRestores(x, subs);
    case VVec(vs) => FillAllRestores(vs, subs);
    case VRecord(vs) => FillAllRestores(vs, subs);
    case VCase(_, vs) => FillAllRestores(vs, subs);
    case _ => LeafRestores(v, subs);
  }

  lemma LeafRestores(v: Val, subs: seq<Address>)
    requires |subs| == |Addresses(v)|
    requires !v.VSome? && !v.VOk? && !v.VErr? && !v.VVec? && !v.VRecord? && !v.VCase?
    ensures Addresses(Fill(v, subs)) == subs && Fill(Fill(v, subs), Addresses(v)) == v
  {
    if subs != [] {
      assert subs == [subs[0]];
    }
  }

  lemma {:induction false} FillAllRestores(vs: seq<Val>, subs: seq<Address>)
    requires |subs| == |AllAddresses(vs)|
    ensures AllAddresses(FillAll(vs, subs)) == subs
    ensures FillAll(FillAll(vs, subs), AllAddresses(vs)) == vs
    decreases vs, 0
  {
    if vs != [] {
      var n := |Addresses(vs[0])|;
      FillRestores(vs[0], subs[..n]);
      FillAllRestores(vs[1..], subs[n..]);
      FillBothWays(vs[0], vs[1..], subs[..n], subs[n..]);
      assert subs[..n] + subs[n..] == subs;
      assert [vs[0]] + vs[1..] == vs;
    }
  }

  lemma FillBothWays(head: Val, tail: seq<Val>, a: seq<Address>, b: seq<Address>)
    requires |a| == |Addresses(head)| && |b| == |AllAddresses(tail)|
    requires Addresses(Fill(head, a)) == a && Fill(Fill(head, a), Addresses(head)) == head
    requires AllAddresses(FillAll(tail, b)) == b && FillAll(FillAll(tail, b), AllAddresses(tail)) == tail
    ensures |AllAddresses([head] + tail)| == |a + b|
    ensures AllAddresses(FillAll([head] + tail, a + b)) == a + b
    ensures FillAll(FillAll([head] + tail, a + b), AllAddresses([head] + tail)) == [head] + tail
  {
    FillCons(head, tail, a, b);
    FillCons(Fill(head, a), FillAll(tail, b), Addresses(head), AllAddresses(tail));
  }

  lemma FillCons(head: Val, tail: seq<Val>, a: seq<Address>, b: seq<Address>)
    requires |a| == |Addresses(head)| && |b| == |AllAddresses(tail)|
    ensures AllAddresses([head] + tail) == Addresses(head) + AllAddresses(tail)
    ensures FillAll([head] + tail, a + b) == [Fill(head, a)] + FillAll(tail, b)
  {
    assert ([head] + tail)[1..] == tail;
    assert (a + b)[..|a|] == a && (a + b)[|a|..] == b;
  }

  // ------------------------------------------------------------------------------------------------
  // Reply ports without a timeout of their own

  /** The same tree in which every reply port has a timeout, its own or the default. */
  function WithTimeouts(v: Val, default: nat): Val
    decreases v, 0
  {
    match v
    case VSome(x) => VSome(WithTimeouts(x, default))
    case VOk(x) => VOk(WithTimeouts(x, default))
    case VErr(x) => VErr(WithTimeouts(x, default))
    case VVec(vs) => VVec(AllWithTimeouts(vs, default))
    case VRecord(vs) => VRecord(AllWithTimeouts(vs, default))
    case VCase(name, vs) => VCase(name, AllWithTimeouts(vs, default))
    case VPort(a, timeout) => VPort(a, Some(if timeout.Some? then timeout.value else default))
    case _ => v
  }

  function AllWithTimeouts(vs: seq<Val>, default: nat): (r: seq<Val>)
    ensures |r| == |vs|
    decreases vs, 0
  {
    if vs == [] then [] else [WithTimeouts(vs[0], default)] + AllWithTimeouts(vs[1..], default)
  }

  /** The tree without the timeouts of its reply ports. */
  function Erased(v: Val): Val
    decreases v, 0
  {
    match v
    case VSome(x) => VSome(Erased(x))
    case VOk(x) => VOk(Erased(x))
    case VErr(x) => VErr(Erased(x))
    case VVec(vs) => VVec(AllErased(vs))
    case VRecord(vs) => VRecord(AllErased(vs))
    case VCase(name, vs) => VCase(name, AllErased(vs))
    case VPort(a, _) => VPort(a, None)
    case _ => v
  }

  function AllErased(vs: seq<Val>): (r: seq<Val>)
    ensures |r| == |vs|
    decreases vs, 0
  {
    if vs == [] then [] else [Erased(vs[0])] + AllErased(vs[1..])
  }

  /** The timeouts of the reply ports, in traversal order. */
  function PortTimeouts(v: Val): seq<Option<nat>>
    decreases v, 0
  {
    match v
    case VSome(x) => PortTimeouts(x)
    case VOk(x) => PortTimeouts(x)
    case VErr(x) => PortTimeouts(x)
    case VVec(vs) => AllPortTimeouts(vs)
    case VRecord(vs) => AllPortTimeouts(vs)
    case VCase(_, vs) => AllPortTimeouts(vs)
    case VPort(_, timeout) => [timeout]
    case _ => []
  }

  function AllPortTimeouts(vs: seq<Val>): seq<Option<nat>>
    decreases vs, 0
  {
    if vs == [] then [] else PortTimeouts(vs[0]) + AllPortTimeouts(vs[1..])
  }

  /** A missing timeout is the default, any other stays. */
  predicate FilledIn(own: seq<Option<nat>>, filled: seq<Option<nat>>, default: nat) {
    && |filled| == |own|
    && forall i :: 0 <= i < |own| ==> filled[i] == if own[i].None? then Some(default) else own[i]
  }

  /** Only timeouts change, and only missing ones. */
  lemma {:induction false} OnlyMissingTimeouts(v: Val, default: nat)
    ensures Erased(WithTimeouts(v, default)) == Erased(v)
    ensures FilledIn(PortTimeouts(v), PortTimeouts(WithTimeouts(v, default)), default)
    ensures Addresses(WithTimeouts(v, default)) == Addresses(v)
    decreases v, 0
  {
    match v
    case VSome(x) => OnlyMissingTimeouts(x, default);
    case VOk(x) => OnlyMissingTimeouts(x, default);
    case VErr(x) => OnlyMissingTimeouts(x, default);
    case VVec(vs) => AllOnlyMissingTimeouts(vs, default);
    case VRecord(vs) => AllOnlyMissingTimeouts(vs, default);
    case VCase(_, vs) => AllOnlyMissingTimeouts(vs, default);
    case _ =>
  }

  lemma {:induction false} AllOnlyMissingTimeouts(vs: seq<Val>, default: nat)
    ensures AllErased(AllWithTimeouts(vs, default)) == AllErased(vs)
    ensures FilledIn(AllPortTimeouts(vs), AllPortTimeouts(AllWithTimeouts(vs, default)), default)
    ensures AllAddresses(AllWithTimeouts(vs, default)) == AllAddresses(vs)
    decreases vs, 0
  {
    if vs != [] {
      OnlyMissingTimeouts(vs[0], default);
      AllOnlyMissingTimeouts(vs[1..], default);
      assert AllWithTimeouts(vs, default)[1..] == AllWithTimeouts(vs[1..], default);
      FilledInAppend(PortTimeouts(vs[0]), PortTimeouts(WithTimeouts(vs[0], default)),
                     AllPortTimeouts(vs[1..]), AllPortTimeouts(AllWithTimeouts(vs[1..], default)), default);
    }
  }

  lemma FilledInAppend(a: seq<Option<nat>>, a': seq<Option<nat>>, b: seq<Option<nat>>, b': seq<Option<nat>>, default: nat)
    requires FilledIn(a, a', default) && FilledIn(b, b', default)
    ensures FilledIn(a + b, a' + b', default)
  {
  }

  /** A tree is known when it is known without its timeouts, and they are. */
  lemma {:induction false} TimeoutsDetermine(v: Val, w: Val)
    requires Erased(v) == Erased(w)
    ensures |PortTimeouts(v)| == |PortTimeouts(w)|
    ensures PortTimeouts(v) == PortTimeouts(w) ==> v == w
    decreases v, 0
  {
    match v
    case VSome(x) => TimeoutsDetermine(x, w.v);
    case VOk(x) => TimeoutsDetermine(x, w.v);
    case VErr(x) => TimeoutsDetermine(x, w.v);
    case VVec(vs) => AllTimeoutsDetermine(vs, w.elems);
    case VRecord(vs) => AllTimeoutsDetermine(vs, w.fields);
    case VCase(_, vs) => AllTimeoutsDetermine(vs, w.fields);
    case _ =>
  }

  lemma {:induction false} AllTimeoutsDetermine(vs: seq<Val>, ws: seq<Val>)
    requires AllErased(vs) == AllErased(ws)
    ensures |AllPortTimeouts(vs)| == |AllPortTimeouts(ws)|
    ensures AllPortTimeouts(vs) == AllPortTimeouts(ws) ==> vs == ws
    decreases vs, 0
  {
    assert |vs| == |AllErased(vs)| == |ws|;
    if vs != [] {
      assert AllErased(vs)[1..] == AllErased(vs[1..]) && AllErased(ws)[1..] == AllErased(ws[1..]);
      TimeoutsDetermine(vs[0], ws[0]);
      AllTimeoutsDetermine(vs[1..], ws[1..]);
      if AllPortTimeouts(vs) == AllPortTimeouts(ws) {
        SplitsAlike(PortTimeouts(vs[0]), AllPortTimeouts(vs[1..]), PortTimeouts(ws[0]), AllPortTimeouts(ws[1..]));
        assert vs == [vs[0]] + vs[1..] && ws == [ws[0]] + ws[1..];
      }
    }
  }

  lemma SplitsAlike<T>(a: seq<T>, b: seq<T>, c: seq<T>, d: seq<T>)
    requires |a| == |c| && a + b == c + d
    ensures a == c && b == d
  {
    assert a == (a + b)[..|a|] && b == (a + b)[|a|..];
    assert c == (c + d)[..|a|] && d == (c + d)[|a|..];
  }

  /** Where every port has its own timeout, or there is no port, nothing changes at all. */
  lemma OwnTimeoutsStay(v: Val, default: nat)
    requires forall i :: 0 <= i < |PortTimeouts(v)| ==> PortTimeouts(v)[i].Some?
    ensures WithTimeouts(v, default) == v
  {
    OnlyMissingTimeouts(v, default);
    TimeoutsDetermine(WithTimeouts(v, default), v);
    assert PortTimeouts(WithTimeouts(v, default)) == PortTimeouts(v);
  }

  /** Filling in timeouts changes neither the type nor the references. */
  lemma {:induction false} TimeoutsKeep(cx: Formats, ty: Ty, v: Val, default: nat)
    requires HasType(cx, ty, v)
    ensures HasType(cx, ty, WithTimeouts(v, default)) && Addresses(WithTimeouts(v, default)) == Addresses(v)
    decreases ty, 0, 0
  {
    match ty
    case TVec(e) => ElemTimeoutsKeep(cx, e, v.elems, default);
    case TOption(t) => if v.VSome? { TimeoutsKeep(cx, t, v.v, default); }
    case TResult(t, e) => TimeoutsKeep(cx, if v.VOk? then t else e, v.v, default);
    case TRecord(ts) => FieldTimeoutsKeep(cx, ts, v.fields, default);
    case TEnum(variants) => FieldTimeoutsKeep(cx, variants[FindVariant(variants, v.name)].fields, v.fields, default);
    case _ =>
  }

  lemma {:induction false} ElemTimeoutsKeep(cx: Formats, e: Ty, vs: seq<Val>, default: nat)
    requires ElemsHaveType(cx, e, vs)
    ensures ElemsHaveType(cx, e, AllWithTimeouts(vs, default))
    ensures AllAddresses(AllWithTimeouts(vs, default)) == AllAddresses(vs)
    decreases e, 1, |vs|
  {
    if vs != [] {
      TimeoutsKeep(cx, e, vs[0], default);
      ElemTimeoutsKeep(cx, e, vs[1..], default);
      assert AllWithTimeouts(vs, default)[1..] == AllWithTimeouts(vs[1..], default);
    }
  }

  lemma {:induction false} FieldTimeoutsKeep(cx: Formats, ts: seq<Ty>, vs: seq<Val>, default: nat)
    requires FieldsHaveType(cx, ts, vs)
    ensures FieldsHaveType(cx, ts, AllWithTimeouts(vs, default))
    ensures AllAddresses(AllWithTimeouts(vs, default)) == AllAddresses(vs)
    decreases ts, 0, 0
  {
    if ts != [] {
      TimeoutsKeep(cx, ts[0], vs[0], default);
      FieldTimeoutsKeep(cx, ts[1..], vs[1..], default);
      assert AllWithTimeouts(vs, default)[1..] == AllWithTimeouts(vs[1..], default);
    }
  }

  // ------------------------------------------------------------------------------------------------
  // Onto the wire

  predicate AllRemote(addrs: seq<Address>) {
    forall i :: 0 <= i < |addrs| ==> addrs[i].Remote?
  }

  /** A tree filled with ids from the portal can go on the wire, with the same type. */
  lemma {:induction false} FillGoesOnWire(cx: Formats, ty: Ty, v: Val, subs: seq<Address>)
    requires HasType(cx, ty, v) && |subs| == |Addresses(v)| && AllRemote(subs)
    ensures HasType(cx, ty, Fill(v, subs)) && OnWire(Fill(v, subs))
    decreases ty, 0, 0
  {
    match ty
    case TVec(e) => FillElems(cx, e, v.elems, subs);
    case TOption(t) => if v.VSome? { FillGoesOnWire(cx, t, v.v, subs); }
    case TResult(t, e) => FillGoesOnWire(cx, if v.VOk? then t else e, v.v, subs);
    case TRecord(ts) => FillFields(cx, ts, v.fields, subs);
    case TEnum(variants) => FillFields(cx, variants[FindVariant(variants, v.name)].fields, v.fields, subs);
    case _ =>
  }

  lemma {:induction false} FillElems(cx: Formats, e: Ty, vs: seq<Val>, subs: seq<Address>)
    requires ElemsHaveType(cx, e, vs) && |subs| == |AllAddresses(vs)| && AllRemote(subs)
    ensures ElemsHaveType(cx, e, FillAll(vs, subs)) && AllOnWire(FillAll(vs, subs))
    decreases e, 1, |vs|
  {
    if vs != [] {
      var n := |Addresses(vs[0])|;
      FillGoesOnWire(cx, e, vs[0], subs[..n]);
      FillElems(cx, e, vs[1..], subs[n..]);
      assert FillAll(vs, subs)[1..] == FillAll(vs[1..], subs[n..]);
    }
  }

  lemma {:induction false} FillFields(cx: Formats, ts: seq<Ty>, vs: seq<Val>, subs: seq<Address>)
    requires FieldsHaveType(cx, ts, vs) && |subs| == |AllAddresses(vs)| && AllRemote(subs)
    ensures FieldsHaveType(cx, ts, FillAll(vs, subs)) && AllOnWire(FillAll(vs, subs))
    decreases ts, 0, 0
  {
    if ts != [] {
      var n := |Addresses(vs[0])|;
      FillGoesOnWire(cx, ts[0], vs[0], subs[..n]);
      FillFields(cx, ts[1..], vs[1..], subs[n..]);
      assert FillAll(vs, subs)[1..] == FillAll(vs[1..], subs[n..]);
    }
  }
}
