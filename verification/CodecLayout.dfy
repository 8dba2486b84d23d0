/** The byte format in absolute terms: which byte of an integer is where, which number stands for which case, and that
    every variant of an enum is known by its name. */
module CodecLayout {
  import opened Bytes
  import opened Codec
  import opened CodecTheorems

  // ------------------------------------------------------------------------------------------------
  // Integers

  /** The least significant byte comes first. */
  lemma {:induction false} LittleEndian(n: nat, w: nat, i: nat)
    requires i < w
    ensures Le(n, w)[i] == n / Pow256(i) % 256
    decreases w
  {
    if i > 0 {
      LittleEndian(n / 256, w - 1, i - 1);
      DivTwice(n, Pow256(i - 1));
    }
  }

  /** The two's complement of a number below `m` in absolute value. */
  lemma Complement(n: int, m: nat)
    requires 0 < n + m && n < m
    ensures n % m == if n >= 0 then n else n + m
  {
    DivideUnique(n, m, if n >= 0 then 0 else -1, if n >= 0 then n else n + m);
  }

  lemma FitsItsWidth(w: Width, signed: bool, n: int)
    requires IntFits(w, signed, n)
    ensures 0 < n + Pow256(w) && n < Pow256(w)
  {
  }

  /** Byte `i` of an integer of any width: the digits of the number itself, or of its two's complement if it is negative. */
  lemma IntegerBytes(cx: Formats, w: Width, signed: bool, n: int, i: nat)
    requires IntFits(w, signed, n) && i < w
    ensures var m := if n >= 0 then n else n + Pow256(w);
      m >= 0 && Encode(cx, TInt(w, signed), VInt(n))[i] == m / Pow256(i) % 256
  {
    FitsItsWidth(w, signed, n);
    Complement(n, Pow256(w));
    LittleEndian(n % Pow256(w), w, i);
    assert Encode(cx, TInt(w, signed), VInt(n)) == Le(n % Pow256(w), w);
  }

  // ------------------------------------------------------------------------------------------------
  // Discriminants

  /** The numbers that stand for the cases of the built-in types. */
  lemma BoolDiscriminants(cx: Formats)
    ensures Encode(cx, TBool, VBool(false)) == [0] && Encode(cx, TBool, VBool(true)) == [1]
  {
  }

  lemma OptionDiscriminants(cx: Formats, t: Ty, v: Val)
    requires HasType(cx, t, v) && OnWire(v)
    ensures Encode(cx, TOption(t), VNone) == [0]
    ensures Encode(cx, TOption(t), VSome(v)) == [1] + Frame(Encode(cx, t, v))
  {
  }

  lemma ResultDiscriminants(cx: Formats, t: Ty, e: Ty, v: Val)
    requires OnWire(v)
    ensures HasType(cx, t, v) ==> Encode(cx, TResult(t, e), VOk(v)) == [0] + Frame(Encode(cx, t, v))
    ensures HasType(cx, e, v) ==> Encode(cx, TResult(t, e), VErr(v)) == [1] + Frame(Encode(cx, e, v))
  {
  }

  // ------------------------------------------------------------------------------------------------
  // Variants

  predicate DifferentNames(variants: seq<Variant>) {
    forall i, j :: 0 <= i < j < |variants| ==> variants[i].name != variants[j].name
  }

  /** A name that is there is found, at its first place. */
  lemma {:induction false} VariantFound(variants: seq<Variant>, i: nat)
    requires i < |variants| && forall j :: 0 <= j < i ==> variants[j].name != variants[i].name
    ensures FindVariant(variants, variants[i].name) == i
    decreases |variants|
  {
    if i > 0 {
      assert variants[1..][i - 1] == variants[i];
      VariantFound(variants[1..], i - 1);
    }
  }

  /** A name that is not there is not found. */
  lemma {:induction false} VariantMissing(variants: seq<Variant>, name: seq<byte>)
    requires forall i :: 0 <= i < |variants| ==> variants[i].name != name
    ensures FindVariant(variants, name) == |variants|
    decreases |variants|
  {
    if variants != [] {
      VariantMissing(variants[1..], name);
    }
  }

  /** Every variant of an enum can be built, is written under its name, and is read back. */
  lemma EveryVariantCrosses(cx: Formats, variants: seq<Variant>, i: nat, vs: seq<Val>)
    requires DifferentNames(variants) && i < |variants|
    requires cx.utf8(variants[i].name) && FieldsHaveType(cx, variants[i].fields, vs)
    ensures HasType(cx, TEnum(variants), VCase(variants[i].name, vs))
    ensures AllOnWire(vs) ==>
      var bytes := Frame(variants[i].name) + Frame(EncodeFields(cx, variants[i].fields, vs));
      && Encode(cx, TEnum(variants), VCase(variants[i].name, vs)) == bytes
      && (cx.RoundTrips() && |bytes| < U64_LIMIT ==>
            Decode(cx, TEnum(variants), bytes) == Some(VCase(variants[i].name, vs)))
  {
    VariantFound(variants, i);
    if AllOnWire(vs) && cx.RoundTrips() {
      var v := VCase(variants[i].name, vs);
      if |Encode(cx, TEnum(variants), v)| < U64_LIMIT {
        RoundTrip(cx, TEnum(variants), v);
      }
    }
  }

  /** A name of no variant is neither a value of the enum nor accepted, whatever comes behind it. */
  lemma OtherNamesRejected(cx: Formats, variants: seq<Variant>, name: seq<byte>, vs: seq<Val>, rest: seq<byte>)
    requires forall i :: 0 <= i < |variants| ==> variants[i].name != name
    ensures !HasType(cx, TEnum(variants), VCase(name, vs))
    ensures |name| < U64_LIMIT ==> Decode(cx, TEnum(variants), Frame(name) + rest).None?
  {
    VariantMissing(variants, name);
    if |name| < U64_LIMIT {
      UnframeFrame(name, rest);
    }
  }
}
