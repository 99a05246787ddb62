/** What decoders refuse although an encoder writes it. */
module Refusals {
  import opened Basics
  import opened Codecs

  /** The decoder refuses what the encoder writes for `t`, wherever it stands. */
  ghost predicate Stops<T(!new)>(c: Codec<T>, t: T, code: Code) {
    forall input: seq<u8>, offset: nat ::
      |input| < U32_MODULUS && c.enc(t).Bytes? && At(input, offset, c.enc(t).bytes) ==> Refuses(c.dec(input, offset), code)
  }

  lemma FirstStops<A(!new), B(!new)>(a: Codec<A>, b: Codec<B>, ok: ((A, B)) -> bool, t: (A, B), code: Code)
    requires Stops(a, t.0, code)
    ensures Stops(Two(a, b, ok), t, code)
  {
    var c := Two(a, b, ok);
    forall input: seq<u8>, offset: nat | |input| < U32_MODULUS && c.enc(t).Bytes? && At(input, offset, c.enc(t).bytes)
      ensures Refuses(c.dec(input, offset), code)
    {
      Prefix(input, offset, a.enc(t.0).bytes, b.enc(t.1).bytes);
    }
  }

  lemma SecondStops<A(!new), B(!new)>(a: Codec<A>, b: Codec<B>, ok: ((A, B)) -> bool, t: (A, B), code: Code)
    requires RoundTrips(a) && a.ok(t.0) && Stops(b, t.1, code)
    ensures Stops(Two(a, b, ok), t, code)
  {
    var c := Two(a, b, ok);
    forall input: seq<u8>, offset: nat | |input| < U32_MODULUS && c.enc(t).Bytes? && At(input, offset, c.enc(t).bytes)
      ensures Refuses(c.dec(input, offset), code)
    {
      Prefix(input, offset, a.enc(t.0).bytes, b.enc(t.1).bytes);
      assert a.dec(input, offset) == Done(t.0, offset + |a.enc(t.0).bytes|);
    }
  }

  lemma DependentStops<A(!new), B(!new)>(a: Codec<A>, b: A -> Codec<B>, ok: ((A, B)) -> bool, t: (A, B), code: Code)
    requires RoundTrips(a) && a.ok(t.0) && Stops(b(t.0), t.1, code)
    ensures Stops(Depends(a, b, ok), t, code)
  {
    var c := Depends(a, b, ok);
    forall input: seq<u8>, offset: nat | |input| < U32_MODULUS && c.enc(t).Bytes? && At(input, offset, c.enc(t).bytes)
      ensures Refuses(c.dec(input, offset), code)
    {
      Prefix(input, offset, a.enc(t.0).bytes, b(t.0).enc(t.1).bytes);
      assert a.dec(input, offset) == Done(t.0, offset + |a.enc(t.0).bytes|);
    }
  }

  lemma RecordStops<A(!new), B(!new)>(c: Codec<A>, to: B -> A, from: A -> B, ok: B -> bool, t: B, code: Code)
    requires Stops(c, to(t), code)
    ensures Stops(Record(c, to, from, ok), t, code)
  {
    var r := Record(c, to, from, ok);
    forall input: seq<u8>, offset: nat | |input| < U32_MODULUS && r.enc(t).Bytes? && At(input, offset, r.enc(t).bytes)
      ensures Refuses(r.dec(input, offset), code)
    {
      assert At(input, offset, c.enc(to(t)).bytes);
    }
  }

  /** The first element that stops the decoder stops it for the list. */
  lemma {:induction false} ElementStops<T(!new)>(c: Codec<T>, xs: seq<T>, k: nat, bytes: seq<u8>, input: seq<u8>, offset: nat, code: Code)
    requires RoundTrips(c) && k < |xs| && Stops(c, xs[k], code) && forall j :: 0 <= j < k ==> c.ok(xs[j])
    requires |input| < U32_MODULUS && EncodeAll(c, xs) == Bytes(bytes) && At(input, offset, bytes)
    ensures Refuses(DecodeAll(c, input, offset, |xs|), code)
    decreases k
  {
    var first, rest := FirstAndRest(c, xs, bytes);
    Prefix(input, offset, first, rest);
    if k > 0 {
      ElementStops(c, xs[1..], k - 1, rest, input, offset + |first|, code);
      assert At(input, offset, c.enc(xs[0]).bytes);
      assert c.dec(input, offset) == Done(xs[0], offset + |first|);
    }
  }

  lemma FieldStops<T(!new)>(present: bool, c: Codec<T>, default: T, ok: T -> bool, t: T, code: Code)
    requires present && Stops(c, t, code)
    ensures Stops(Field(present, c, default, ok), t, code)
  {
  }

  /** A second part whose form depends on the first is never reached when the first part stops the decoder. */
  lemma FirstDependentStops<A(!new), B(!new)>(a: Codec<A>, b: A -> Codec<B>, ok: ((A, B)) -> bool, t: (A, B), code: Code)
    requires Stops(a, t.0, code)
    ensures Stops(Depends(a, b, ok), t, code)
  {
    var c := Depends(a, b, ok);
    forall input: seq<u8>, offset: nat | |input| < U32_MODULUS && c.enc(t).Bytes? && At(input, offset, c.enc(t).bytes)
      ensures Refuses(c.dec(input, offset), code)
    {
      Prefix(input, offset, a.enc(t.0).bytes, b(t.0).enc(t.1).bytes);
    }
  }

  /** A set flag, and a value that stops the decoder. */
  lemma FlagStops<T(!new)>(c: Codec<T>, ok: T -> bool, default: T, t: T, code: Code)
    requires Stops(c, t, code)
    ensures Stops(Flagged(c, ok, default), (true, t), code)
  {
    BooleanLawful();
    assert Behind(c, ok, default)(true).enc == c.enc && Behind(c, ok, default)(true).dec == c.dec;
    assert Stops(Behind(c, ok, default)(true), t, code);
    DependentStops(Boolean(), Behind(c, ok, default), FlagFits(ok, default), (true, t), code);
  }

  /** The laws, and every other value stops the decoder. */
  ghost predicate StrictOn<T(!new)>(c: Codec<T>, ok: T -> bool, code: Code) {
    LawfulOn(c, ok) && forall t: T :: !ok(t) ==> Stops(c, t, code)
  }

  lemma FullStrict<T(!new)>(c: Codec<T>, ok: T -> bool, code: Code)
    requires LawfulOn(c, ok) && forall t: T :: ok(t)
    ensures StrictOn(c, ok, code)
  {
  }

  lemma CheckedStrict<A(!new), B(!new)>(c: Codec<A>, good: A -> bool, code: Code, to: B -> A, from: A -> B, ok: B -> bool)
    requires LawfulOn(Checked(c, good, code, to, from, ok), ok)
    requires RoundTrips(c) && forall b :: !ok(b) ==> c.ok(to(b)) && !good(to(b))
    ensures StrictOn(Checked(c, good, code, to, from, ok), ok, code)
  {
    var r := Checked(c, good, code, to, from, ok);
    forall t: B | !ok(t) ensures Stops(r, t, code) {
      forall input: seq<u8>, offset: nat | |input| < U32_MODULUS && r.enc(t).Bytes? && At(input, offset, r.enc(t).bytes)
        ensures Refuses(r.dec(input, offset), code)
      {
        assert At(input, offset, c.enc(to(t)).bytes);
      }
    }
  }

  lemma Float32Strict()
    ensures StrictOn(Float32(), Finite32, InvalidValue)
  {
    U32Lawful();
    Float32Lawful();
    CheckedStrict(U32(), Finite32, InvalidValue, Same(), Same(), Finite32);
  }

  lemma Float64Strict()
    ensures StrictOn(Float64(), Finite64, InvalidValue)
  {
    U64Lawful();
    Float64Lawful();
    CheckedStrict(U64(), Finite64, InvalidValue, Same(), Same(), Finite64);
  }

  lemma RecordStrict<A(!new), B(!new)>(c: Codec<A>, to: B -> A, from: A -> B, okA: A -> bool, ok: B -> bool, code: Code)
    requires StrictOn(c, okA, code) && LawfulOn(Record(c, to, from, ok), ok) && forall b :: ok(b) <==> okA(to(b))
    ensures StrictOn(Record(c, to, from, ok), ok, code)
  {
    forall t: B | !ok(t) ensures Stops(Record(c, to, from, ok), t, code) {
      RecordStops(c, to, from, ok, t, code);
    }
  }

  lemma TwoStrict<A(!new), B(!new)>(
    a: Codec<A>, b: Codec<B>, okA: A -> bool, okB: B -> bool, ok: ((A, B)) -> bool, code: Code)
    requires StrictOn(a, okA, code) && StrictOn(b, okB, code) && forall t :: ok(t) <==> okA(t.0) && okB(t.1)
    ensures StrictOn(Two(a, b, ok), ok, code)
  {
    TwoLawful(a, b, ok);
    forall t: (A, B) | !ok(t) ensures Stops(Two(a, b, ok), t, code) {
      if okA(t.0) {
        SecondStops(a, b, ok, t, code);
      } else {
        FirstStops(a, b, ok, t, code);
      }
    }
  }

  lemma ThreeStrict<A(!new), B(!new), C(!new)>(
    a: Codec<A>, b: Codec<B>, c: Codec<C>, okA: A -> bool, okB: B -> bool, okC: C -> bool, ok: ((A, (B, C))) -> bool, code: Code)
    requires StrictOn(a, okA, code) && StrictOn(b, okB, code) && StrictOn(c, okC, code)
    requires forall t :: ok(t) <==> okA(t.0) && okB(t.1.0) && okC(t.1.1)
    ensures StrictOn(Three(a, b, c, ok), ok, code)
  {
    TwoStrict(b, c, okB, okC, BothOk(b, c), code);
    TwoStrict(a, Two(b, c, BothOk(b, c)), okA, BothOk(b, c), ok, code);
  }

  lemma FourStrict<A(!new), B(!new), C(!new), D(!new)>(
    a: Codec<A>, b: Codec<B>, c: Codec<C>, d: Codec<D>,
    okA: A -> bool, okB: B -> bool, okC: C -> bool, okD: D -> bool, ok: ((A, (B, (C, D)))) -> bool, code: Code)
    requires StrictOn(a, okA, code) && StrictOn(b, okB, code) && StrictOn(c, okC, code) && StrictOn(d, okD, code)
    requires forall t :: ok(t) <==> okA(t.0) && okB(t.1.0) && okC(t.1.1.0) && okD(t.1.1.1)
    ensures StrictOn(Four(a, b, c, d, ok), ok, code)
  {
    ThreeStrict(b, c, d, okB, okC, okD, AllThreeOk(b, c, d), code);
    TwoStrict(a, Three(b, c, d, AllThreeOk(b, c, d)), okA, AllThreeOk(b, c, d), ok, code);
  }

  lemma OptionalStrict<T(!new)>(c: Codec<T>, ok: T -> bool, default: T, code: Code)
    requires StrictOn(c, ok, code)
    ensures StrictOn(Optional(c, ok, default), IfSome(ok), code)
  {
    OptionalLawful(c, ok, default);
    forall o: Option<T> | !IfSome(ok)(o) ensures Stops(Optional(c, ok, default), o, code) {
      FlagStops(c, ok, default, o.value, code);
      RecordStops(Flagged(c, ok, default), ToFlag(default), FromFlag, IfSome(ok), o, code);
    }
  }

  lemma FirstNotOk<T>(c: Codec<T>, xs: seq<T>) returns (k: nat)
    requires !AllOk(c, xs)
    ensures k < |xs| && !c.ok(xs[k]) && forall j :: 0 <= j < k ==> c.ok(xs[j])
  {
    k := 0;
    while c.ok(xs[k])
      invariant k < |xs| && !AllOk(c, xs) && forall j :: 0 <= j < k ==> c.ok(xs[j])
      decreases |xs| - k
    {
      k := k + 1;
    }
  }

  lemma ListStops<T(!new)>(c: Codec<T>, ok: seq<T> -> bool, xs: seq<T>, k: nat, code: Code)
    requires RoundTrips(c) && TakesBytes(c) && k < |xs| && Stops(c, xs[k], code) && forall j :: 0 <= j < k ==> c.ok(xs[j])
    ensures Stops(ListOf(c, Any(), ok), xs, code)
  {
    var r := ListOf(c, Any(), ok);
    forall input: seq<u8>, offset: nat | |input| < U32_MODULUS && r.enc(xs).Bytes? && At(input, offset, r.enc(xs).bytes)
      ensures Refuses(r.dec(input, offset), code)
    {
      var count, all := EncodeCount(|xs|).bytes, EncodeAll(c, xs).bytes;
      Prefix(input, offset, count, all);
      ElementsTakeBytes(c, xs);
      CountRoundTrips(|xs|, input, offset, COUNT_BYTES);
      ElementStops(c, xs, k, all, input, offset + COUNT_BYTES, code);
    }
  }

  lemma ListStrict<T(!new)>(c: Codec<T>, okT: T -> bool, ok: seq<T> -> bool, code: Code)
    requires StrictOn(c, okT, code) && TakesBytes(c) && forall xs :: ok(xs) <==> AllOk(c, xs)
    ensures StrictOn(ListOf(c, Any(), ok), ok, code)
  {
    ListOfLawful(c, Any(), ok);
    forall xs: seq<T> | !ok(xs) ensures Stops(ListOf(c, Any(), ok), xs, code) {
      var k := FirstNotOk(c, xs);
      ListStops(c, ok, xs, k, code);
    }
  }
}
