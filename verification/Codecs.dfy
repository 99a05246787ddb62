/** Codecs: an encoder and a decoder for one type, and the ways in which the control wire protocol puts
    them together. A lawful codec is a bijection between its values and their encodings. */
module Codecs {
  import opened Basics

  const MAX_STRING: nat := 0x1_0000
  const MAX_ARRAY: nat := 4096

  datatype Code =
    | MessageTooLarge | Truncated | InvalidMagic | UnsupportedVersion | UnexpectedMessageKind | InvalidLength
    | StringTooLong | ArrayTooLong | UnknownEnum | InvalidBoolean | InvalidValue | TrailingBytes

  /** What an encoder appends, or the first error and how far before it the encoder got. */
  datatype Output = Bytes(bytes: seq<u8>) | Unencodable(code: Code, offset: nat)

  /** What a decoder finds at an offset, and where it stops. */
  datatype Input<+T> = Done(value: T, offset: nat) | Malformed(code: Code, offset: nat)

  predicate Refuses<T>(r: Input<T>, code: Code) {
    r.Malformed? && r.code == code
  }

  /** One output after the other; the first error stays. */
  function Then(a: Output, b: Output): Output {
    if a.Unencodable? then a
    else if b.Unencodable? then Unencodable(b.code, |a.bytes| + b.offset)
    else Bytes(a.bytes + b.bytes)
  }

  lemma ThenAssociates(a: Output, b: Output, c: Output)
    ensures Then(Then(a, b), c) == Then(a, Then(b, c))
  {
  }

  /** `ok` marks the values that the decoder accepts; the encoder may write others. */
  datatype Codec<!T> = Codec(enc: T -> Output, dec: (seq<u8>, nat) -> Input<T>, ok: T -> bool)

  ghost predicate At(input: seq<u8>, offset: nat, bytes: seq<u8>) {
    offset + |bytes| <= |input| && input[offset..offset + |bytes|] == bytes
  }

  /** Decoding what was encoded, wherever it stands, returns the value. */
  ghost predicate RoundTrips<T(!new)>(c: Codec<T>) {
    forall t: T, input: seq<u8>, offset: nat {:trigger At(input, offset, c.enc(t).bytes)} ::
      c.ok(t) && c.enc(t).Bytes? && At(input, offset, c.enc(t).bytes) ==>
        c.dec(input, offset) == Done(t, offset + |c.enc(t).bytes|)
  }

  /** Whatever decodes is what the encoder would have written. */
  ghost predicate IsCanonical<T(!new)>(c: Codec<T>) {
    forall input: seq<u8>, offset: nat :: offset <= |input| && c.dec(input, offset).Done? ==>
      var r := c.dec(input, offset);
      offset <= r.offset <= |input| && c.ok(r.value) && c.enc(r.value) == Bytes(input[offset..r.offset])
  }

  ghost predicate Lawful<T(!new)>(c: Codec<T>) {
    RoundTrips(c) && IsCanonical(c)
  }

  /** Every encoding takes at least one byte. */
  ghost predicate TakesBytes<T(!new)>(c: Codec<T>) {
    forall t: T :: c.enc(t).Bytes? ==> |c.enc(t).bytes| > 0
  }

  /** A lawful codec that accepts the values `ok` marks. */
  ghost predicate LawfulOn<T(!new)>(c: Codec<T>, ok: T -> bool) {
    Lawful(c) && c.ok == ok
  }

  /** Such a codec whose encodings are never empty. */
  ghost predicate SoundOn<T(!new)>(c: Codec<T>, ok: T -> bool) {
    LawfulOn(c, ok) && TakesBytes(c)
  }

  /** Accepts everything. */
  function Any<T>(): T -> bool {
    (t: T) => true
  }

  // Integers, little-endian.

  function Power(n: nat): (p: nat)
    ensures p > 0
  {
    if n == 0 then 1 else 0x100 * Power(n - 1)
  }

  /** One byte of a number: `value` shifted right by `k` bytes. */
  function ByteOf(value: nat, k: nat): u8 {
    (value / Power(k)) % 0x100
  }

  /** The `n` low bytes of a number, lowest first. */
  function LittleEndian(value: nat, n: nat): (b: seq<u8>)
    ensures |b| == n && forall k :: 0 <= k < n ==> b[k] == ByteOf(value, k)
  {
    seq(n, k requires 0 <= k < n => ByteOf(value, k))
  }

  function FromLittleEndian(b: seq<u8>): nat {
    if b == [] then 0 else b[0] + 0x100 * FromLittleEndian(b[1..])
  }

  lemma DivideTwice(x: nat, p: nat)
    requires p > 0
    ensures x / (0x100 * p) == (x / 0x100) / p
  {
    var a, r := x / 0x100, x % 0x100;
    var q, s := a / p, a % p;
    assert a == q * p + s;
    assert x == q * (0x100 * p) + (0x100 * s + r);
    DivModUnique(x, q, 0x100 * s + r, 0x100 * p);
  }

  /** The lowest byte, and the bytes of the rest. */
  lemma LowestFirst(value: nat, n: nat)
    requires n > 0
    ensures LittleEndian(value, n) == [value % 0x100] + LittleEndian(value / 0x100, n - 1)
  {
    forall k | 0 < k < n ensures ByteOf(value, k) == ByteOf(value / 0x100, k - 1) {
      DivideTwice(value, Power(k - 1));
    }
  }

  lemma {:induction false} IntegersRoundTrip(value: nat, n: nat)
    requires value < Power(n)
    ensures FromLittleEndian(LittleEndian(value, n)) == value
  {
    if n > 0 {
      LowestFirst(value, n);
      IntegersRoundTrip(value / 0x100, n - 1);
    }
  }

  lemma {:induction false} IntegersAreCanonical(b: seq<u8>)
    ensures FromLittleEndian(b) < Power(|b|)
    ensures LittleEndian(FromLittleEndian(b), |b|) == b
  {
    if b != [] {
      IntegersAreCanonical(b[1..]);
      LowestFirst(FromLittleEndian(b), |b|);
    }
  }

  // Primitive codecs.

  function DecodeScalar(input: seq<u8>, offset: nat, n: nat): Input<nat> {
    if offset + n > |input| then Malformed(Truncated, offset)
    else Done(FromLittleEndian(input[offset..offset + n]), offset + n)
  }

  lemma ScalarRoundTrips(value: nat, input: seq<u8>, offset: nat, n: nat)
    requires value < Power(n) && At(input, offset, LittleEndian(value, n))
    ensures DecodeScalar(input, offset, n) == Done(value, offset + n)
  {
    IntegersRoundTrip(value, n);
  }

  lemma ScalarIsCanonical(input: seq<u8>, offset: nat, n: nat)
    requires DecodeScalar(input, offset, n).Done?
    ensures var v := DecodeScalar(input, offset, n).value;
            offset + n <= |input| && v < Power(n) && LittleEndian(v, n) == input[offset..offset + n]
  {
    IntegersAreCanonical(input[offset..offset + n]);
  }

  function Below(limit: nat): nat -> bool {
    (n: nat) => n < limit
  }

  /** An unsigned integer of `n` bytes. */
  function Scalar(n: nat): Codec<nat> {
    Codec((value: nat) => Bytes(LittleEndian(value, n)),
          (input: seq<u8>, offset: nat) => DecodeScalar(input, offset, n),
          Below(Power(n)))
  }

  lemma ScalarLawful(n: nat)
    requires n > 0
    ensures SoundOn(Scalar(n), Below(Power(n)))
  {
    var c := Scalar(n);
    forall value: nat, input: seq<u8>, offset: nat | c.ok(value) && At(input, offset, c.enc(value).bytes)
      ensures c.dec(input, offset) == Done(value, offset + n)
    {
      ScalarRoundTrips(value, input, offset, n);
    }
    forall input: seq<u8>, offset: nat | offset <= |input| && c.dec(input, offset).Done?
      ensures var r := c.dec(input, offset);
              offset <= r.offset <= |input| && c.ok(r.value) && c.enc(r.value) == Bytes(input[offset..r.offset])
    {
      ScalarIsCanonical(input, offset, n);
    }
  }

  /** Decodes with `c`, then checks the value. */
  function DecodeChecked<A, B>(r: Input<A>, good: A -> bool, code: Code, from: A -> B): Input<B> {
    match r
    case Malformed(e, o) => Malformed(e, o)
    case Done(a, o) => if good(a) then Done(from(a), o) else Malformed(code, o)
  }

  /** A codec whose decoder refuses some values, seen through a change of representation; `ok` says which
      values it accepts. */
  function Checked<A, B>(c: Codec<A>, good: A -> bool, code: Code, to: B -> A, from: A -> B, ok: B -> bool): Codec<B> {
    Codec((b: B) => c.enc(to(b)),
          (input: seq<u8>, offset: nat) => DecodeChecked(c.dec(input, offset), good, code, from),
          ok)
  }

  lemma CheckedLawful<A(!new), B(!new)>(c: Codec<A>, good: A -> bool, code: Code, to: B -> A, from: A -> B, ok: B -> bool)
    requires Lawful(c) && forall a :: c.ok(a) && good(a) ==> to(from(a)) == a
    requires forall b :: ok(b) <==> c.ok(to(b)) && good(to(b)) && from(to(b)) == b
    ensures LawfulOn(Checked(c, good, code, to, from, ok), ok)
    ensures TakesBytes(c) ==> TakesBytes(Checked(c, good, code, to, from, ok))
  {
    var r := Checked(c, good, code, to, from, ok);
    forall b: B, input: seq<u8>, offset: nat | r.ok(b) && r.enc(b).Bytes? && At(input, offset, r.enc(b).bytes)
      ensures r.dec(input, offset) == Done(b, offset + |r.enc(b).bytes|)
    {
      assert At(input, offset, c.enc(to(b)).bytes);
    }
    forall input: seq<u8>, offset: nat | offset <= |input| && r.dec(input, offset).Done?
      ensures var v := r.dec(input, offset);
              offset <= v.offset <= |input| && r.ok(v.value) && r.enc(v.value) == Bytes(input[offset..v.offset])
    {
      var a := c.dec(input, offset).value;
      assert to(from(a)) == a;
    }
  }

  /** A value that another one represents. */
  function Record<A, B>(c: Codec<A>, to: B -> A, from: A -> B, ok: B -> bool): Codec<B> {
    Checked(c, Any(), InvalidValue, to, from, ok)
  }

  lemma RecordLawful<A(!new), B(!new)>(c: Codec<A>, to: B -> A, from: A -> B, ok: B -> bool)
    requires Lawful(c) && forall a :: c.ok(a) ==> to(from(a)) == a
    requires forall b :: ok(b) <==> c.ok(to(b)) && from(to(b)) == b
    ensures LawfulOn(Record(c, to, from, ok), ok)
    ensures TakesBytes(c) ==> TakesBytes(Record(c, to, from, ok))
  {
    CheckedLawful(c, Any(), InvalidValue, to, from, ok);
  }

  lemma PowerOfFour()
    ensures Power(4) == U32_MODULUS
  {
    assert Power(2) == 0x100 * Power(1);
    assert Power(4) == 0x100 * (0x100 * Power(2));
  }

  lemma PowerOfEight()
    ensures Power(8) == U64_MODULUS
  {
    PowerOfFour();
    assert Power(6) == 0x100 * (0x100 * Power(4));
    assert Power(8) == 0x100 * (0x100 * Power(6));
  }

  function AsU32(n: nat): u32 {
    if n < U32_MODULUS then n else 0
  }

  function AsU64(n: nat): u64 {
    if n < U64_MODULUS then n else 0
  }

  function U32(): Codec<u32> {
    Record(Scalar(4), (x: u32) => x, AsU32, Any())
  }

  lemma U32Lawful()
    ensures SoundOn(U32(), Any())
  {
    PowerOfFour();
    ScalarLawful(4);
    RecordLawful(Scalar(4), (x: u32) => x, AsU32, Any());
  }

  function U64(): Codec<u64> {
    Record(Scalar(8), (x: u64) => x, AsU64, Any())
  }

  lemma U64Lawful()
    ensures SoundOn(U64(), Any())
  {
    PowerOfEight();
    ScalarLawful(8);
    RecordLawful(Scalar(8), (x: u64) => x, AsU64, Any());
  }

  function BoolToNat(b: bool): nat {
    if b then 1 else 0
  }

  function NatToBool(n: nat): bool {
    n == 1
  }

  function Boolean(): Codec<bool> {
    Checked(Scalar(1), UpTo(1), InvalidBoolean, BoolToNat, NatToBool, Any())
  }

  lemma BooleanLawful()
    ensures SoundOn(Boolean(), Any())
  {
    ScalarLawful(1);
    CheckedLawful(Scalar(1), UpTo(1), InvalidBoolean, BoolToNat, NatToBool, Any());
  }

  function Same<T>(): T -> T {
    (t: T) => t
  }

  /** The pattern of a float, which must be finite. */
  function Float32(): Codec<u32> {
    Checked(U32(), Finite32, InvalidValue, Same(), Same(), Finite32)
  }

  lemma Float32Lawful()
    ensures SoundOn(Float32(), Finite32)
  {
    U32Lawful();
    CheckedLawful(U32(), Finite32, InvalidValue, Same(), Same(), Finite32);
  }

  /** A 64-bit float is finite when its exponent field is not all ones. */
  predicate Finite64(bits: u64) {
    (bits / 0x10_0000_0000_0000) % 0x800 != 0x7FF
  }

  function Float64(): Codec<u64> {
    Checked(U64(), Finite64, InvalidValue, Same(), Same(), Finite64)
  }

  lemma Float64Lawful()
    ensures SoundOn(Float64(), Finite64)
  {
    U64Lawful();
    CheckedLawful(U64(), Finite64, InvalidValue, Same(), Same(), Finite64);
  }

  function UpTo(most: nat): nat -> bool {
    (n: nat) => n <= most
  }

  /** The index of an enumerator, at most `most`. */
  function Enumeration(most: u32): Codec<nat> {
    Checked(Scalar(4), UpTo(most), UnknownEnum, Same(), Same(), UpTo(most))
  }

  lemma EnumerationLawful(most: u32)
    ensures SoundOn(Enumeration(most), UpTo(most))
  {
    PowerOfFour();
    ScalarLawful(4);
    CheckedLawful(Scalar(4), UpTo(most), UnknownEnum, Same(), Same(), UpTo(most));
  }

  // Strings.

  /** A string behind its length, an integer of `width` bytes. */
  function EncodeText(width: nat, t: Text): Output {
    if |t| > MAX_STRING then Unencodable(StringTooLong, 0) else Bytes(LittleEndian(|t|, width) + t)
  }

  function DecodeText(width: nat, input: seq<u8>, offset: nat): Input<Text> {
    match DecodeScalar(input, offset, width)
    case Malformed(e, o) => Malformed(e, o)
    case Done(length, o) =>
      if length > MAX_STRING then Malformed(StringTooLong, o)
      else if o + length > |input| then Malformed(Truncated, o)
      else Done(input[o..o + length], o + length)
  }

  function TextCodec(width: nat): Codec<Text> {
    Codec((t: Text) => EncodeText(width, t), (input: seq<u8>, offset: nat) => DecodeText(width, input, offset), Any())
  }

  function String(): Codec<Text> {
    TextCodec(4)
  }

  lemma StringLawful()
    ensures SoundOn(String(), Any())
  {
    PowerOfFour();
    TextLawful(4);
  }

  lemma Prefix(input: seq<u8>, offset: nat, a: seq<u8>, b: seq<u8>)
    ensures At(input, offset, a + b) <==> At(input, offset, a) && At(input, offset + |a|, b)
  {
    if At(input, offset, a + b) {
      assert input[offset..offset + |a|] == input[offset..offset + |a + b|][..|a|];
      assert input[offset + |a|..offset + |a| + |b|] == input[offset..offset + |a + b|][|a|..];
    }
    if At(input, offset, a) && At(input, offset + |a|, b) {
      assert input[offset..offset + |a + b|] == input[offset..offset + |a|] + input[offset + |a|..offset + |a| + |b|];
    }
  }

  lemma TextRoundTrips(t: Text, width: nat, input: seq<u8>, offset: nat)
    requires DecodeScalar(input, offset, width) == Done(|t|, offset + width)
    requires |t| <= MAX_STRING && At(input, offset + width, t)
    ensures DecodeText(width, input, offset) == Done(t, offset + width + |t|)
  {
  }

  lemma TextIsCanonical(width: nat, input: seq<u8>, offset: nat)
    requires DecodeText(width, input, offset).Done?
    ensures var r := DecodeText(width, input, offset);
            offset <= r.offset <= |input| && EncodeText(width, r.value) == Bytes(input[offset..r.offset])
  {
    ScalarIsCanonical(input, offset, width);
    var r := DecodeText(width, input, offset);
    assert input[offset..r.offset] == input[offset..offset + width] + input[offset + width..r.offset];
  }

  lemma TextLawful(width: nat)
    requires MAX_STRING < Power(width) && width > 0
    ensures SoundOn(TextCodec(width), Any())
  {
    var c := TextCodec(width);
    forall t: Text, input: seq<u8>, offset: nat | c.enc(t).Bytes? && At(input, offset, c.enc(t).bytes)
      ensures c.dec(input, offset) == Done(t, offset + |c.enc(t).bytes|)
    {
      Prefix(input, offset, LittleEndian(|t|, width), t);
      ScalarRoundTrips(|t|, input, offset, width);
      TextRoundTrips(t, width, input, offset);
    }
    forall input: seq<u8>, offset: nat | offset <= |input| && c.dec(input, offset).Done?
      ensures var r := c.dec(input, offset);
              offset <= r.offset <= |input| && c.enc(r.value) == Bytes(input[offset..r.offset])
    {
      TextIsCanonical(width, input, offset);
    }
  }

  // Sequences of codecs.

  function DecodePair<A, B>(a: Codec<A>, b: A -> Codec<B>, input: seq<u8>, offset: nat): Input<(A, B)> {
    match a.dec(input, offset)
    case Malformed(e, o) => Malformed(e, o)
    case Done(x, o) =>
      match b(x).dec(input, o)
      case Malformed(e, p) => Malformed(e, p)
      case Done(y, p) => Done((x, y), p)
  }

  /** A value, and another one whose codec depends on the first. */
  function Depends<A, B>(a: Codec<A>, b: A -> Codec<B>, ok: ((A, B)) -> bool): Codec<(A, B)> {
    Codec((t: (A, B)) => Then(a.enc(t.0), b(t.0).enc(t.1)),
          (input: seq<u8>, offset: nat) => DecodePair(a, b, input, offset),
          ok)
  }

  lemma DependsLawful<A(!new), B(!new)>(a: Codec<A>, b: A -> Codec<B>, ok: ((A, B)) -> bool)
    requires Lawful(a) && (forall x :: a.ok(x) ==> Lawful(b(x))) && forall t :: ok(t) <==> a.ok(t.0) && b(t.0).ok(t.1)
    ensures LawfulOn(Depends(a, b, ok), ok)
    ensures TakesBytes(a) ==> TakesBytes(Depends(a, b, ok))
  {
    var c := Depends(a, b, ok);
    forall t: (A, B), input: seq<u8>, offset: nat | c.ok(t) && c.enc(t).Bytes? && At(input, offset, c.enc(t).bytes)
      ensures c.dec(input, offset) == Done(t, offset + |c.enc(t).bytes|)
    {
      Prefix(input, offset, a.enc(t.0).bytes, b(t.0).enc(t.1).bytes);
      assert Lawful(b(t.0));
    }
    forall input: seq<u8>, offset: nat | offset <= |input| && c.dec(input, offset).Done?
      ensures var r := c.dec(input, offset);
              offset <= r.offset <= |input| && c.ok(r.value) && c.enc(r.value) == Bytes(input[offset..r.offset])
    {
      var x := a.dec(input, offset);
      assert Lawful(b(x.value));
      var y := b(x.value).dec(input, x.offset);
      assert input[offset..y.offset] == input[offset..x.offset] + input[x.offset..y.offset];
    }
  }

  function DecodeBoth<A, B>(a: Codec<A>, b: Codec<B>, input: seq<u8>, offset: nat): Input<(A, B)> {
    match a.dec(input, offset)
    case Malformed(e, o) => Malformed(e, o)
    case Done(x, o) =>
      match b.dec(input, o)
      case Malformed(e, p) => Malformed(e, p)
      case Done(y, p) => Done((x, y), p)
  }

  /** Two values, one after the other. */
  function Two<A, B>(a: Codec<A>, b: Codec<B>, ok: ((A, B)) -> bool): Codec<(A, B)> {
    Codec((t: (A, B)) => Then(a.enc(t.0), b.enc(t.1)), (input: seq<u8>, offset: nat) => DecodeBoth(a, b, input, offset), ok)
  }

  lemma TwoLawful<A(!new), B(!new)>(a: Codec<A>, b: Codec<B>, ok: ((A, B)) -> bool)
    requires Lawful(a) && Lawful(b) && forall t :: ok(t) <==> a.ok(t.0) && b.ok(t.1)
    ensures LawfulOn(Two(a, b, ok), ok)
    ensures TakesBytes(a) ==> TakesBytes(Two(a, b, ok))
  {
    var c := Two(a, b, ok);
    forall t: (A, B), input: seq<u8>, offset: nat | c.ok(t) && c.enc(t).Bytes? && At(input, offset, c.enc(t).bytes)
      ensures c.dec(input, offset) == Done(t, offset + |c.enc(t).bytes|)
    {
      Prefix(input, offset, a.enc(t.0).bytes, b.enc(t.1).bytes);
    }
    forall input: seq<u8>, offset: nat | offset <= |input| && c.dec(input, offset).Done?
      ensures var r := c.dec(input, offset);
              offset <= r.offset <= |input| && c.ok(r.value) && c.enc(r.value) == Bytes(input[offset..r.offset])
    {
      var x := a.dec(input, offset);
      var y := b.dec(input, x.offset);
      assert input[offset..y.offset] == input[offset..x.offset] + input[x.offset..y.offset];
    }
  }

  function BothOk<A, B>(a: Codec<A>, b: Codec<B>): ((A, B)) -> bool {
    (t: (A, B)) => a.ok(t.0) && b.ok(t.1)
  }

  function Three<A, B, C>(a: Codec<A>, b: Codec<B>, c: Codec<C>, ok: ((A, (B, C))) -> bool): Codec<(A, (B, C))> {
    Two(a, Two(b, c, BothOk(b, c)), ok)
  }

  lemma ThreeLawful<A(!new), B(!new), C(!new)>(a: Codec<A>, b: Codec<B>, c: Codec<C>, ok: ((A, (B, C))) -> bool)
    requires Lawful(a) && Lawful(b) && Lawful(c) && forall t :: ok(t) <==> a.ok(t.0) && b.ok(t.1.0) && c.ok(t.1.1)
    ensures LawfulOn(Three(a, b, c, ok), ok)
    ensures TakesBytes(a) ==> TakesBytes(Three(a, b, c, ok))
  {
    TwoLawful(b, c, BothOk(b, c));
    TwoLawful(a, Two(b, c, BothOk(b, c)), ok);
  }

  function AllThreeOk<A, B, C>(a: Codec<A>, b: Codec<B>, c: Codec<C>): ((A, (B, C))) -> bool {
    (t: (A, (B, C))) => a.ok(t.0) && b.ok(t.1.0) && c.ok(t.1.1)
  }

  function Four<A, B, C, D>(
    a: Codec<A>, b: Codec<B>, c: Codec<C>, d: Codec<D>, ok: ((A, (B, (C, D)))) -> bool): Codec<(A, (B, (C, D)))>
  {
    Two(a, Three(b, c, d, AllThreeOk(b, c, d)), ok)
  }

  lemma FourLawful<A(!new), B(!new), C(!new), D(!new)>(
    a: Codec<A>, b: Codec<B>, c: Codec<C>, d: Codec<D>, ok: ((A, (B, (C, D)))) -> bool)
    requires Lawful(a) && Lawful(b) && Lawful(c) && Lawful(d)
    requires forall t :: ok(t) <==> a.ok(t.0) && b.ok(t.1.0) && c.ok(t.1.1.0) && d.ok(t.1.1.1)
    ensures LawfulOn(Four(a, b, c, d, ok), ok)
    ensures TakesBytes(a) ==> TakesBytes(Four(a, b, c, d, ok))
  {
    ThreeLawful(b, c, d, AllThreeOk(b, c, d));
    TwoLawful(a, Three(b, c, d, AllThreeOk(b, c, d)), ok);
  }

  // Lists.

  function EncodeAll<T>(c: Codec<T>, xs: seq<T>): Output {
    if xs == [] then Bytes([]) else Then(c.enc(xs[0]), EncodeAll(c, xs[1..]))
  }

  function DecodeAll<T>(c: Codec<T>, input: seq<u8>, offset: nat, n: nat): Input<seq<T>>
    decreases n
  {
    if n == 0 then Done([], offset)
    else match c.dec(input, offset)
      case Malformed(e, o) => Malformed(e, o)
      case Done(x, o) =>
        match DecodeAll(c, input, o, n - 1)
        case Malformed(e, p) => Malformed(e, p)
        case Done(xs, p) => Done([x] + xs, p)
  }

  predicate AllOk<T>(c: Codec<T>, xs: seq<T>) {
    forall k :: 0 <= k < |xs| ==> c.ok(xs[k])
  }

  lemma {:induction false} ElementsRoundTrip<T(!new)>(c: Codec<T>, xs: seq<T>, bytes: seq<u8>, input: seq<u8>, offset: nat)
    requires RoundTrips(c) && AllOk(c, xs) && EncodeAll(c, xs) == Bytes(bytes) && At(input, offset, bytes)
    ensures DecodeAll(c, input, offset, |xs|) == Done(xs, offset + |bytes|)
  {
    if xs != [] {
      var first, rest := FirstAndRest(c, xs, bytes);
      Prefix(input, offset, first, rest);
      ElementsRoundTrip(c, xs[1..], rest, input, offset + |first|);
      OneThenRest(c, xs[0], xs[1..], first, |rest|, input, offset);
      assert [xs[0]] + xs[1..] == xs;
    }
  }

  lemma FirstAndRest<T>(c: Codec<T>, xs: seq<T>, bytes: seq<u8>) returns (first: seq<u8>, rest: seq<u8>)
    requires xs != [] && EncodeAll(c, xs) == Bytes(bytes)
    ensures c.enc(xs[0]) == Bytes(first) && EncodeAll(c, xs[1..]) == Bytes(rest) && bytes == first + rest
  {
    first, rest := c.enc(xs[0]).bytes, EncodeAll(c, xs[1..]).bytes;
  }

  lemma OneThenRest<T(!new)>(c: Codec<T>, x: T, xs: seq<T>, first: seq<u8>, size: nat, input: seq<u8>, offset: nat)
    requires RoundTrips(c) && c.ok(x) && c.enc(x) == Bytes(first) && At(input, offset, first)
    requires DecodeAll(c, input, offset + |first|, |xs|) == Done(xs, offset + |first| + size)
    ensures DecodeAll(c, input, offset, |xs| + 1) == Done([x] + xs, offset + |first| + size)
  {
    assert At(input, offset, c.enc(x).bytes);
    assert c.dec(input, offset) == Done(x, offset + |first|);
  }

  lemma {:induction false} ElementsAreCanonical<T(!new)>(c: Codec<T>, input: seq<u8>, offset: nat, n: nat)
    requires IsCanonical(c) && offset <= |input| && DecodeAll(c, input, offset, n).Done?
    ensures var r := DecodeAll(c, input, offset, n);
            && |r.value| == n && offset <= r.offset <= |input| && AllOk(c, r.value)
            && EncodeAll(c, r.value) == Bytes(input[offset..r.offset])
    decreases n
  {
    if n > 0 {
      var x := c.dec(input, offset);
      ElementsAreCanonical(c, input, x.offset, n - 1);
      var r := DecodeAll(c, input, offset, n);
      assert r.value[1..] == DecodeAll(c, input, x.offset, n - 1).value;
      assert input[offset..r.offset] == input[offset..x.offset] + input[x.offset..r.offset];
    }
  }

  lemma {:induction false} ElementsTakeBytes<T(!new)>(c: Codec<T>, xs: seq<T>)
    requires TakesBytes(c) && EncodeAll(c, xs).Bytes?
    ensures |EncodeAll(c, xs).bytes| >= |xs|
  {
    if xs != [] {
      ElementsTakeBytes(c, xs[1..]);
    }
  }

  const COUNT_BYTES: nat := 4

  function EncodeCount(n: nat): Output {
    if n > MAX_ARRAY then Unencodable(ArrayTooLong, 0) else Bytes(LittleEndian(n, COUNT_BYTES))
  }

  /** A count, checked against the limit and against what is left of the message. */
  function DecodeCount(input: seq<u8>, offset: nat): Input<nat> {
    match DecodeScalar(input, offset, COUNT_BYTES)
    case Malformed(e, o) => Malformed(e, o)
    case Done(n, o) =>
      if n > MAX_ARRAY then Malformed(ArrayTooLong, o)
      else if o + n > |input| then Malformed(Truncated, o)
      else Done(n, o)
  }

  lemma CountRoundTrips(n: nat, input: seq<u8>, offset: nat, width: nat)
    requires n <= MAX_ARRAY && width == COUNT_BYTES && At(input, offset, LittleEndian(n, width)) && offset + width + n <= |input|
    ensures DecodeCount(input, offset) == Done(n, offset + width)
  {
    PowerOfFour();
    ScalarRoundTrips(n, input, offset, width);
  }

  lemma CountIsCanonical(input: seq<u8>, offset: nat, width: nat)
    requires width == COUNT_BYTES && DecodeCount(input, offset).Done?
    ensures var n := DecodeCount(input, offset);
            && n.offset == offset + width <= |input| && n.value <= MAX_ARRAY
            && EncodeCount(n.value) == Bytes(input[offset..offset + width])
  {
    ScalarIsCanonical(input, offset, width);
  }

  function DecodeList<T>(c: Codec<T>, accept: nat -> bool, input: seq<u8>, offset: nat): Input<seq<T>> {
    match DecodeCount(input, offset)
    case Malformed(e, o) => Malformed(e, o)
    case Done(n, o) => if accept(n) then DecodeAll(c, input, o, n) else Malformed(InvalidValue, o)
  }

  /** A list behind its length, which must be acceptable; `ok` says which lists decode. */
  function ListOf<T>(c: Codec<T>, accept: nat -> bool, ok: seq<T> -> bool): Codec<seq<T>> {
    Codec((xs: seq<T>) => Then(EncodeCount(|xs|), EncodeAll(c, xs)),
          (input: seq<u8>, offset: nat) => DecodeList(c, accept, input, offset),
          ok)
  }

  lemma ListOfLawful<T(!new)>(c: Codec<T>, accept: nat -> bool, ok: seq<T> -> bool)
    requires Lawful(c) && TakesBytes(c) && forall xs :: ok(xs) <==> AllOk(c, xs) && accept(|xs|)
    ensures SoundOn(ListOf(c, accept, ok), ok)
  {
    ListOfRoundTrips(c, accept, ok);
    ListOfIsCanonical(c, accept, ok);
  }

  lemma ListOfRoundTrips<T(!new)>(c: Codec<T>, accept: nat -> bool, ok: seq<T> -> bool)
    requires RoundTrips(c) && TakesBytes(c) && forall xs :: ok(xs) ==> AllOk(c, xs) && accept(|xs|)
    ensures RoundTrips(ListOf(c, accept, ok))
  {
    var r := ListOf(c, accept, ok);
    forall xs: seq<T>, input: seq<u8>, offset: nat | r.ok(xs) && r.enc(xs).Bytes? && At(input, offset, r.enc(xs).bytes)
      ensures r.dec(input, offset) == Done(xs, offset + |r.enc(xs).bytes|)
    {
      ListRoundTrips(c, accept, xs, input, offset);
    }
  }

  lemma ListOfIsCanonical<T(!new)>(c: Codec<T>, accept: nat -> bool, ok: seq<T> -> bool)
    requires IsCanonical(c) && forall xs :: AllOk(c, xs) && accept(|xs|) ==> ok(xs)
    ensures IsCanonical(ListOf(c, accept, ok))
  {
    var r := ListOf(c, accept, ok);
    forall input: seq<u8>, offset: nat | offset <= |input| && r.dec(input, offset).Done?
      ensures var v := r.dec(input, offset);
              offset <= v.offset <= |input| && r.ok(v.value) && r.enc(v.value) == Bytes(input[offset..v.offset])
    {
      ListIsCanonical(c, accept, input, offset);
    }
  }

  /** A list of elements all of which decode. */
  function AnyList<T>(c: Codec<T>): Codec<seq<T>> {
    ListOf(c, Any(), Any())
  }

  lemma AnyListLawful<T(!new)>(c: Codec<T>)
    requires SoundOn(c, Any())
    ensures SoundOn(AnyList(c), Any())
  {
    forall xs: seq<T> ensures AllOk(c, xs) {
      AllTrue(c, xs);
    }
    ListOfLawful(c, Any(), Any());
  }

  lemma AllTrue<T(!new)>(c: Codec<T>, xs: seq<T>)
    requires c.ok == Any()
    ensures AllOk(c, xs)
  {
  }

  lemma ListRoundTrips<T(!new)>(c: Codec<T>, accept: nat -> bool, xs: seq<T>, input: seq<u8>, offset: nat)
    requires RoundTrips(c) && TakesBytes(c) && AllOk(c, xs) && accept(|xs|)
    requires var e := Then(EncodeCount(|xs|), EncodeAll(c, xs)); e.Bytes? && At(input, offset, e.bytes)
    ensures DecodeList(c, accept, input, offset)
         == Done(xs, offset + |Then(EncodeCount(|xs|), EncodeAll(c, xs)).bytes|)
  {
    var count, all := EncodeCount(|xs|).bytes, EncodeAll(c, xs).bytes;
    Prefix(input, offset, count, all);
    ElementsTakeBytes(c, xs);
    CountRoundTrips(|xs|, input, offset, COUNT_BYTES);
    ElementsRoundTrip(c, xs, all, input, offset + COUNT_BYTES);
  }

  lemma ListIsCanonical<T(!new)>(c: Codec<T>, accept: nat -> bool, input: seq<u8>, offset: nat)
    requires IsCanonical(c) && offset <= |input| && DecodeList(c, accept, input, offset).Done?
    ensures var v := DecodeList(c, accept, input, offset);
            && offset <= v.offset <= |input| && AllOk(c, v.value) && accept(|v.value|)
            && Then(EncodeCount(|v.value|), EncodeAll(c, v.value)) == Bytes(input[offset..v.offset])
  {
    CountIsCanonical(input, offset, COUNT_BYTES);
    var n := DecodeCount(input, offset);
    ElementsAreCanonical(c, input, n.offset, n.value);
    var v := DecodeList(c, accept, input, offset);
    assert input[offset..v.offset] == input[offset..n.offset] + input[n.offset..v.offset];
  }

  // Values that are not always there.

  /** Accepts the default alone where a version lacks the field. */
  function Since<T(==)>(present: bool, default: T): T -> bool {
    (t: T) => present || t == default
  }

  /** A field that every version from some one on has; the default takes no bytes where it is lacking. */
  function Field<T>(present: bool, c: Codec<T>, default: T, ok: T -> bool): Codec<T> {
    if present then Codec(c.enc, c.dec, ok)
    else Codec((t: T) => Bytes([]), (input: seq<u8>, offset: nat) => Done(default, offset), ok)
  }

  lemma FieldLawful<T(!new)>(present: bool, c: Codec<T>, default: T, ok: T -> bool)
    requires Lawful(c) && forall t :: ok(t) <==> if present then c.ok(t) else t == default
    ensures LawfulOn(Field(present, c, default, ok), ok)
  {
    var r := Field(present, c, default, ok);
    forall t: T, input: seq<u8>, offset: nat | r.ok(t) && r.enc(t).Bytes? && At(input, offset, r.enc(t).bytes)
      ensures r.dec(input, offset) == Done(t, offset + |r.enc(t).bytes|)
    {
      assert present ==> c.ok(t) && At(input, offset, c.enc(t).bytes);
    }
  }

  /** What is acceptable behind a flag: any acceptable value, or the default where the flag is not set. */
  function FlagFits<T(==)>(ok: T -> bool, default: T): ((bool, T)) -> bool {
    (t: (bool, T)) => if t.0 then ok(t.1) else t.1 == default
  }

  function BehindFits<T(==)>(ok: T -> bool, default: T, b: bool): T -> bool {
    (t: T) => if b then ok(t) else t == default
  }

  function Behind<T(==)>(c: Codec<T>, ok: T -> bool, default: T): bool -> Codec<T> {
    (b: bool) => Field(b, c, default, BehindFits(ok, default, b))
  }

  /** A flag, and a value behind it if the flag is set; otherwise the value must be the default. */
  function Flagged<T(==)>(c: Codec<T>, ok: T -> bool, default: T): Codec<(bool, T)> {
    Depends(Boolean(), Behind(c, ok, default), FlagFits(ok, default))
  }

  lemma FlaggedLawful<T(!new)>(c: Codec<T>, ok: T -> bool, default: T)
    requires LawfulOn(c, ok)
    ensures SoundOn(Flagged(c, ok, default), FlagFits(ok, default))
  {
    BooleanLawful();
    forall b: bool ensures LawfulOn(Behind(c, ok, default)(b), BehindFits(ok, default, b)) {
      FieldLawful(b, c, default, BehindFits(ok, default, b));
    }
    DependsLawful(Boolean(), Behind(c, ok, default), FlagFits(ok, default));
  }

  function FromFlag<T>(t: (bool, T)): Option<T> {
    if t.0 then Some(t.1) else None
  }

  function ToFlag<T>(default: T): Option<T> -> (bool, T) {
    (o: Option<T>) => if o.Some? then (true, o.value) else (false, default)
  }

  function IfSome<T>(ok: T -> bool): Option<T> -> bool {
    (o: Option<T>) => o.Some? ==> ok(o.value)
  }

  /** An optional value: a flag, then the value if there is one. */
  function Optional<T(==)>(c: Codec<T>, ok: T -> bool, default: T): Codec<Option<T>> {
    Record(Flagged(c, ok, default), ToFlag(default), FromFlag, IfSome(ok))
  }

  lemma OptionalLawful<T(!new)>(c: Codec<T>, ok: T -> bool, default: T)
    requires LawfulOn(c, ok)
    ensures SoundOn(Optional(c, ok, default), IfSome(ok))
  {
    FlaggedLawful(c, ok, default);
    RecordLawful(Flagged(c, ok, default), ToFlag(default), FromFlag, IfSome(ok));
  }

  function HasLength<T>(n: nat): seq<T> -> bool {
    (xs: seq<T>) => |xs| == n
  }

  /** A fixed number of elements, with no count before them. */
  function Fixed<T>(c: Codec<T>, n: nat): Codec<seq<T>> {
    Codec((xs: seq<T>) => EncodeAll(c, xs), (input: seq<u8>, offset: nat) => DecodeAll(c, input, offset, n), HasLength(n))
  }

  lemma FixedLawful<T(!new)>(c: Codec<T>, n: nat)
    requires SoundOn(c, Any())
    ensures LawfulOn(Fixed(c, n), HasLength(n))
  {
    var r := Fixed(c, n);
    forall xs: seq<T>, input: seq<u8>, offset: nat | r.ok(xs) && r.enc(xs).Bytes? && At(input, offset, r.enc(xs).bytes)
      ensures r.dec(input, offset) == Done(xs, offset + |r.enc(xs).bytes|)
    {
      AllTrue(c, xs);
      ElementsRoundTrip(c, xs, r.enc(xs).bytes, input, offset);
    }
    forall input: seq<u8>, offset: nat | offset <= |input| && r.dec(input, offset).Done?
      ensures var v := r.dec(input, offset);
              offset <= v.offset <= |input| && r.ok(v.value) && r.enc(v.value) == Bytes(input[offset..v.offset])
    {
      ElementsAreCanonical(c, input, offset, n);
    }
  }
}
