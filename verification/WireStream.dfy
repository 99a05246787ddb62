/** The Writer and Reader of the control wire protocol, and how a sequence of their calls adds up to a
    codec. The first error sticks: later calls change nothing. */
module WireStream {
  import opened Basics
  import opened Codecs

  const MAGIC: nat := 0x31524153
  const VERSION: nat := 14
  const OLDEST_VERSION: nat := 8
  const HEADER: nat := 12
  const MAX_MESSAGE: nat := 0x10_0000

  datatype Failure = Failure(code: Code, offset: nat)

  // Writing.

  /** The header of a message: magic, version, kind and payload size. */
  function Header(kind: nat, payload: nat): (h: seq<u8>)
    ensures |h| == HEADER
  {
    LittleEndian(MAGIC, 4) + LittleEndian(VERSION, 2) + LittleEndian(kind, 2) + LittleEndian(payload, 4)
  }

  /** What finish() makes of the header space and the payload written behind it. */
  function Finished(kind: nat, written: Output): Output {
    if written.Unencodable? then written
    else if |written.bytes| > MAX_MESSAGE || |written.bytes| < HEADER then Unencodable(MessageTooLarge, |written.bytes|)
    else Bytes(Header(kind, |written.bytes| - HEADER) + written.bytes[HEADER..])
  }

  /** The output grew by the encoding of one value. */
  ghost predicate Wrote<T>(before: Output, after: Output, c: Codec<T>, value: T) {
    after == Then(before, c.enc(value))
  }

  function Blank(n: nat): (b: seq<u8>)
    ensures |b| == n
  {
    seq(n, _ => 0)
  }

  class Writer {
    const kind: nat
    var bytes: seq<u8>
    var error: Option<Failure>

    ghost function Result(): Output
      reads this
    {
      if error.Some? then Unencodable(error.value.code, error.value.offset) else Bytes(bytes)
    }

    constructor (kind: nat)
      ensures this.kind == kind && Result() == Bytes(Blank(HEADER))
    {
      this.kind, bytes, error := kind, Blank(HEADER), None;
    }

    method Fail(code: Code)
      modifies this
      ensures Result() == Then(old(Result()), Unencodable(code, 0))
    {
      if error.None? {
        error := Some(Failure(code, |bytes|));
      }
    }

    /** scalar(): the bytes of a number, lowest first. */
    method Scalar(value: nat, n: nat)
      modifies this
      ensures Result() == Then(old(Result()), Bytes(LittleEndian(value, n)))
      ensures bytes == old(bytes) + LittleEndian(value, n) && error == old(error)
    {
      for i := 0 to n
        invariant error == old(error)
        invariant bytes == old(bytes) + LittleEndian(value, n)[..i]
      {
        bytes := bytes + [ByteOf(value, i)];
      }
    }

    method U32(value: u32)
      modifies this
      ensures Wrote(old(Result()), Result(), Codecs.U32(), value)
    {
      Scalar(value, 4);
    }

    method Boolean(value: bool)
      modifies this
      ensures Wrote(old(Result()), Result(), Codecs.Boolean(), value)
    {
      Scalar(BoolToNat(value), 1);
    }

    /** floating(): any pattern, finite or not. */
    method Float32(pattern: u32)
      modifies this
      ensures Wrote(old(Result()), Result(), Codecs.Float32(), pattern)
    {
      Scalar(pattern, 4);
    }

    method Enumerator(index: nat, ghost most: u32)
      modifies this
      ensures Wrote(old(Result()), Result(), Codecs.Enumeration(most), index)
    {
      Scalar(index, 4);
    }

    method String(value: Text)
      modifies this
      ensures Wrote(old(Result()), Result(), Codecs.String(), value)
    {
      if |value| > MAX_STRING {
        Fail(StringTooLong);
        return;
      }
      ghost var before := Result();
      Scalar(|value|, 4);
      bytes := bytes + value;
      ThenAssociates(before, Bytes(LittleEndian(|value|, 4)), Bytes(value));
    }

    method Count(n: nat)
      modifies this
      ensures Result() == Then(old(Result()), EncodeCount(n))
    {
      if n > MAX_ARRAY {
        Fail(ArrayTooLong);
        return;
      }
      Scalar(n, 4);
    }

    method WriteHeader(offset: nat, value: nat, n: nat)
      requires offset + n <= |bytes|
      modifies this`bytes
      ensures bytes == old(bytes)[..offset] + LittleEndian(value, n) + old(bytes)[offset + n..]
    {
      for i := 0 to n
        invariant bytes == old(bytes)[..offset] + LittleEndian(value, n)[..i] + old(bytes)[offset + i..]
      {
        bytes := bytes[offset + i := ByteOf(value, i)];
      }
    }

    method Finish() returns (result: Output)
      requires error.None? ==> |bytes| >= HEADER
      modifies this`bytes
      ensures result == Finished(kind, old(Result()))
    {
      if error.Some? {
        return Unencodable(error.value.code, error.value.offset);
      }
      if |bytes| > MAX_MESSAGE {
        return Unencodable(MessageTooLarge, |bytes|);
      }
      ghost var blank := bytes;
      var size := |bytes| - HEADER;
      WriteField([], blank, 0, MAGIC, 4);
      ghost var done := LittleEndian(MAGIC, 4);
      WriteField(done, blank, 4, VERSION, 2);
      done := done + LittleEndian(VERSION, 2);
      WriteField(done, blank, 6, kind, 2);
      done := done + LittleEndian(kind, 2);
      WriteField(done, blank, 8, size, 4);
      return Bytes(bytes);
    }

    /** Fills in the next header field behind those already done. */
    method WriteField(ghost done: seq<u8>, ghost blank: seq<u8>, offset: nat, value: nat, n: nat)
      requires |done| == offset && offset + n <= |blank| && bytes == done + blank[offset..]
      modifies this`bytes
      ensures bytes == (done + LittleEndian(value, n)) + blank[offset + n..]
    {
      WriteHeader(offset, value, n);
    }
  }

  lemma WroteTwo<A, B>(a: Codec<A>, b: Codec<B>, ok: ((A, B)) -> bool, s: Output, t: Output, u: Output, x: A, y: B)
    requires Wrote(s, t, a, x) && Wrote(t, u, b, y)
    ensures Wrote(s, u, Two(a, b, ok), (x, y))
  {
    ThenAssociates(s, a.enc(x), b.enc(y));
  }

  lemma WroteThree<A, B, C>(
    a: Codec<A>, b: Codec<B>, c: Codec<C>, ok: ((A, (B, C))) -> bool,
    s0: Output, s1: Output, s2: Output, s3: Output, x: A, y: B, z: C)
    requires Wrote(s0, s1, a, x) && Wrote(s1, s2, b, y) && Wrote(s2, s3, c, z)
    ensures Wrote(s0, s3, Three(a, b, c, ok), (x, (y, z)))
  {
    WroteTwo(b, c, BothOk(b, c), s1, s2, s3, y, z);
    WroteTwo(a, Two(b, c, BothOk(b, c)), ok, s0, s1, s3, x, (y, z));
  }

  lemma WroteFour<A, B, C, D>(
    a: Codec<A>, b: Codec<B>, c: Codec<C>, d: Codec<D>, ok: ((A, (B, (C, D)))) -> bool,
    s0: Output, s1: Output, s2: Output, s3: Output, s4: Output, x: A, y: B, z: C, w: D)
    requires Wrote(s0, s1, a, x) && Wrote(s1, s2, b, y) && Wrote(s2, s3, c, z) && Wrote(s3, s4, d, w)
    ensures Wrote(s0, s4, Four(a, b, c, d, ok), (x, (y, (z, w))))
  {
    WroteThree(b, c, d, AllThreeOk(b, c, d), s1, s2, s3, s4, y, z, w);
    WroteTwo(a, Three(b, c, d, AllThreeOk(b, c, d)), ok, s0, s1, s4, x, (y, (z, w)));
  }

  lemma WroteDepends<A, B>(a: Codec<A>, b: A -> Codec<B>, ok: ((A, B)) -> bool, s: Output, t: Output, u: Output, x: A, y: B)
    requires Wrote(s, t, a, x) && Wrote(t, u, b(x), y)
    ensures Wrote(s, u, Depends(a, b, ok), (x, y))
  {
    ThenAssociates(s, a.enc(x), b(x).enc(y));
  }

  lemma WroteRecord<A, B>(c: Codec<A>, to: B -> A, from: A -> B, ok: B -> bool, s: Output, t: Output, y: B)
    requires Wrote(s, t, c, to(y))
    ensures Wrote(s, t, Record(c, to, from, ok), y)
  {
  }

  /** A list: its count, then its elements one after the other. */
  ghost predicate WroteSome<T>(before: Output, after: Output, c: Codec<T>, xs: seq<T>) {
    after == Then(before, EncodeAll(c, xs))
  }

  lemma {:induction false} EncodeAllAppend<T>(c: Codec<T>, xs: seq<T>, x: T)
    ensures EncodeAll(c, xs + [x]) == Then(EncodeAll(c, xs), c.enc(x))
  {
    if xs == [] {
      assert EncodeAll(c, [x]) == Then(c.enc(x), EncodeAll(c, []));
    } else {
      EncodeAllAppend(c, xs[1..], x);
      assert (xs + [x])[1..] == xs[1..] + [x];
      ThenAssociates(c.enc(xs[0]), EncodeAll(c, xs[1..]), c.enc(x));
    }
  }

  lemma WroteNext<T>(c: Codec<T>, s: Output, t: Output, u: Output, xs: seq<T>, k: nat)
    requires k < |xs| && WroteSome(s, t, c, xs[..k]) && Wrote(t, u, c, xs[k])
    ensures WroteSome(s, u, c, xs[..k + 1])
  {
    EncodeAllAppend(c, xs[..k], xs[k]);
    assert xs[..k + 1] == xs[..k] + [xs[k]];
    ThenAssociates(s, EncodeAll(c, xs[..k]), c.enc(xs[k]));
  }

  lemma WroteList<T>(c: Codec<T>, accept: nat -> bool, ok: seq<T> -> bool, s: Output, t: Output, u: Output, xs: seq<T>)
    requires t == Then(s, EncodeCount(|xs|)) && WroteSome(t, u, c, xs)
    ensures Wrote(s, u, ListOf(c, accept, ok), xs)
  {
    ThenAssociates(s, EncodeCount(|xs|), EncodeAll(c, xs));
  }

  // Reading.

  datatype ReadState = ReadState(offset: nat, error: Option<Failure>)

  /** The reader went on by one value, or failed where the codec says; it does nothing after a failure. */
  ghost predicate Reads<T>(c: Codec<T>, input: seq<u8>, before: ReadState, after: ReadState, value: T) {
    if before.error.Some? then after == before
    else match c.dec(input, before.offset)
      case Done(t, o) => after == ReadState(o, None) && value == t
      case Malformed(e, o) => after == ReadState(o, Some(Failure(e, o)))
  }

  ghost predicate ReadsCount(input: seq<u8>, before: ReadState, after: ReadState, n: nat) {
    if before.error.Some? then after == before
    else match DecodeCount(input, before.offset)
      case Done(t, o) => after == ReadState(o, None) && n == t
      case Malformed(e, o) => after == ReadState(o, Some(Failure(e, o)))
  }

  class Reader {
    const input: seq<u8>
    var offset: nat
    var version: nat
    var error: Option<Failure>

    ghost function State(): ReadState
      reads this
    {
      ReadState(offset, error)
    }

    ghost predicate Valid()
      reads this
    {
      offset <= |input|
    }

    predicate Ok()
      reads this
    {
      error.None?
    }

    /** The constructor reads and checks the header. */
    constructor (input: seq<u8>, expectedKind: nat)
      ensures this.input == input && Valid()
      ensures Opened(input, expectedKind) == (State(), version)
    {
      this.input := input;
      offset, version, error := 0, 0, None;
      new;
      if |input| > MAX_MESSAGE {
        Fail(MessageTooLarge);
        return;
      }
      if |input| < HEADER {
        Fail(Truncated);
        return;
      }
      var magic := Scalar(4);
      version := Scalar(2);
      var kind := Scalar(2);
      var payload := Scalar(4);
      if magic != MAGIC {
        Fail(InvalidMagic);
      } else if version < OLDEST_VERSION || version > VERSION {
        Fail(UnsupportedVersion);
      } else if kind != expectedKind {
        Fail(UnexpectedMessageKind);
      } else if payload != |input| - HEADER {
        Fail(InvalidLength);
      }
    }

    method Fail(code: Code)
      modifies this`error
      ensures error == if old(error).Some? then old(error) else Some(Failure(code, offset))
    {
      if error.None? {
        error := Some(Failure(code, offset));
      }
    }

    /** require() */
    method Require(size: nat) returns (ok: bool)
      requires Valid()
      modifies this`error
      ensures ok <==> old(error).None? && offset + size <= |input|
      ensures error == if ok || old(error).Some? then old(error) else Some(Failure(Truncated, offset))
    {
      if error.Some? {
        return false;
      }
      if size > |input| - offset {
        Fail(Truncated);
        return false;
      }
      return true;
    }

    method Scalar(n: nat) returns (value: nat)
      requires Valid()
      modifies this`error, this`offset
      ensures Valid() && Reads(Codecs.Scalar(n), input, old(State()), State(), value)
      ensures !Ok() ==> value == 0
    {
      var ok := Require(n);
      if !ok {
        return 0;
      }
      value := Digits(n);
      offset := offset + n;
    }

    /** The value of the next `n` bytes, lowest first. */
    method Digits(n: nat) returns (value: nat)
      requires offset + n <= |input|
      ensures value == FromLittleEndian(input[offset..offset + n])
    {
      value := 0;
      ghost var digits := input[offset..offset + n];
      for i := 0 to n
        invariant value + Power(i) * FromLittleEndian(digits[i..]) == FromLittleEndian(digits)
      {
        NextDigit(digits[i..], Power(i));
        assert digits[i..][1..] == digits[i + 1..];
        value := value + input[offset + i] * Power(i);
      }
      assert digits[n..] == [];
    }

    method U32() returns (value: u32)
      requires Valid()
      modifies this`error, this`offset
      ensures Valid() && Reads(Codecs.U32(), input, old(State()), State(), value)
    {
      var n := Scalar(4);
      value := AsU32(n);
    }

    method Boolean() returns (value: bool)
      requires Valid()
      modifies this`error, this`offset
      ensures Valid() && Reads(Codecs.Boolean(), input, old(State()), State(), value)
    {
      var n := Scalar(1);
      if Ok() && n > 1 {
        Fail(InvalidBoolean);
      }
      value := n == 1;
    }

    method Float32() returns (pattern: u32)
      requires Valid()
      modifies this`error, this`offset
      ensures Valid() && Reads(Codecs.Float32(), input, old(State()), State(), pattern)
    {
      pattern := U32();
      if Ok() && !Finite32(pattern) {
        Fail(InvalidValue);
      }
    }

    method Enumerator(most: u32) returns (index: nat)
      requires Valid()
      modifies this`error, this`offset
      ensures Valid() && Reads(Codecs.Enumeration(most), input, old(State()), State(), index)
    {
      index := Scalar(4);
      if Ok() && index > most {
        Fail(UnknownEnum);
      }
    }

    method String() returns (value: Text)
      requires Valid()
      modifies this`error, this`offset
      ensures Valid() && Reads(Codecs.String(), input, old(State()), State(), value)
    {
      var length := Scalar(4);
      if !Ok() {
        return [];
      }
      if length > MAX_STRING {
        Fail(StringTooLong);
        return [];
      }
      var ok := Require(length);
      if !ok {
        return [];
      }
      value := input[offset..offset + length];
      offset := offset + length;
    }

    method Count() returns (n: nat)
      requires Valid()
      modifies this`error, this`offset
      ensures Valid() && ReadsCount(input, old(State()), State(), n)
    {
      n := Scalar(4);
      if Ok() && n > MAX_ARRAY {
        Fail(ArrayTooLong);
        return 0;
      }
      if Ok() && n > |input| - offset {
        Fail(Truncated);
        return 0;
      }
    }

    /** finish(): nothing may be left. */
    method Finish()
      requires Valid()
      modifies this`error
      ensures error == if old(error).None? && offset != |input| then Some(Failure(TrailingBytes, offset)) else old(error)
    {
      if Ok() && offset != |input| {
        Fail(TrailingBytes);
      }
    }
  }

  lemma NextDigit(digits: seq<u8>, power: nat)
    requires digits != []
    ensures power * FromLittleEndian(digits) == digits[0] * power + (0x100 * power) * FromLittleEndian(digits[1..])
  {
    Distribute(power, digits[0], 0x100, FromLittleEndian(digits[1..]));
  }

  lemma Distribute(p: nat, a: nat, b: nat, c: nat)
    ensures p * (a + b * c) == a * p + (b * p) * c
  {
    assert p * (a + b * c) == p * a + p * (b * c);
    assert p * (b * c) == (b * p) * c;
  }

  /** The state of a reader after its constructor, and the version it found. */
  function Opened(input: seq<u8>, expectedKind: nat): (ReadState, nat) {
    if |input| > MAX_MESSAGE then (ReadState(0, Some(Failure(MessageTooLarge, 0))), 0)
    else if |input| < HEADER then (ReadState(0, Some(Failure(Truncated, 0))), 0)
    else
      var version := FromLittleEndian(input[4..6]);
      (ReadState(HEADER, HeaderError(input, expectedKind)), version)
  }

  function HeaderError(input: seq<u8>, expectedKind: nat): Option<Failure>
    requires |input| >= HEADER
  {
    var version := FromLittleEndian(input[4..6]);
    if FromLittleEndian(input[0..4]) != MAGIC then Some(Failure(InvalidMagic, HEADER))
    else if version < OLDEST_VERSION || version > VERSION then Some(Failure(UnsupportedVersion, HEADER))
    else if FromLittleEndian(input[6..8]) != expectedKind then Some(Failure(UnexpectedMessageKind, HEADER))
    else if FromLittleEndian(input[8..12]) != |input| - HEADER then Some(Failure(InvalidLength, HEADER))
    else None
  }

  lemma ReadsTwo<A, B>(
    a: Codec<A>, b: Codec<B>, ok: ((A, B)) -> bool, input: seq<u8>, s: ReadState, t: ReadState, u: ReadState, x: A, y: B)
    requires Reads(a, input, s, t, x) && Reads(b, input, t, u, y)
    ensures Reads(Two(a, b, ok), input, s, u, (x, y))
  {
  }

  lemma ReadsThree<A, B, C>(
    a: Codec<A>, b: Codec<B>, c: Codec<C>, ok: ((A, (B, C))) -> bool, input: seq<u8>,
    s0: ReadState, s1: ReadState, s2: ReadState, s3: ReadState, x: A, y: B, z: C)
    requires Reads(a, input, s0, s1, x) && Reads(b, input, s1, s2, y) && Reads(c, input, s2, s3, z)
    ensures Reads(Three(a, b, c, ok), input, s0, s3, (x, (y, z)))
  {
    ReadsTwo(b, c, BothOk(b, c), input, s1, s2, s3, y, z);
    ReadsTwo(a, Two(b, c, BothOk(b, c)), ok, input, s0, s1, s3, x, (y, z));
  }

  lemma ReadsFour<A, B, C, D>(
    a: Codec<A>, b: Codec<B>, c: Codec<C>, d: Codec<D>, ok: ((A, (B, (C, D)))) -> bool, input: seq<u8>,
    s0: ReadState, s1: ReadState, s2: ReadState, s3: ReadState, s4: ReadState, x: A, y: B, z: C, w: D)
    requires Reads(a, input, s0, s1, x) && Reads(b, input, s1, s2, y) && Reads(c, input, s2, s3, z) && Reads(d, input, s3, s4, w)
    ensures Reads(Four(a, b, c, d, ok), input, s0, s4, (x, (y, (z, w))))
  {
    ReadsThree(b, c, d, AllThreeOk(b, c, d), input, s1, s2, s3, s4, y, z, w);
    ReadsTwo(a, Three(b, c, d, AllThreeOk(b, c, d)), ok, input, s0, s1, s4, x, (y, (z, w)));
  }

  lemma ReadsDepends<A, B>(
    a: Codec<A>, b: A -> Codec<B>, ok: ((A, B)) -> bool, input: seq<u8>, s: ReadState, t: ReadState, u: ReadState, x: A, y: B)
    requires Reads(a, input, s, t, x) && Reads(b(x), input, t, u, y)
    ensures Reads(Depends(a, b, ok), input, s, u, (x, y))
  {
  }

  lemma ReadsRecord<A, B>(
    c: Codec<A>, to: B -> A, from: A -> B, ok: B -> bool, input: seq<u8>, s: ReadState, t: ReadState, x: A)
    requires Reads(c, input, s, t, x)
    ensures Reads(Record(c, to, from, ok), input, s, t, from(x))
  {
  }

  /** Between the elements of a list: those read so far, and those still to come, are what decodes. */
  ghost predicate Progress<T>(c: Codec<T>, input: seq<u8>, start: ReadState, now: ReadState, n: nat, sofar: seq<T>) {
    var all := DecodeAll(c, input, start.offset, n);
    if now.error.Some? then now.error.value.offset == now.offset && all == Malformed(now.error.value.code, now.offset)
    else |sofar| <= n && match DecodeAll(c, input, now.offset, n - |sofar|)
      case Malformed(e, o) => all == Malformed(e, o)
      case Done(xs, o) => all == Done(sofar + xs, o)
  }

  lemma ProgressStarts<T>(c: Codec<T>, input: seq<u8>, start: ReadState, n: nat)
    requires start.error.None?
    ensures Progress(c, input, start, start, n, [])
  {
    var all := DecodeAll(c, input, start.offset, n);
    if all.Done? {
      assert [] + all.value == all.value;
    }
  }

  lemma ProgressNext<T>(c: Codec<T>, input: seq<u8>, start: ReadState, now: ReadState, next: ReadState, n: nat, sofar: seq<T>, x: T)
    requires Progress(c, input, start, now, n, sofar) && now.error.None? && |sofar| < n && Reads(c, input, now, next, x)
    ensures Progress(c, input, start, next, n, sofar + [x])
  {
    if next.error.None? {
      var rest := DecodeAll(c, input, next.offset, n - |sofar| - 1);
      if rest.Done? {
        assert sofar + ([x] + rest.value) == sofar + [x] + rest.value;
      }
    }
  }

  lemma ReadsList<T>(c: Codec<T>, accept: nat -> bool, ok: seq<T> -> bool, input: seq<u8>, s: ReadState, t: ReadState, u: ReadState, n: nat, xs: seq<T>)
    requires ReadsCount(input, s, t, n)
    requires s.error.None? && t.error.None? ==>
               if accept(n) then Progress(c, input, t, u, n, xs) && (u.error.Some? || |xs| == n)
               else u == ReadState(t.offset, Some(Failure(InvalidValue, t.offset)))
    requires t.error.Some? ==> u == t
    ensures Reads(ListOf(c, accept, ok), input, s, u, xs)
  {
    if s.error.None? && t.error.None? && accept(n) && u.error.None? {
      assert DecodeAll(c, input, u.offset, 0) == Done([], u.offset);
      assert xs + [] == xs;
    }
  }
}
