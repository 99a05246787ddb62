/** Whole messages: the header, one value, and nothing behind it. */
module WireMessage {
  import opened Basics
  import opened Codecs
  import opened Refusals
  import opened WireStream

  /** What an encoder returns for a value. */
  function EncodeMessage<T>(kind: nat, c: Codec<T>, value: T): Output {
    Finished(kind, Then(Bytes(Blank(HEADER)), c.enc(value)))
  }

  /** The codec of a message depends on the version in its header. */
  function DecodeMessage<T>(kind: nat, c: nat -> Codec<T>, input: seq<u8>): Input<T> {
    var (state, version) := Opened(input, kind);
    if state.error.Some? then Malformed(state.error.value.code, state.error.value.offset)
    else Closed(input, c(version).dec(input, state.offset))
  }

  function Closed<T>(input: seq<u8>, r: Input<T>): Input<T> {
    if r.Done? && r.offset != |input| then Malformed(TrailingBytes, r.offset) else r
  }

  lemma SameEncoding<T>(kind: nat, c: Codec<T>, t: T, u: T)
    requires c.enc(t) == c.enc(u)
    ensures EncodeMessage(kind, c, t) == EncodeMessage(kind, c, u)
  {
  }

  lemma MessageSize<T>(kind: nat, c: Codec<T>, value: T, bytes: seq<u8>)
    requires EncodeMessage(kind, c, value) == Bytes(bytes)
    ensures HEADER <= |bytes| <= MAX_MESSAGE
  {
  }

  lemma ReadHeader(kind: nat, payload: nat)
    requires kind < 0x1_0000 && payload <= MAX_MESSAGE
    ensures var h := Header(kind, payload);
            && FromLittleEndian(h[0..4]) == MAGIC && FromLittleEndian(h[4..6]) == VERSION
            && FromLittleEndian(h[6..8]) == kind && FromLittleEndian(h[8..12]) == payload
  {
    var h := Header(kind, payload);
    var start := LittleEndian(MAGIC, 4) + LittleEndian(VERSION, 2) + LittleEndian(kind, 2);
    assert h == start + LittleEndian(payload, 4) && |start| == 8;
    assert h[0..4] == LittleEndian(MAGIC, 4);
    assert h[4..6] == LittleEndian(VERSION, 2);
    assert h[6..8] == LittleEndian(kind, 2);
    assert h[8..] == LittleEndian(payload, 4);
    assert h[8..12] == h[8..];
    LengthsFit(kind, payload);
    IntegersRoundTrip(MAGIC, 4);
    IntegersRoundTrip(VERSION, 2);
    IntegersRoundTrip(kind, 2);
    IntegersRoundTrip(payload, 4);
  }

  lemma LengthsFit(kind: nat, payload: nat)
    requires kind < 0x1_0000 && payload <= MAX_MESSAGE
    ensures kind < Power(2) && VERSION < Power(2) && payload < Power(4) && MAGIC < Power(4)
  {
    PowerOfFour();
    assert Power(2) == 0x100 * Power(1);
  }

  /** An encoded message opens with its own kind and the current version. */
  lemma EncodedOpens(kind: nat, payload: seq<u8>)
    requires kind < 0x1_0000 && HEADER + |payload| <= MAX_MESSAGE
    ensures Opened(Header(kind, |payload|) + payload, kind) == (ReadState(HEADER, None), VERSION)
  {
    var h, input := Header(kind, |payload|), Header(kind, |payload|) + payload;
    ReadHeader(kind, |payload|);
    assert input[0..4] == h[0..4] && input[4..6] == h[4..6] && input[6..8] == h[6..8] && input[8..12] == h[8..12];
  }

  /** Decoding an encoded message returns its value. */
  lemma MessageRoundTrips<T(!new)>(kind: nat, c: nat -> Codec<T>, ok: T -> bool, value: T, bytes: seq<u8>)
    requires kind < 0x1_0000 && LawfulOn(c(VERSION), ok) && ok(value) && EncodeMessage(kind, c(VERSION), value) == Bytes(bytes)
    ensures DecodeMessage(kind, c, bytes) == Done(value, |bytes|)
  {
    var payload := c(VERSION).enc(value).bytes;
    assert (Blank(HEADER) + payload)[HEADER..] == payload;
    assert bytes == Header(kind, |payload|) + payload;
    EncodedOpens(kind, payload);
    assert At(bytes, HEADER, payload);
  }

  /** The header of a message that opens in the current version is the one that the encoder writes. */
  lemma OpenedHeader(kind: nat, input: seq<u8>)
    requires Opened(input, kind) == (ReadState(HEADER, None), VERSION)
    ensures HEADER <= |input| <= MAX_MESSAGE && input[..HEADER] == Header(kind, |input| - HEADER)
  {
    IntegersAreCanonical(input[0..4]);
    IntegersAreCanonical(input[4..6]);
    IntegersAreCanonical(input[6..8]);
    IntegersAreCanonical(input[8..12]);
    assert input[..HEADER] == input[0..4] + input[4..6] + input[6..8] + input[8..12];
  }

  /** Whatever decodes in the current version is what the encoder writes for that value. */
  lemma MessagesAreCanonical<T(!new)>(kind: nat, c: nat -> Codec<T>, ok: T -> bool, input: seq<u8>)
    requires LawfulOn(c(VERSION), ok)
    requires DecodeMessage(kind, c, input).Done? && Opened(input, kind).1 == VERSION
    ensures var r := DecodeMessage(kind, c, input);
            ok(r.value) && EncodeMessage(kind, c(VERSION), r.value) == Bytes(input)
  {
    OpenedHeader(kind, input);
    var r := c(VERSION).dec(input, HEADER);
    var payload := input[HEADER..];
    assert input[HEADER..r.offset] == payload;
    assert (Blank(HEADER) + payload)[HEADER..] == payload;
    assert input == Header(kind, |payload|) + payload;
  }

  /** Two messages of one version that decode to the same value are the same bytes. */
  lemma NoTwoMessagesMeanTheSame<T(!new)>(kind: nat, c: nat -> Codec<T>, a: seq<u8>, b: seq<u8>)
    requires Lawful(c(VERSION)) && DecodeMessage(kind, c, a).Done? && DecodeMessage(kind, c, b).Done?
    requires Opened(a, kind).1 == VERSION && Opened(b, kind).1 == VERSION
    requires DecodeMessage(kind, c, a).value == DecodeMessage(kind, c, b).value
    ensures a == b
  {
    MessagesAreCanonical(kind, c, c(VERSION).ok, a);
    MessagesAreCanonical(kind, c, c(VERSION).ok, b);
  }

  /** A writer that has written one value finishes with its message. */
  lemma FinishedMessage<T>(kind: nat, c: Codec<T>, value: T, written: Output)
    requires Wrote(Bytes(Blank(HEADER)), written, c, value)
    ensures Finished(kind, written) == EncodeMessage(kind, c, value)
    ensures written.Bytes? ==> |written.bytes| >= HEADER
  {
  }

  /** What a decoder returns from the last state of its reader: the value or the first error. */
  function Ended<T>(input: seq<u8>, t: ReadState, value: T): Input<T> {
    if t.error.Some? then Malformed(t.error.value.code, t.error.value.offset) else Closed(input, Done(value, t.offset))
  }

  /** A reader that has opened a message and read one value ends where the decoder of messages does. */
  lemma ReadMessage<T>(kind: nat, c: nat -> Codec<T>, input: seq<u8>, s: ReadState, version: nat, t: ReadState, value: T)
    requires Opened(input, kind) == (s, version) && s.error.None? && Reads(c(version), input, s, t, value)
    ensures DecodeMessage(kind, c, input) == Ended(input, t, value)
  {
  }

  lemma NotOpened<T>(kind: nat, c: nat -> Codec<T>, input: seq<u8>, s: ReadState, version: nat)
    requires Opened(input, kind) == (s, version) && s.error.Some?
    ensures DecodeMessage(kind, c, input) == Malformed(s.error.value.code, s.error.value.offset)
  {
  }

  /** The end of a decoder: finish(), and the value or the error. */
  method Conclude<T>(r: Reader, value: T) returns (result: Input<T>)
    requires r.Valid()
    modifies r`error
    ensures result == Ended(r.input, old(r.State()), value)
  {
    r.Finish();
    if !r.Ok() {
      return Malformed(r.error.value.code, r.error.value.offset);
    }
    return Done(value, r.offset);
  }

  lemma RefusedMessage<T>(kind: nat, c: nat -> Codec<T>, input: seq<u8>, code: Code)
    requires Opened(input, kind) == (ReadState(HEADER, None), VERSION)
    requires Refuses(c(VERSION).dec(input, HEADER), code)
    ensures Refuses(DecodeMessage(kind, c, input), code)
  {
  }

  /** A message is refused when its value stops the decoder. */
  lemma StoppedMessage<T(!new)>(kind: nat, c: nat -> Codec<T>, value: T, bytes: seq<u8>, code: Code)
    requires kind < 0x1_0000 && Stops(c(VERSION), value, code) && EncodeMessage(kind, c(VERSION), value) == Bytes(bytes)
    ensures Refuses(DecodeMessage(kind, c, bytes), code)
  {
    var payload := c(VERSION).enc(value).bytes;
    assert (Blank(HEADER) + payload)[HEADER..] == payload;
    assert bytes == Header(kind, |payload|) + payload;
    EncodedOpens(kind, payload);
    assert At(bytes, HEADER, payload);
    RefusedMessage(kind, c, bytes, code);
  }
}
