/** Writing and reading session files field by field and in loops, into a growing byte vector and from a
    reader that answers whether it could read. */
module SessionStream {
  import opened Basics
  import opened Codecs
  import opened WireStream
  import opened WireCommand
  import opened SessionCodec
  import opened SessionDocument
  import opened SessionFile
  import PresetFile
  import AudioRuntime
  import ControlCommand

  class ByteVector {
    var bytes: seq<u8>

    constructor ()
      ensures bytes == []
    {
      bytes := [];
    }

    ghost function Written(): Output
      reads this
    {
      Bytes(bytes)
    }

    /** append_integer() */
    method Integer(value: nat, n: nat)
      modifies this
      ensures bytes == old(bytes) + LittleEndian(value, n)
    {
      for i := 0 to n
        invariant bytes == old(bytes) + LittleEndian(value, n)[..i]
      {
        bytes := bytes + [ByteOf(value, i)];
      }
    }

    method U32(value: u32)
      modifies this
      ensures Wrote(old(Written()), Written(), Codecs.U32(), value)
    {
      Integer(value, 4);
    }

    /** A value in one byte. */
    method Byte(value: nat, ghost most: u8)
      modifies this
      ensures Wrote(old(Written()), Written(), SessionCodec.Byte(most), value)
    {
      Integer(value, 1);
    }

    method Flag(value: bool)
      modifies this
      ensures Wrote(old(Written()), Written(), SessionCodec.Flag(), value)
    {
      Byte(BoolToNat(value), 1);
      WroteRecord(SessionCodec.Byte(1), BoolToNat, NatToBool, Any(), old(Written()), Written(), value);
    }

    /** append_string() */
    method String(value: Text)
      modifies this
      ensures Wrote(old(Written()), Written(), LongText(), value)
    {
      Integer(|value|, 4);
      bytes := bytes + value;
    }

    /** Overwrites `n` bytes. */
    method Patch(offset: nat, value: nat, n: nat)
      requires offset + n <= |bytes|
      modifies this
      ensures bytes == old(bytes)[..offset] + LittleEndian(value, n) + old(bytes)[offset + n..]
    {
      for i := 0 to n
        invariant bytes == old(bytes)[..offset] + LittleEndian(value, n)[..i] + old(bytes)[offset + i..]
      {
        bytes := bytes[offset + i := ByteOf(value, i)];
      }
    }
  }

  lemma WroteCounted<T>(c: Codec<T>, accept: nat -> bool, ok: seq<T> -> bool, s: Output, t: Output, u: Output, xs: seq<T>)
    requires t == Then(s, Bytes(LittleEndian(|xs|, COUNT_BYTES))) && WroteSome(t, u, c, xs)
    ensures Wrote(s, u, Counted(c, accept, ok), xs)
  {
    ThenAssociates(s, Bytes(LittleEndian(|xs|, COUNT_BYTES)), EncodeAll(c, xs));
  }

  method WriteDirection(v: ByteVector, x: AudioRuntime.Direction)
    modifies v
    ensures Wrote(old(v.Written()), v.Written(), DirectionByte(), x)
  {
    v.Byte(DirectionIndex(x), 1);
    WroteRecord(Byte(1), DirectionIndex, DirectionAt, Any(), old(v.Written()), v.Written(), x);
  }

  method WriteBackend(v: ByteVector, x: AudioRuntime.Backend)
    modifies v
    ensures Wrote(old(v.Written()), v.Written(), BackendByte(), x)
  {
    v.Byte(BackendIndex(x), 1);
    WroteRecord(Byte(1), BackendIndex, BackendAt, Any(), old(v.Written()), v.Written(), x);
  }

  method WriteMode(v: ByteVector, x: AudioRuntime.Mode)
    modifies v
    ensures Wrote(old(v.Written()), v.Written(), ModeByte(NEWEST), x)
  {
    v.Byte(ModeIndex(x), LastModeIn(NEWEST));
    WroteRecord(Byte(LastModeIn(NEWEST)), ModeIndex, ModeAt, ModeIn(NEWEST), old(v.Written()), v.Written(), x);
  }

  method WriteEndpointStart(v: ByteVector, b: Base)
    modifies v
    ensures Wrote(old(v.Written()), v.Written(), EndpointStart(), BaseToTuple(b).0)
  {
    ghost var s0 := v.Written();
    v.String(b.id);
    ghost var s1 := v.Written();
    v.String(b.device);
    ghost var s2 := v.Written();
    WriteDirection(v, b.direction);
    WroteThree(LongText(), LongText(), DirectionByte(), ShortStart,
      s0, s1, s2, v.Written(), b.id, b.device, b.direction);
  }

  method WriteEndpointRest(v: ByteVector, b: Base)
    modifies v
    ensures Wrote(old(v.Written()), v.Written(), EndpointRest(), BaseToTuple(b).1)
  {
    ghost var s0 := v.Written();
    v.Flag(b.clockMaster);
    ghost var s1 := v.Written();
    v.U32(b.firstChannel);
    ghost var s2 := v.Written();
    v.U32(b.channelCount);
    WroteThree(Flag(), U32(), U32(), Any(),
      s0, s1, s2, v.Written(), b.clockMaster, b.firstChannel, b.channelCount);
  }

  method WriteEndpoint(v: ByteVector, b: Base)
    modifies v
    ensures Wrote(old(v.Written()), v.Written(), EndpointCodec(), b)
  {
    ghost var s0 := v.Written();
    WriteEndpointStart(v, b);
    ghost var s1 := v.Written();
    WriteEndpointRest(v, b);
    WroteTwo(EndpointStart(), EndpointRest(), ShortTuple,
      s0, s1, v.Written(), BaseToTuple(b).0, BaseToTuple(b).1);
    WroteRecord(EndpointTuples(), BaseToTuple, BaseFromTuple, ShortBase, s0, v.Written(), b);
  }

  method WriteEndpoints(v: ByteVector, xs: seq<Base>)
    modifies v
    ensures Wrote(old(v.Written()), v.Written(), EndpointField(NEWEST), xs)
  {
    ghost var s := v.Written();
    v.Integer(|xs|, 4);
    ghost var t := v.Written();
    for k := 0 to |xs|
      invariant WroteSome(t, v.Written(), EndpointCodec(), xs[..k])
    {
      ghost var u := v.Written();
      WriteEndpoint(v, xs[k]);
      WroteNext(EndpointCodec(), t, u, v.Written(), xs, k);
    }
    assert xs[..|xs|] == xs;
    WroteCounted(EndpointCodec(), UpTo(AudioRuntime.MAX_ENDPOINTS), EndpointsFit, s, t, v.Written(), xs);
  }

  method WriteRuntime(v: ByteVector, a: AudioRuntime.Configuration)
    modifies v
    ensures Wrote(old(v.Written()), v.Written(), RuntimeFields(NEWEST), RuntimeOf(a))
  {
    ghost var s0 := v.Written();
    WriteMode(v, a.mode);
    ghost var s1 := v.Written();
    v.String(a.captureDevice);
    ghost var s2 := v.Written();
    v.String(a.renderDevice);
    ghost var s3 := v.Written();
    WriteEndpoints(v, Bases(a.endpoints));
    WroteFour(ModeByte(NEWEST), LongText(), LongText(), EndpointField(NEWEST), RuntimeIn(NEWEST),
      s0, s1, s2, s3, v.Written(), a.mode, a.captureDevice, a.renderDevice, Bases(a.endpoints));
  }

  method WriteChannels(v: ByteVector, xs: seq<u32>)
    modifies v
    ensures Wrote(old(v.Written()), v.Written(), ChannelList(), xs)
  {
    ghost var s := v.Written();
    v.Integer(|xs|, 4);
    ghost var t := v.Written();
    for k := 0 to |xs|
      invariant WroteSome(t, v.Written(), U32(), xs[..k])
    {
      ghost var u := v.Written();
      v.U32(xs[k]);
      WroteNext(U32(), t, u, v.Written(), xs, k);
    }
    assert xs[..|xs|] == xs;
    WroteCounted(U32(), UpTo(AudioRuntime.MAX_ASIO_CHANNELS), ChannelsFit, s, t, v.Written(), xs);
  }

  method WriteFormat(v: ByteVector, a: AudioRuntime.Configuration)
    modifies v
    ensures Wrote(old(v.Written()), v.Written(), FormatFields(), DriverOf(a).0)
  {
    ghost var s0 := v.Written();
    v.String(a.clsid);
    ghost var s1 := v.Written();
    v.U32(a.asioSampleRate);
    ghost var s2 := v.Written();
    v.U32(a.asioBlockFrames);
    WroteThree(LongText(), U32(), U32(), ShortFormat,
      s0, s1, s2, v.Written(), a.clsid, a.asioSampleRate, a.asioBlockFrames);
  }

  method WriteChannelLists(v: ByteVector, a: AudioRuntime.Configuration)
    modifies v
    ensures Wrote(old(v.Written()), v.Written(), ChannelLists(), DriverOf(a).1)
  {
    ghost var s0 := v.Written();
    WriteChannels(v, a.asioInputs);
    ghost var s1 := v.Written();
    WriteChannels(v, a.asioOutputs);
    WroteTwo(ChannelList(), ChannelList(), BothChannelsFit,
      s0, s1, v.Written(), a.asioInputs, a.asioOutputs);
  }

  method WriteDriver(v: ByteVector, a: AudioRuntime.Configuration)
    modifies v
    ensures Wrote(old(v.Written()), v.Written(), DriverField(NEWEST), DriverOf(a))
  {
    ghost var s0 := v.Written();
    WriteFormat(v, a);
    ghost var s1 := v.Written();
    WriteChannelLists(v, a);
    WroteTwo(FormatFields(), ChannelLists(), DriverFits,
      s0, s1, v.Written(), DriverOf(a).0, DriverOf(a).1);
  }

  method WriteIdentity(v: ByteVector, d: ControlCommand.VirtualAsioDevice)
    modifies v
    ensures Wrote(old(v.Written()), v.Written(), IdentityFields(), DeviceToTuple(d).0)
  {
    ghost var s0 := v.Written();
    v.String(d.deviceId);
    ghost var s1 := v.Written();
    v.String(d.clsid);
    ghost var s2 := v.Written();
    v.String(d.registryName);
    ghost var s3 := v.Written();
    v.String(d.brokerToken);
    WroteFour(LongText(), LongText(), LongText(), LongText(), ShortTexts,
      s0, s1, s2, s3, v.Written(), d.deviceId, d.clsid, d.registryName, d.brokerToken);
  }

  method WriteDeviceFlags(v: ByteVector, d: ControlCommand.VirtualAsioDevice)
    modifies v
    ensures Wrote(old(v.Written()), v.Written(), DeviceFlags(), DeviceToTuple(d).1)
  {
    ghost var s0 := v.Written();
    v.U32(d.inputChannels);
    ghost var s1 := v.Written();
    v.U32(d.outputChannels);
    ghost var s2 := v.Written();
    v.Flag(d.enabled);
    WroteThree(U32(), U32(), Flag(), Any(),
      s0, s1, s2, v.Written(), d.inputChannels, d.outputChannels, d.enabled);
  }

  method WriteDevice(v: ByteVector, d: ControlCommand.VirtualAsioDevice)
    modifies v
    ensures Wrote(old(v.Written()), v.Written(), AsioDevice(), d)
  {
    ghost var s0 := v.Written();
    WriteIdentity(v, d);
    ghost var s1 := v.Written();
    WriteDeviceFlags(v, d);
    WroteTwo(IdentityFields(), DeviceFlags(), ShortDeviceTuple,
      s0, s1, v.Written(), DeviceToTuple(d).0, DeviceToTuple(d).1);
    WroteRecord(AsioDeviceTuples(), DeviceToTuple, DeviceFromTuple, ShortDevice, s0, v.Written(), d);
  }

  method WriteDevices(v: ByteVector, xs: seq<ControlCommand.VirtualAsioDevice>)
    modifies v
    ensures Wrote(old(v.Written()), v.Written(), DeviceField(NEWEST), xs)
  {
    ghost var s := v.Written();
    v.Integer(|xs|, 4);
    ghost var t := v.Written();
    for k := 0 to |xs|
      invariant WroteSome(t, v.Written(), AsioDevice(), xs[..k])
    {
      ghost var u := v.Written();
      WriteDevice(v, xs[k]);
      WroteNext(AsioDevice(), t, u, v.Written(), xs, k);
    }
    assert xs[..|xs|] == xs;
    WroteCounted(AsioDevice(), DeviceCount, DevicesFit, s, t, v.Written(), xs);
  }

  method WriteExtension(v: ByteVector, x: Extension)
    modifies v
    ensures Wrote(old(v.Written()), v.Written(), SessionExtension(), x)
  {
    ghost var s0 := v.Written();
    WriteBackend(v, x.backend);
    ghost var s1 := v.Written();
    v.String(x.group);
    ghost var s2 := v.Written();
    v.U32(x.sampleRate);
    ghost var s3 := v.Written();
    v.U32(x.blockFrames);
    WroteFour(BackendByte(), LongText(), U32(), U32(), ShortExtensionTuple,
      s0, s1, s2, s3, v.Written(), x.backend, x.group, x.sampleRate, x.blockFrames);
    WroteRecord(ExtensionFields(), ExtensionToTuple, ExtensionFromTuple, ShortGroup, s0, v.Written(), x);
  }

  method WriteExtensions(v: ByteVector, xs: seq<Extension>)
    modifies v
    ensures Wrote(old(v.Written()), v.Written(), ExtensionField(NEWEST, |xs|), xs)
  {
    ghost var s := v.Written();
    v.Integer(|xs|, 4);
    ghost var t := v.Written();
    for k := 0 to |xs|
      invariant WroteSome(t, v.Written(), SessionExtension(), xs[..k])
    {
      ghost var u := v.Written();
      WriteExtension(v, xs[k]);
      WroteNext(SessionExtension(), t, u, v.Written(), xs, k);
    }
    assert xs[..|xs|] == xs;
    WroteCounted(SessionExtension(), Exactly(|xs|), GroupsOfLength(|xs|), s, t, v.Written(), xs);
  }

  method WriteBody(v: ByteVector, s: Session)
    modifies v
    ensures Wrote(old(v.Written()), v.Written(), SessionBodyCodec(NEWEST), BodyOf(s))
  {
    ghost var s0 := v.Written();
    WriteRuntime(v, s.runtime);
    ghost var s1 := v.Written();
    WriteDriver(v, s.runtime);
    ghost var s2 := v.Written();
    v.Flag(s.autoStart);
    ghost var s3 := v.Written();
    WriteDevices(v, s.devices);
    WroteFour(RuntimeFields(NEWEST), DriverField(NEWEST), Flag(), DeviceField(NEWEST), BodyIn(NEWEST),
      s0, s1, s2, s3, v.Written(), RuntimeOf(s.runtime), DriverOf(s.runtime), s.autoStart, s.devices);
  }

  method WriteRest(v: ByteVector, s: Session)
    modifies v
    ensures Wrote(old(v.Written()), v.Written(), RestCodec(NEWEST), RestOf(s))
  {
    ghost var s0 := v.Written();
    WriteBody(v, s);
    ghost var s1 := v.Written();
    WriteExtensions(v, Extensions(s.runtime.endpoints));
    WroteRest(SessionBodyCodec(NEWEST), s0, s1, v.Written(), s);
  }

  lemma WroteRest(body: Codec<SessionBody>, s0: Output, s1: Output, s2: Output, s: Session)
    requires Wrote(s0, s1, body, BodyOf(s))
    requires Wrote(s1, s2, ExtensionField(NEWEST, |s.runtime.endpoints|), Extensions(s.runtime.endpoints))
    ensures Wrote(s0, s2, RestOver(body, NEWEST), RestOf(s))
  {
    hide ExtensionField;
    WroteDepends(body, ExtensionsAfterBody(NEWEST), RestIn(NEWEST), s0, s1, s2, BodyOf(s), Extensions(s.runtime.endpoints));
  }

  /** The header with no size yet. */
  method WriteHeader(v: ByteVector)
    requires v.bytes == []
    modifies v
    ensures v.bytes == FileHeader(0)
  {
    v.bytes := v.bytes + Magic();
    v.Integer(NEWEST, 2);
    v.Integer(0, 2);
    v.Integer(0, 4);
  }

  method WriteStart(v: ByteVector, schema: u32, presetFile: seq<u8>)
    modifies v
    ensures Wrote(old(v.Written()), v.Written(), StartCodec(), (schema, presetFile))
  {
    ghost var s0 := v.Written();
    v.Integer(schema, 4);
    ghost var s1 := v.Written();
    v.String(presetFile);
    assert Wrote(s1, v.Written(), Blob(), presetFile);
    WroteTwo(Schema(), Blob(), StartFits, s0, s1, v.Written(), schema, presetFile);
  }

  lemma WrotePayload(header: seq<u8>, s1: Output, written: seq<u8>, s: Session, presetFile: seq<u8>)
    requires Wrote(Bytes(header), s1, StartCodec(), (s.schemaVersion, presetFile))
    requires Wrote(s1, Bytes(written), RestCodec(NEWEST), RestOf(s))
    ensures Payload(s, presetFile).Bytes? && written == header + Payload(s, presetFile).bytes
  {
    hide StartCodec, RestCodec, RestOf;
    ThenAssociates(Bytes(header), StartCodec().enc((s.schemaVersion, presetFile)), RestCodec(NEWEST).enc(RestOf(s)));
  }

  lemma PatchedHeader(payload: seq<u8>)
    ensures (FileHeader(0) + payload)[..8] + LittleEndian(|payload|, 4) + (FileHeader(0) + payload)[12..]
         == FileHeader(|payload|) + payload
  {
  }

  /** encode_session_file() */
  method EncodeSessionFile(s: Session) returns (result: EncodeResult)
    ensures result == EncodeSession(s)
  {
    hide Errors, PresetFile.EncodePresetFile, Payload;
    var errors := Validate(s);
    if errors != [] {
      return NotEncoded(InvalidSession);
    }
    var preset := PresetFile.EncodePresetFile(s.preset);
    if preset.NotEncoded? {
      return NotEncoded(InvalidSession);
    }
    if |preset.bytes| > U32_MAX {
      return NotEncoded(InvalidSessionFile);
    }
    var v := new ByteVector();
    WriteHeader(v);
    WritePayload(v, s, preset.bytes);
    ghost var payload := Payload(s, preset.bytes).bytes;
    if |v.bytes| > MAX_FILE {
      return NotEncoded(InvalidSessionFile);
    }
    PatchedHeader(payload);
    v.Patch(8, |v.bytes| - FILE_HEADER, 4);
    return Encoded(v.bytes);
  }

  method WritePayload(v: ByteVector, s: Session, presetFile: seq<u8>)
    modifies v
    ensures Payload(s, presetFile).Bytes? && v.bytes == old(v.bytes) + Payload(s, presetFile).bytes
  {
    hide Wrote, StartCodec, RestCodec, RestOf, Payload;
    ghost var header := v.bytes;
    WriteStart(v, s.schemaVersion, presetFile);
    ghost var s1 := v.Written();
    WriteRest(v, s);
    WrotePayload(header, s1, v.bytes, s, presetFile);
  }

  // Reading.

  /** How far a chain of reads has come, and whether all of it succeeded. */
  datatype Mark = Mark(good: bool, position: nat)

  /** The next read of a chain: none after a failure, and otherwise what the codec says. */
  ghost predicate Took<T>(c: Codec<T>, input: seq<u8>, before: Mark, after: Mark, value: T) {
    if !before.good then !after.good
    else match c.dec(input, before.position)
      case Done(t, o) => after == Mark(true, o) && value == t
      case Malformed(_, _) => !after.good
  }

  lemma TookTwo<A, B>(a: Codec<A>, b: Codec<B>, ok: ((A, B)) -> bool, input: seq<u8>, s: Mark, t: Mark, u: Mark, x: A, y: B)
    requires Took(a, input, s, t, x) && Took(b, input, t, u, y)
    ensures Took(Two(a, b, ok), input, s, u, (x, y))
  {
  }

  lemma TookThree<A, B, C>(
    a: Codec<A>, b: Codec<B>, c: Codec<C>, ok: ((A, (B, C))) -> bool, input: seq<u8>,
    s0: Mark, s1: Mark, s2: Mark, s3: Mark, x: A, y: B, z: C)
    requires Took(a, input, s0, s1, x) && Took(b, input, s1, s2, y) && Took(c, input, s2, s3, z)
    ensures Took(Three(a, b, c, ok), input, s0, s3, (x, (y, z)))
  {
    TookTwo(b, c, BothOk(b, c), input, s1, s2, s3, y, z);
    TookTwo(a, Two(b, c, BothOk(b, c)), ok, input, s0, s1, s3, x, (y, z));
  }

  lemma TookFour<A, B, C, D>(
    a: Codec<A>, b: Codec<B>, c: Codec<C>, d: Codec<D>, ok: ((A, (B, (C, D)))) -> bool, input: seq<u8>,
    s0: Mark, s1: Mark, s2: Mark, s3: Mark, s4: Mark, x: A, y: B, z: C, w: D)
    requires Took(a, input, s0, s1, x) && Took(b, input, s1, s2, y) && Took(c, input, s2, s3, z) && Took(d, input, s3, s4, w)
    ensures Took(Four(a, b, c, d, ok), input, s0, s4, (x, (y, (z, w))))
  {
    TookThree(b, c, d, AllThreeOk(b, c, d), input, s1, s2, s3, s4, y, z, w);
    TookTwo(a, Three(b, c, d, AllThreeOk(b, c, d)), ok, input, s0, s1, s4, x, (y, (z, w)));
  }

  lemma TookRecord<A, B>(c: Codec<A>, to: B -> A, from: A -> B, ok: B -> bool, input: seq<u8>, s: Mark, t: Mark, x: A)
    requires Took(c, input, s, t, x)
    ensures Took(Record(c, to, from, ok), input, s, t, from(x))
  {
  }

  lemma TookDepends<A, B>(
    a: Codec<A>, b: A -> Codec<B>, ok: ((A, B)) -> bool, input: seq<u8>, s: Mark, t: Mark, u: Mark, x: A, y: B)
    requires Took(a, input, s, t, x) && (t.good ==> Took(b(x), input, t, u, y)) && (!t.good ==> !u.good)
    ensures Took(Depends(a, b, ok), input, s, u, (x, y))
  {
  }

  class FileReader {
    const bytes: seq<u8>
    var position: nat

    ghost predicate Valid()
      reads this
    {
      position <= |bytes|
    }

    ghost function Here(good: bool): Mark
      reads this
    {
      Mark(good, position)
    }

    constructor (bytes: seq<u8>)
      ensures this.bytes == bytes && position == 0 && Valid()
    {
      this.bytes, position := bytes, 0;
    }

    method Integer(n: nat) returns (good: bool, value: nat)
      requires Valid()
      modifies this`position
      ensures Valid() && Took(Scalar(n), bytes, old(Here(true)), Here(good), value)
    {
      if |bytes| - position < n {
        return false, 0;
      }
      value := 0;
      ghost var digits := bytes[position..position + n];
      for i := 0 to n
        invariant value + Power(i) * FromLittleEndian(digits[i..]) == FromLittleEndian(digits)
        invariant position == old(position)
      {
        NextDigit(digits[i..], Power(i));
        assert digits[i..][1..] == digits[i + 1..];
        value := value + bytes[position + i] * Power(i);
      }
      assert digits[n..] == [];
      position := position + n;
      good := true;
    }

    method U32() returns (good: bool, value: u32)
      requires Valid()
      modifies this`position
      ensures Valid() && Took(Codecs.U32(), bytes, old(Here(true)), Here(good), value)
    {
      var n;
      good, n := Integer(4);
      value := AsU32(n);
    }

    /** A byte that may be at most `most`. */
    method Byte(most: u8) returns (good: bool, value: nat)
      requires Valid()
      modifies this`position
      ensures Valid() && Took(SessionCodec.Byte(most), bytes, old(Here(true)), Here(good), value)
    {
      good, value := Integer(1);
      good := good && value <= most;
    }

    method Flag() returns (good: bool, value: bool)
      requires Valid()
      modifies this`position
      ensures Valid() && Took(SessionCodec.Flag(), bytes, old(Here(true)), Here(good), value)
    {
      var n;
      good, n := Byte(1);
      value := n == 1;
    }

    method Span(size: nat) returns (good: bool, value: seq<u8>)
      requires Valid()
      modifies this`position
      ensures Valid() && good == (old(position) + size <= |bytes|)
      ensures good ==> position == old(position) + size && value == bytes[old(position)..position]
    {
      if |bytes| - position < size {
        return false, [];
      }
      value := bytes[position..position + size];
      position := position + size;
      good := true;
    }

    method String() returns (good: bool, value: Text)
      requires Valid()
      modifies this`position
      ensures Valid() && Took(LongText(), bytes, old(Here(true)), Here(good), value)
    {
      var length;
      good, length := Integer(4);
      if !good || length > Codecs.MAX_STRING {
        return false, [];
      }
      good, value := Span(length);
    }
  }

  /** Between the elements of a list: those read so far, and those still to come, are what decodes. */
  ghost predicate Sofar<T>(c: Codec<T>, input: seq<u8>, start: nat, now: nat, n: nat, sofar: seq<T>) {
    |sofar| <= n && match DecodeAll(c, input, now, n - |sofar|)
      case Malformed(_, _) => DecodeAll(c, input, start, n).Malformed?
      case Done(xs, o) => DecodeAll(c, input, start, n) == Done(sofar + xs, o)
  }

  lemma SofarStarts<T>(c: Codec<T>, input: seq<u8>, start: nat, n: nat)
    ensures Sofar(c, input, start, start, n, [])
  {
    var all := DecodeAll(c, input, start, n);
    if all.Done? {
      assert [] + all.value == all.value;
    }
  }

  lemma SofarNext<T>(c: Codec<T>, input: seq<u8>, start: nat, now: nat, next: Mark, n: nat, sofar: seq<T>, x: T)
    requires Sofar(c, input, start, now, n, sofar) && |sofar| < n && Took(c, input, Mark(true, now), next, x)
    ensures if next.good then Sofar(c, input, start, next.position, n, sofar + [x]) else DecodeAll(c, input, start, n).Malformed?
  {
    if next.good {
      var rest := DecodeAll(c, input, next.position, n - |sofar| - 1);
      if rest.Done? {
        assert sofar + ([x] + rest.value) == sofar + [x] + rest.value;
      }
    }
  }

  lemma SofarAll<T>(c: Codec<T>, input: seq<u8>, start: nat, now: nat, n: nat, xs: seq<T>)
    requires Sofar(c, input, start, now, n, xs) && |xs| == n
    ensures DecodeAll(c, input, start, n) == Done(xs, now)
  {
    assert DecodeAll(c, input, now, 0) == Done([], now);
    assert xs + [] == xs;
  }

  lemma TookCounted<T>(c: Codec<T>, accept: nat -> bool, ok: seq<T> -> bool, input: seq<u8>, s: Mark, t: Mark, u: Mark, n: nat, xs: seq<T>)
    requires s.good && Took(Scalar(COUNT_BYTES), input, s, t, n)
    requires if t.good && accept(n) then if u.good then DecodeAll(c, input, t.position, n) == Done(xs, u.position)
                                         else DecodeAll(c, input, t.position, n).Malformed?
             else !u.good
    ensures Took(Counted(c, accept, ok), input, s, u, xs)
  {
  }

  method ReadDirection(r: FileReader) returns (good: bool, x: AudioRuntime.Direction)
    requires r.Valid()
    modifies r`position
    ensures r.Valid() && Took(DirectionByte(), r.bytes, old(r.Here(true)), r.Here(good), x)
  {
    var n;
    good, n := r.Byte(1);
    TookRecord(Byte(1), DirectionIndex, DirectionAt, Any(), r.bytes, old(r.Here(true)), r.Here(good), n);
    x := DirectionAt(n);
  }

  method ReadBackend(r: FileReader) returns (good: bool, x: AudioRuntime.Backend)
    requires r.Valid()
    modifies r`position
    ensures r.Valid() && Took(BackendByte(), r.bytes, old(r.Here(true)), r.Here(good), x)
  {
    var n;
    good, n := r.Byte(1);
    TookRecord(Byte(1), BackendIndex, BackendAt, Any(), r.bytes, old(r.Here(true)), r.Here(good), n);
    x := BackendAt(n);
  }

  method ReadMode(r: FileReader, version: nat) returns (good: bool, x: AudioRuntime.Mode)
    requires r.Valid()
    modifies r`position
    ensures r.Valid() && Took(ModeByte(version), r.bytes, old(r.Here(true)), r.Here(good), x)
  {
    var n;
    good, n := r.Byte(LastModeIn(version));
    TookRecord(Byte(LastModeIn(version)), ModeIndex, ModeAt, ModeIn(version), r.bytes, old(r.Here(true)), r.Here(good), n);
    x := ModeAt(n);
  }

  method ReadEndpointStart(r: FileReader) returns (good: bool, t: BaseStart)
    requires r.Valid()
    modifies r`position
    ensures r.Valid() && Took(EndpointStart(), r.bytes, old(r.Here(true)), r.Here(good), t)
  {
    ghost var s0 := r.Here(true);
    var id;
    good, id := r.String();
    ghost var s1 := r.Here(good);
    var device := [];
    if good {
      good, device := r.String();
    }
    ghost var s2 := r.Here(good);
    var direction := AudioRuntime.Capture;
    if good {
      good, direction := ReadDirection(r);
    }
    TookThree(LongText(), LongText(), DirectionByte(), ShortStart, r.bytes,
      s0, s1, s2, r.Here(good), id, device, direction);
    t := (id, (device, direction));
  }

  method ReadEndpointRest(r: FileReader) returns (good: bool, t: BaseRest)
    requires r.Valid()
    modifies r`position
    ensures r.Valid() && Took(EndpointRest(), r.bytes, old(r.Here(true)), r.Here(good), t)
  {
    ghost var s0 := r.Here(true);
    var master;
    good, master := r.Flag();
    ghost var s1 := r.Here(good);
    var first := 0;
    if good {
      good, first := r.U32();
    }
    ghost var s2 := r.Here(good);
    var count := 0;
    if good {
      good, count := r.U32();
    }
    TookThree(Flag(), U32(), U32(), Any(), r.bytes,
      s0, s1, s2, r.Here(good), master, first, count);
    t := (master, (first, count));
  }

  method ReadEndpoint(r: FileReader) returns (good: bool, b: Base)
    requires r.Valid()
    modifies r`position
    ensures r.Valid() && Took(EndpointCodec(), r.bytes, old(r.Here(true)), r.Here(good), b)
  {
    ghost var s0 := r.Here(true);
    var start;
    good, start := ReadEndpointStart(r);
    ghost var s1 := r.Here(good);
    var rest := (false, (0, 0));
    if good {
      good, rest := ReadEndpointRest(r);
    }
    TookTwo(EndpointStart(), EndpointRest(), ShortTuple, r.bytes,
      s0, s1, r.Here(good), start, rest);
    TookRecord(EndpointTuples(), BaseToTuple, BaseFromTuple, ShortBase, r.bytes, s0, r.Here(good), (start, rest));
    b := BaseFromTuple((start, rest));
  }

  method ReadEndpoints(r: FileReader) returns (good: bool, xs: seq<Base>)
    requires r.Valid()
    modifies r`position
    ensures r.Valid() && Took(EndpointList(), r.bytes, old(r.Here(true)), r.Here(good), xs)
  {
    ghost var s := r.Here(true);
    var n;
    good, n := r.Integer(4);
    ghost var t := r.Here(good);
    xs := [];
    good := good && n <= AudioRuntime.MAX_ENDPOINTS;
    if good {
      SofarStarts(EndpointCodec(), r.bytes, t.position, n);
      while |xs| < n && good
        invariant r.Valid()
        invariant if good then Sofar(EndpointCodec(), r.bytes, t.position, r.position, n, xs)
                  else DecodeAll(EndpointCodec(), r.bytes, t.position, n).Malformed?
        decreases n - |xs|, good
      {
        ghost var now := r.position;
        var x;
        good, x := ReadEndpoint(r);
        SofarNext(EndpointCodec(), r.bytes, t.position, now, r.Here(good), n, xs, x);
        xs := xs + [x];
      }
      if good {
        SofarAll(EndpointCodec(), r.bytes, t.position, r.position, n, xs);
      }
    }
    TookCounted(EndpointCodec(), UpTo(AudioRuntime.MAX_ENDPOINTS), EndpointsFit, r.bytes, s, t, r.Here(good), n, xs);
  }

  method ReadEndpointField(r: FileReader, version: nat) returns (good: bool, x: seq<Base>)
    requires r.Valid()
    modifies r`position
    ensures r.Valid() && Took(EndpointField(version), r.bytes, old(r.Here(true)), r.Here(good), x)
  {
    if version >= 2 {
      good, x := ReadEndpoints(r);
    } else {
      good, x := true, [];
    }
  }

  method ReadRuntime(r: FileReader, version: nat) returns (good: bool, t: Runtime)
    requires r.Valid()
    modifies r`position
    ensures r.Valid() && Took(RuntimeFields(version), r.bytes, old(r.Here(true)), r.Here(good), t)
  {
    ghost var s0 := r.Here(true);
    var mode;
    good, mode := ReadMode(r, version);
    ghost var s1 := r.Here(good);
    var capture := [];
    if good {
      good, capture := r.String();
    }
    ghost var s2 := r.Here(good);
    var render := [];
    if good {
      good, render := r.String();
    }
    ghost var s3 := r.Here(good);
    var bases := [];
    if good {
      good, bases := ReadEndpointField(r, version);
    }
    TookFour(ModeByte(version), LongText(), LongText(), EndpointField(version), RuntimeIn(version), r.bytes,
      s0, s1, s2, s3, r.Here(good), mode, capture, render, bases);
    t := (mode, (capture, (render, bases)));
  }

  method ReadChannels(r: FileReader) returns (good: bool, xs: seq<u32>)
    requires r.Valid()
    modifies r`position
    ensures r.Valid() && Took(ChannelList(), r.bytes, old(r.Here(true)), r.Here(good), xs)
  {
    ghost var s := r.Here(true);
    var n;
    good, n := r.Integer(4);
    ghost var t := r.Here(good);
    xs := [];
    good := good && n <= AudioRuntime.MAX_ASIO_CHANNELS;
    if good {
      SofarStarts(U32(), r.bytes, t.position, n);
      while |xs| < n && good
        invariant r.Valid()
        invariant if good then Sofar(U32(), r.bytes, t.position, r.position, n, xs)
                  else DecodeAll(U32(), r.bytes, t.position, n).Malformed?
        decreases n - |xs|, good
      {
        ghost var now := r.position;
        var x;
        good, x := r.U32();
        SofarNext(U32(), r.bytes, t.position, now, r.Here(good), n, xs, x);
        xs := xs + [x];
      }
      if good {
        SofarAll(U32(), r.bytes, t.position, r.position, n, xs);
      }
    }
    TookCounted(U32(), UpTo(AudioRuntime.MAX_ASIO_CHANNELS), ChannelsFit, r.bytes, s, t, r.Here(good), n, xs);
  }

  method ReadFormat(r: FileReader) returns (good: bool, t: DriverFormat)
    requires r.Valid()
    modifies r`position
    ensures r.Valid() && Took(FormatFields(), r.bytes, old(r.Here(true)), r.Here(good), t)
  {
    ghost var s0 := r.Here(true);
    var clsid;
    good, clsid := r.String();
    ghost var s1 := r.Here(good);
    var rate := 0;
    if good {
      good, rate := r.U32();
    }
    ghost var s2 := r.Here(good);
    var frames := 0;
    if good {
      good, frames := r.U32();
    }
    TookThree(LongText(), U32(), U32(), ShortFormat, r.bytes,
      s0, s1, s2, r.Here(good), clsid, rate, frames);
    t := (clsid, (rate, frames));
  }

  method ReadChannelLists(r: FileReader) returns (good: bool, t: DriverChannels)
    requires r.Valid()
    modifies r`position
    ensures r.Valid() && Took(ChannelLists(), r.bytes, old(r.Here(true)), r.Here(good), t)
  {
    ghost var s0 := r.Here(true);
    var inputs;
    good, inputs := ReadChannels(r);
    ghost var s1 := r.Here(good);
    var outputs := [];
    if good {
      good, outputs := ReadChannels(r);
    }
    TookTwo(ChannelList(), ChannelList(), BothChannelsFit, r.bytes,
      s0, s1, r.Here(good), inputs, outputs);
    t := (inputs, outputs);
  }

  method ReadDriver(r: FileReader) returns (good: bool, t: Driver)
    requires r.Valid()
    modifies r`position
    ensures r.Valid() && Took(DriverTuples(), r.bytes, old(r.Here(true)), r.Here(good), t)
  {
    ghost var s0 := r.Here(true);
    var format;
    good, format := ReadFormat(r);
    ghost var s1 := r.Here(good);
    var channels := ([], []);
    if good {
      good, channels := ReadChannelLists(r);
    }
    TookTwo(FormatFields(), ChannelLists(), DriverFits, r.bytes,
      s0, s1, r.Here(good), format, channels);
    t := (format, channels);
  }

  method ReadDriverField(r: FileReader, version: nat) returns (good: bool, x: Driver)
    requires r.Valid()
    modifies r`position
    ensures r.Valid() && Took(DriverField(version), r.bytes, old(r.Here(true)), r.Here(good), x)
  {
    if version >= 4 {
      good, x := ReadDriver(r);
    } else {
      good, x := true, NoDriver();
    }
  }

  method ReadIdentity(r: FileReader) returns (good: bool, t: Texts)
    requires r.Valid()
    modifies r`position
    ensures r.Valid() && Took(IdentityFields(), r.bytes, old(r.Here(true)), r.Here(good), t)
  {
    ghost var s0 := r.Here(true);
    var id;
    good, id := r.String();
    ghost var s1 := r.Here(good);
    var clsid := [];
    if good {
      good, clsid := r.String();
    }
    ghost var s2 := r.Here(good);
    var name := [];
    if good {
      good, name := r.String();
    }
    ghost var s3 := r.Here(good);
    var token := [];
    if good {
      good, token := r.String();
    }
    TookFour(LongText(), LongText(), LongText(), LongText(), ShortTexts, r.bytes,
      s0, s1, s2, s3, r.Here(good), id, clsid, name, token);
    t := (id, (clsid, (name, token)));
  }

  method ReadDeviceFlags(r: FileReader) returns (good: bool, t: DeviceRest)
    requires r.Valid()
    modifies r`position
    ensures r.Valid() && Took(DeviceFlags(), r.bytes, old(r.Here(true)), r.Here(good), t)
  {
    ghost var s0 := r.Here(true);
    var inputs;
    good, inputs := r.U32();
    ghost var s1 := r.Here(good);
    var outputs := 0;
    if good {
      good, outputs := r.U32();
    }
    ghost var s2 := r.Here(good);
    var enabled := false;
    if good {
      good, enabled := r.Flag();
    }
    TookThree(U32(), U32(), Flag(), Any(), r.bytes,
      s0, s1, s2, r.Here(good), inputs, outputs, enabled);
    t := (inputs, (outputs, enabled));
  }

  method ReadDevice(r: FileReader) returns (good: bool, d: ControlCommand.VirtualAsioDevice)
    requires r.Valid()
    modifies r`position
    ensures r.Valid() && Took(AsioDevice(), r.bytes, old(r.Here(true)), r.Here(good), d)
  {
    ghost var s0 := r.Here(true);
    var identity;
    good, identity := ReadIdentity(r);
    ghost var s1 := r.Here(good);
    var flags := (0, (0, false));
    if good {
      good, flags := ReadDeviceFlags(r);
    }
    TookTwo(IdentityFields(), DeviceFlags(), ShortDeviceTuple, r.bytes,
      s0, s1, r.Here(good), identity, flags);
    TookRecord(AsioDeviceTuples(), DeviceToTuple, DeviceFromTuple, ShortDevice, r.bytes, s0, r.Here(good), (identity, flags));
    d := DeviceFromTuple((identity, flags));
  }

  method ReadDevices(r: FileReader) returns (good: bool, xs: seq<ControlCommand.VirtualAsioDevice>)
    requires r.Valid()
    modifies r`position
    ensures r.Valid() && Took(AsioDevices(), r.bytes, old(r.Here(true)), r.Here(good), xs)
  {
    ghost var s := r.Here(true);
    var n;
    good, n := r.Integer(4);
    ghost var t := r.Here(good);
    xs := [];
    good := good && 0 < n <= ControlCommand.MAX_VIRTUAL_ASIO_DEVICES;
    if good {
      SofarStarts(AsioDevice(), r.bytes, t.position, n);
      while |xs| < n && good
        invariant r.Valid()
        invariant if good then Sofar(AsioDevice(), r.bytes, t.position, r.position, n, xs)
                  else DecodeAll(AsioDevice(), r.bytes, t.position, n).Malformed?
        decreases n - |xs|, good
      {
        ghost var now := r.position;
        var x;
        good, x := ReadDevice(r);
        SofarNext(AsioDevice(), r.bytes, t.position, now, r.Here(good), n, xs, x);
        xs := xs + [x];
      }
      if good {
        SofarAll(AsioDevice(), r.bytes, t.position, r.position, n, xs);
      }
    }
    TookCounted(AsioDevice(), DeviceCount, DevicesFit, r.bytes, s, t, r.Here(good), n, xs);
  }

  method ReadDeviceField(r: FileReader, version: nat) returns (good: bool, x: Devices)
    requires r.Valid()
    modifies r`position
    ensures r.Valid() && Took(DeviceField(version), r.bytes, old(r.Here(true)), r.Here(good), x)
  {
    if version >= 3 {
      good, x := ReadDevices(r);
    } else {
      good, x := true, [DefaultDevice()];
    }
  }

  method ReadExtension(r: FileReader) returns (good: bool, x: Extension)
    requires r.Valid()
    modifies r`position
    ensures r.Valid() && Took(SessionExtension(), r.bytes, old(r.Here(true)), r.Here(good), x)
  {
    ghost var s0 := r.Here(true);
    var backend;
    good, backend := ReadBackend(r);
    ghost var s1 := r.Here(good);
    var group := [];
    if good {
      good, group := r.String();
    }
    ghost var s2 := r.Here(good);
    var rate := 0;
    if good {
      good, rate := r.U32();
    }
    ghost var s3 := r.Here(good);
    var frames := 0;
    if good {
      good, frames := r.U32();
    }
    TookFour(BackendByte(), LongText(), U32(), U32(), ShortExtensionTuple, r.bytes,
      s0, s1, s2, s3, r.Here(good), backend, group, rate, frames);
    TookRecord(ExtensionFields(), ExtensionToTuple, ExtensionFromTuple, ShortGroup, r.bytes, s0, r.Here(good), (backend, (group, (rate, frames))));
    x := ExtensionFromTuple((backend, (group, (rate, frames))));
  }

  method ReadExtensions(r: FileReader, size: nat) returns (good: bool, xs: seq<Extension>)
    requires r.Valid()
    modifies r`position
    ensures r.Valid() && Took(SessionExtensions(size), r.bytes, old(r.Here(true)), r.Here(good), xs)
  {
    ghost var s := r.Here(true);
    var n;
    good, n := r.Integer(4);
    ghost var t := r.Here(good);
    xs := [];
    good := good && n == size;
    if good {
      SofarStarts(SessionExtension(), r.bytes, t.position, n);
      while |xs| < n && good
        invariant r.Valid()
        invariant if good then Sofar(SessionExtension(), r.bytes, t.position, r.position, n, xs)
                  else DecodeAll(SessionExtension(), r.bytes, t.position, n).Malformed?
        decreases n - |xs|, good
      {
        ghost var now := r.position;
        var x;
        good, x := ReadExtension(r);
        SofarNext(SessionExtension(), r.bytes, t.position, now, r.Here(good), n, xs, x);
        xs := xs + [x];
      }
      if good {
        SofarAll(SessionExtension(), r.bytes, t.position, r.position, n, xs);
      }
    }
    TookCounted(SessionExtension(), Exactly(size), GroupsOfLength(size), r.bytes, s, t, r.Here(good), n, xs);
  }

  method ReadExtensionField(r: FileReader, version: nat, size: nat) returns (good: bool, xs: seq<Extension>)
    requires r.Valid()
    modifies r`position
    ensures r.Valid() && Took(ExtensionField(version, size), r.bytes, old(r.Here(true)), r.Here(good), xs)
  {
    if version >= 5 {
      good, xs := ReadExtensions(r, size);
    } else {
      good, xs := true, NoExtensions(size);
    }
  }

  method ReadBody(r: FileReader, version: nat) returns (good: bool, t: SessionBody)
    requires r.Valid()
    modifies r`position
    ensures r.Valid() && Took(SessionBodyCodec(version), r.bytes, old(r.Here(true)), r.Here(good), t)
  {
    ghost var s0 := r.Here(true);
    var runtime;
    good, runtime := ReadRuntime(r, version);
    ghost var s1 := r.Here(good);
    var driver := NoDriver();
    if good {
      good, driver := ReadDriverField(r, version);
    }
    ghost var s2 := r.Here(good);
    var autoStart := false;
    if good {
      good, autoStart := r.Flag();
    }
    ghost var s3 := r.Here(good);
    var devices := [];
    if good {
      good, devices := ReadDeviceField(r, version);
    }
    TookFour(RuntimeFields(version), DriverField(version), Flag(), DeviceField(version), BodyIn(version), r.bytes,
      s0, s1, s2, s3, r.Here(good), runtime, driver, autoStart, devices);
    t := (runtime, (driver, (autoStart, devices)));
  }

  method ReadRest(r: FileReader, version: nat) returns (good: bool, t: SessionRest)
    requires r.Valid()
    modifies r`position
    ensures r.Valid() && Took(RestCodec(version), r.bytes, old(r.Here(true)), r.Here(good), t)
  {
    hide SessionBodyCodec, ExtensionField, RestIn;
    ghost var s0 := r.Here(true);
    var body;
    good, body := ReadBody(r, version);
    ghost var s1 := r.Here(good);
    var xs := [];
    if good {
      good, xs := ReadExtensionField(r, version, |EndpointsOfBody(body)|);
    }
    TookDepends(SessionBodyCodec(version), ExtensionsAfterBody(version), RestIn(version), r.bytes, s0, s1, r.Here(good), body, xs);
    t := (body, xs);
  }

  method ReadSchema(r: FileReader) returns (good: bool, schema: nat)
    requires r.Valid()
    modifies r`position
    ensures r.Valid() && Took(Schema(), r.bytes, old(r.Here(true)), r.Here(good), schema)
  {
    good, schema := r.Integer(4);
    good := good && 1 <= schema <= 2;
  }

  method ReadBlob(r: FileReader) returns (good: bool, blob: seq<u8>)
    requires r.Valid()
    modifies r`position
    ensures r.Valid() && Took(Blob(), r.bytes, old(r.Here(true)), r.Here(good), blob)
  {
    var size;
    good, size := r.Integer(4);
    if !good {
      return false, [];
    }
    good, blob := r.Span(size);
  }

  method ReadStart(r: FileReader) returns (good: bool, t: SchemaAndPreset)
    requires r.Valid()
    modifies r`position
    ensures r.Valid() && Took(StartCodec(), r.bytes, old(r.Here(true)), r.Here(good), t)
  {
    ghost var s0 := r.Here(true);
    var schema;
    good, schema := ReadSchema(r);
    ghost var s1 := r.Here(good);
    var presetFile := [];
    if good {
      good, presetFile := ReadBlob(r);
    }
    TookTwo(Schema(), Blob(), StartFits, r.bytes,
      s0, s1, r.Here(good), schema, presetFile);
    t := (schema, presetFile);
  }

  /** The header: the magic, a known version, the reserved zero and the size of what is left. */
  method ReadHeader(r: FileReader) returns (version: Option<nat>)
    requires r.position == 0
    modifies r`position
    ensures r.Valid() && version == OpenedFile(r.bytes) && (version.Some? ==> r.position == FILE_HEADER)
  {
    var good, magic := r.Span(4);
    if !good || magic != Magic() {
      return None;
    }
    var number, reserved, size;
    good, number := r.Integer(2);
    if !good || number == 0 || number > NEWEST {
      return None;
    }
    good, reserved := r.Integer(2);
    if !good || reserved != 0 {
      return None;
    }
    good, size := r.Integer(4);
    if !good || size != |r.bytes| - r.position {
      return None;
    }
    return Some(number);
  }

  /** decode_session_file() */
  method DecodeSessionFile(bytes: seq<u8>) returns (result: DecodeResult)
    ensures result == DecodeSession(bytes)
  {
    hide StartCodec, OpenedFile, FromPreset;
    if |bytes| == 0 || |bytes| > MAX_FILE {
      return NotDecoded(InvalidSessionFile);
    }
    var r := new FileReader(bytes);
    var version := ReadHeader(r);
    if version.None? {
      return NotDecoded(InvalidSessionFile);
    }
    var good, start := ReadStart(r);
    if !good {
      return NotDecoded(InvalidSessionFile);
    }
    result := DecodeBehindStart(r, version.value, start);
  }

  method DecodeBehindStart(r: FileReader, version: nat, start: SchemaAndPreset) returns (result: DecodeResult)
    requires r.Valid()
    modifies r`position
    ensures result == FromPreset(r.bytes, version, PresetFile.DecodePresetFile(start.1), old(r.position))
  {
    hide RestCodec, Errors, PresetFile.DecodePresetFile;
    var preset := PresetFile.DecodePresetFile(start.1);
    if preset.NotDecoded? {
      return NotDecoded(InvalidPreset);
    }
    var good, t := ReadRest(r, version);
    if !good || r.position != |r.bytes| {
      return NotDecoded(InvalidSessionFile);
    }
    var s := SessionOf(preset.preset, t);
    var errors := Validate(s);
    return if errors != [] then NotDecoded(InvalidSession) else Decoded(s);
  }
}
