/** The parts of a session file as codecs. Enumerators and flags take one byte; strings are written at any
    length but read only up to a limit; counts are bounded by kind. */
module SessionCodec {
  import opened Basics
  import opened Codecs
  import opened Refusals
  import opened WireCommand
  import AudioRuntime
  import ControlCommand

  const NEWEST: nat := 5

  // Strings, bytes and lists.

  predicate Short(t: Text) {
    |t| <= MAX_STRING
  }

  function EncodeLong(t: Text): Output {
    Bytes(LittleEndian(|t|, COUNT_BYTES) + t)
  }

  /** append_string() and Reader::string() */
  function LongText(): Codec<Text> {
    Codec(EncodeLong, (input: seq<u8>, offset: nat) => DecodeText(COUNT_BYTES, input, offset), Short)
  }

  lemma LongTextLawful()
    ensures SoundOn(LongText(), Short)
  {
    var c := LongText();
    forall t: Text, input: seq<u8>, offset: nat | Short(t) && At(input, offset, EncodeLong(t).bytes)
      ensures c.dec(input, offset) == Done(t, offset + |EncodeLong(t).bytes|)
    {
      PowerOfFour();
      Prefix(input, offset, LittleEndian(|t|, COUNT_BYTES), t);
      ScalarRoundTrips(|t|, input, offset, COUNT_BYTES);
      TextRoundTrips(t, COUNT_BYTES, input, offset);
    }
    forall input: seq<u8>, offset: nat | offset <= |input| && c.dec(input, offset).Done?
      ensures var r := c.dec(input, offset);
              offset <= r.offset <= |input| && Short(r.value) && c.enc(r.value) == Bytes(input[offset..r.offset])
    {
      TextIsCanonical(COUNT_BYTES, input, offset);
    }
  }

  /** A string that is too long is refused where it stands. */
  lemma LongTextRefused(t: Text, input: seq<u8>, offset: nat)
    requires !Short(t) && |input| < U32_MODULUS && At(input, offset, EncodeLong(t).bytes)
    ensures Refuses(LongText().dec(input, offset), StringTooLong)
  {
    PowerOfFour();
    Prefix(input, offset, LittleEndian(|t|, COUNT_BYTES), t);
    ScalarRoundTrips(|t|, input, offset, COUNT_BYTES);
  }

  /** A byte that is at most `most`. */
  function Byte(most: u8): Codec<nat> {
    Checked(Scalar(1), UpTo(most), InvalidValue, Same(), Same(), UpTo(most))
  }

  lemma ByteLawful(most: u8)
    ensures SoundOn(Byte(most), UpTo(most))
  {
    ScalarLawful(1);
    assert Power(1) == 0x100;
    CheckedLawful(Scalar(1), UpTo(most), InvalidValue, Same(), Same(), UpTo(most));
  }

  function Flag(): Codec<bool> {
    Record(Byte(1), BoolToNat, NatToBool, Any())
  }

  lemma FlagLawful()
    ensures SoundOn(Flag(), Any())
  {
    ByteLawful(1);
    RecordLawful(Byte(1), BoolToNat, NatToBool, Any());
  }

  function DirectionByte(): Codec<AudioRuntime.Direction> {
    Record(Byte(1), DirectionIndex, DirectionAt, Any())
  }

  lemma DirectionByteLawful()
    ensures SoundOn(DirectionByte(), Any())
  {
    ByteLawful(1);
    RecordLawful(Byte(1), DirectionIndex, DirectionAt, Any());
  }

  function BackendByte(): Codec<AudioRuntime.Backend> {
    Record(Byte(1), BackendIndex, BackendAt, Any())
  }

  lemma BackendByteLawful()
    ensures SoundOn(BackendByte(), Any())
  {
    ByteLawful(1);
    RecordLawful(Byte(1), BackendIndex, BackendAt, Any());
  }

  /** The last runtime mode a version of the file knows. */
  function LastModeIn(version: nat): u8 {
    if version >= 4 then 4 else if version == 1 then 2 else 3
  }

  function ModeIn(version: nat): AudioRuntime.Mode -> bool {
    (m: AudioRuntime.Mode) => ModeIndex(m) <= LastModeIn(version)
  }

  function ModeByte(version: nat): Codec<AudioRuntime.Mode> {
    Record(Byte(LastModeIn(version)), ModeIndex, ModeAt, ModeIn(version))
  }

  lemma ModeByteLawful(version: nat)
    ensures SoundOn(ModeByte(version), ModeIn(version))
  {
    ByteLawful(LastModeIn(version));
    RecordLawful(Byte(LastModeIn(version)), ModeIndex, ModeAt, ModeIn(version));
  }

  function DecodeBounded(accept: nat -> bool, input: seq<u8>, offset: nat): Input<nat> {
    match DecodeScalar(input, offset, COUNT_BYTES)
    case Malformed(e, o) => Malformed(e, o)
    case Done(n, o) => if accept(n) then Done(n, o) else Malformed(InvalidLength, o)
  }

  function DecodeCounted<T>(c: Codec<T>, accept: nat -> bool, input: seq<u8>, offset: nat): Input<seq<T>> {
    match DecodeBounded(accept, input, offset)
    case Malformed(e, o) => Malformed(e, o)
    case Done(n, o) => DecodeAll(c, input, o, n)
  }

  /** A list behind its length, which must be acceptable; what is left of the file is not looked at. */
  function Counted<T>(c: Codec<T>, accept: nat -> bool, ok: seq<T> -> bool): Codec<seq<T>> {
    Codec((xs: seq<T>) => Then(Bytes(LittleEndian(|xs|, COUNT_BYTES)), EncodeAll(c, xs)),
          (input: seq<u8>, offset: nat) => DecodeCounted(c, accept, input, offset),
          ok)
  }

  lemma CountedRoundTrips<T(!new)>(c: Codec<T>, accept: nat -> bool, xs: seq<T>, input: seq<u8>, offset: nat, bytes: seq<u8>)
    requires RoundTrips(c) && AllOk(c, xs) && accept(|xs|) && |xs| < U32_MODULUS
    requires Then(Bytes(LittleEndian(|xs|, COUNT_BYTES)), EncodeAll(c, xs)) == Bytes(bytes) && At(input, offset, bytes)
    ensures DecodeCounted(c, accept, input, offset) == Done(xs, offset + |bytes|)
  {
    PowerOfFour();
    var all := EncodeAll(c, xs).bytes;
    Prefix(input, offset, LittleEndian(|xs|, COUNT_BYTES), all);
    ScalarRoundTrips(|xs|, input, offset, COUNT_BYTES);
    ElementsRoundTrip(c, xs, all, input, offset + COUNT_BYTES);
  }

  lemma CountedIsCanonical<T(!new)>(c: Codec<T>, accept: nat -> bool, input: seq<u8>, offset: nat)
    requires IsCanonical(c) && offset <= |input| && DecodeCounted(c, accept, input, offset).Done?
    ensures var v := DecodeCounted(c, accept, input, offset);
            && offset <= v.offset <= |input| && AllOk(c, v.value) && accept(|v.value|)
            && Then(Bytes(LittleEndian(|v.value|, COUNT_BYTES)), EncodeAll(c, v.value)) == Bytes(input[offset..v.offset])
  {
    ScalarIsCanonical(input, offset, COUNT_BYTES);
    var n := DecodeBounded(accept, input, offset);
    ElementsAreCanonical(c, input, n.offset, n.value);
    var v := DecodeCounted(c, accept, input, offset);
    assert input[offset..v.offset] == input[offset..n.offset] + input[n.offset..v.offset];
  }

  lemma CountedLawful<T(!new)>(c: Codec<T>, accept: nat -> bool, ok: seq<T> -> bool)
    requires Lawful(c) && forall n: nat :: accept(n) ==> n < U32_MODULUS
    requires forall xs :: ok(xs) <==> AllOk(c, xs) && accept(|xs|)
    ensures SoundOn(Counted(c, accept, ok), ok)
  {
    CountedReads(c, accept, ok);
    CountedWrites(c, accept, ok);
  }

  lemma CountedReads<T(!new)>(c: Codec<T>, accept: nat -> bool, ok: seq<T> -> bool)
    requires RoundTrips(c) && forall xs :: ok(xs) ==> AllOk(c, xs) && accept(|xs|) && |xs| < U32_MODULUS
    ensures RoundTrips(Counted(c, accept, ok))
  {
    hide RoundTrips, EncodeAll, DecodeAll, AllOk, DecodeBounded;
    var r := Counted(c, accept, ok);
    forall xs: seq<T>, input: seq<u8>, offset: nat | r.ok(xs) && r.enc(xs).Bytes? && At(input, offset, r.enc(xs).bytes)
      ensures r.dec(input, offset) == Done(xs, offset + |r.enc(xs).bytes|)
    {
      CountedRoundTrips(c, accept, xs, input, offset, r.enc(xs).bytes);
    }
    RoundTripsIf(r);
  }

  lemma RoundTripsIf<T(!new)>(r: Codec<T>)
    requires forall t: T, input: seq<u8>, offset: nat {:trigger At(input, offset, r.enc(t).bytes)} ::
               r.ok(t) && r.enc(t).Bytes? && At(input, offset, r.enc(t).bytes) ==>
                 r.dec(input, offset) == Done(t, offset + |r.enc(t).bytes|)
    ensures RoundTrips(r)
  {
  }

  lemma CountedWrites<T(!new)>(c: Codec<T>, accept: nat -> bool, ok: seq<T> -> bool)
    requires IsCanonical(c) && forall xs :: AllOk(c, xs) && accept(|xs|) ==> ok(xs)
    ensures IsCanonical(Counted(c, accept, ok))
  {
    var r := Counted(c, accept, ok);
    forall input: seq<u8>, offset: nat | offset <= |input| && r.dec(input, offset).Done?
      ensures var v := r.dec(input, offset);
              offset <= v.offset <= |input| && r.ok(v.value) && r.enc(v.value) == Bytes(input[offset..v.offset])
    {
      CountedIsCanonical(c, accept, input, offset);
    }
  }

  // The parts of a session.

  type SchemaAndPreset = (nat, seq<u8>)

  predicate KnownSchema(schema: nat) {
    1 <= schema <= 2
  }

  function Schema(): Codec<nat> {
    Checked(Scalar(COUNT_BYTES), KnownSchema, UnsupportedVersion, Same(), Same(), KnownSchema)
  }

  lemma SchemaLawful()
    ensures SoundOn(Schema(), KnownSchema)
  {
    PowerOfFour();
    ScalarLawful(COUNT_BYTES);
    CheckedLawful(Scalar(COUNT_BYTES), KnownSchema, UnsupportedVersion, Same(), Same(), KnownSchema);
  }

  function DecodeBlob(input: seq<u8>, offset: nat): Input<seq<u8>> {
    match DecodeScalar(input, offset, COUNT_BYTES)
    case Malformed(e, o) => Malformed(e, o)
    case Done(n, o) => if o + n > |input| then Malformed(Truncated, o) else Done(input[o..o + n], o + n)
  }

  predicate FitsCount(bytes: seq<u8>) {
    |bytes| < U32_MODULUS
  }

  /** Bytes behind their number. */
  function Blob(): Codec<seq<u8>> {
    Codec(EncodeLong, DecodeBlob, FitsCount)
  }

  lemma BlobLawful()
    ensures SoundOn(Blob(), FitsCount)
  {
    var c := Blob();
    PowerOfFour();
    forall t: seq<u8>, input: seq<u8>, offset: nat | FitsCount(t) && At(input, offset, EncodeLong(t).bytes)
      ensures c.dec(input, offset) == Done(t, offset + |EncodeLong(t).bytes|)
    {
      Prefix(input, offset, LittleEndian(|t|, COUNT_BYTES), t);
      ScalarRoundTrips(|t|, input, offset, COUNT_BYTES);
    }
    forall input: seq<u8>, offset: nat | offset <= |input| && c.dec(input, offset).Done?
      ensures var r := c.dec(input, offset);
              offset <= r.offset <= |input| && FitsCount(r.value) && c.enc(r.value) == Bytes(input[offset..r.offset])
    {
      ScalarIsCanonical(input, offset, COUNT_BYTES);
      var r := c.dec(input, offset);
      assert input[offset..r.offset] == input[offset..offset + COUNT_BYTES] + input[offset + COUNT_BYTES..r.offset];
    }
  }

  predicate StartFits(t: SchemaAndPreset) {
    KnownSchema(t.0) && FitsCount(t.1)
  }

  function StartCodec(): Codec<SchemaAndPreset> {
    Two(Schema(), Blob(), StartFits)
  }

  lemma StartLawful()
    ensures SoundOn(StartCodec(), StartFits)
  {
    SchemaLawful();
    BlobLawful();
    TwoLawful(Schema(), Blob(), StartFits);
  }

  predicate ShortStart(t: BaseStart) {
    Short(t.0) && Short(t.1.0)
  }

  function EndpointStart(): Codec<BaseStart> {
    Three(LongText(), LongText(), DirectionByte(), ShortStart)
  }

  lemma EndpointStartLawful()
    ensures SoundOn(EndpointStart(), ShortStart)
  {
    LongTextLawful();
    DirectionByteLawful();
    ThreeLawful(LongText(), LongText(), DirectionByte(), ShortStart);
  }

  function EndpointRest(): Codec<BaseRest> {
    Three(Flag(), U32(), U32(), Any())
  }

  lemma EndpointRestLawful()
    ensures SoundOn(EndpointRest(), Any())
  {
    FlagLawful();
    U32Lawful();
    ThreeLawful(Flag(), U32(), U32(), Any());
  }

  predicate ShortTuple(t: (BaseStart, BaseRest)) {
    ShortStart(t.0)
  }

  function EndpointTuples(): Codec<(BaseStart, BaseRest)> {
    Two(EndpointStart(), EndpointRest(), ShortTuple)
  }

  predicate ShortBase(b: Base) {
    Short(b.id) && Short(b.device)
  }

  function EndpointCodec(): Codec<Base> {
    Record(EndpointTuples(), BaseToTuple, BaseFromTuple, ShortBase)
  }

  lemma EndpointLawful()
    ensures SoundOn(EndpointCodec(), ShortBase)
  {
    EndpointStartLawful();
    EndpointRestLawful();
    TwoLawful(EndpointStart(), EndpointRest(), ShortTuple);
    RecordLawful(EndpointTuples(), BaseToTuple, BaseFromTuple, ShortBase);
  }

  predicate EndpointsFit(bs: seq<Base>) {
    |bs| <= AudioRuntime.MAX_ENDPOINTS && forall k :: 0 <= k < |bs| ==> ShortBase(bs[k])
  }

  function EndpointList(): Codec<seq<Base>> {
    Counted(EndpointCodec(), UpTo(AudioRuntime.MAX_ENDPOINTS), EndpointsFit)
  }

  lemma EndpointListLawful()
    ensures SoundOn(EndpointList(), EndpointsFit)
  {
    EndpointLawful();
    CountedLawful(EndpointCodec(), UpTo(AudioRuntime.MAX_ENDPOINTS), EndpointsFit);
  }

  function EndpointsIn(version: nat): seq<Base> -> bool {
    (bs: seq<Base>) => if version >= 2 then EndpointsFit(bs) else bs == []
  }

  function EndpointField(version: nat): Codec<seq<Base>> {
    Field(version >= 2, EndpointList(), [], EndpointsIn(version))
  }

  lemma EndpointFieldLawful(version: nat)
    ensures LawfulOn(EndpointField(version), EndpointsIn(version))
  {
    EndpointListLawful();
    FieldLawful(version >= 2, EndpointList(), [], EndpointsIn(version));
  }

  function RuntimeIn(version: nat): Runtime -> bool {
    (r: Runtime) => ModeIn(version)(r.0) && Short(r.1.0) && Short(r.1.1.0) && EndpointsIn(version)(r.1.1.1)
  }

  function RuntimeFields(version: nat): Codec<Runtime> {
    Four(ModeByte(version), LongText(), LongText(), EndpointField(version), RuntimeIn(version))
  }

  lemma RuntimeFieldsLawful(version: nat)
    ensures SoundOn(RuntimeFields(version), RuntimeIn(version))
  {
    ModeByteLawful(version);
    LongTextLawful();
    EndpointFieldLawful(version);
    FourLawful(ModeByte(version), LongText(), LongText(), EndpointField(version), RuntimeIn(version));
  }

  predicate ShortFormat(f: DriverFormat) {
    Short(f.0)
  }

  function FormatFields(): Codec<DriverFormat> {
    Three(LongText(), U32(), U32(), ShortFormat)
  }

  lemma FormatFieldsLawful()
    ensures SoundOn(FormatFields(), ShortFormat)
  {
    LongTextLawful();
    U32Lawful();
    ThreeLawful(LongText(), U32(), U32(), ShortFormat);
  }

  predicate ChannelsFit(xs: seq<u32>) {
    |xs| <= AudioRuntime.MAX_ASIO_CHANNELS
  }

  function ChannelList(): Codec<seq<u32>> {
    Counted(U32(), UpTo(AudioRuntime.MAX_ASIO_CHANNELS), ChannelsFit)
  }

  lemma ChannelListLawful()
    ensures SoundOn(ChannelList(), ChannelsFit)
  {
    U32Lawful();
    forall xs: seq<u32> ensures AllOk(U32(), xs) {
      AllTrue(U32(), xs);
    }
    CountedLawful(U32(), UpTo(AudioRuntime.MAX_ASIO_CHANNELS), ChannelsFit);
  }

  predicate BothChannelsFit(t: DriverChannels) {
    ChannelsFit(t.0) && ChannelsFit(t.1)
  }

  function ChannelLists(): Codec<DriverChannels> {
    Two(ChannelList(), ChannelList(), BothChannelsFit)
  }

  lemma ChannelListsLawful()
    ensures SoundOn(ChannelLists(), BothChannelsFit)
  {
    ChannelListLawful();
    TwoLawful(ChannelList(), ChannelList(), BothChannelsFit);
  }

  predicate DriverFits(d: Driver) {
    ShortFormat(d.0) && BothChannelsFit(d.1)
  }

  function DriverTuples(): Codec<Driver> {
    Two(FormatFields(), ChannelLists(), DriverFits)
  }

  lemma DriverTuplesLawful()
    ensures SoundOn(DriverTuples(), DriverFits)
  {
    FormatFieldsLawful();
    ChannelListsLawful();
    TwoLawful(FormatFields(), ChannelLists(), DriverFits);
  }

  function DriverIn(version: nat): Driver -> bool {
    (d: Driver) => if version >= 4 then DriverFits(d) else d == NoDriver()
  }

  function DriverField(version: nat): Codec<Driver> {
    Field(version >= 4, DriverTuples(), NoDriver(), DriverIn(version))
  }

  lemma DriverFieldLawful(version: nat)
    ensures LawfulOn(DriverField(version), DriverIn(version))
  {
    DriverTuplesLawful();
    FieldLawful(version >= 4, DriverTuples(), NoDriver(), DriverIn(version));
  }

  predicate ShortTexts(t: Texts) {
    Short(t.0) && Short(t.1.0) && Short(t.1.1.0) && Short(t.1.1.1)
  }

  function IdentityFields(): Codec<Texts> {
    Four(LongText(), LongText(), LongText(), LongText(), ShortTexts)
  }

  lemma IdentityFieldsLawful()
    ensures SoundOn(IdentityFields(), ShortTexts)
  {
    LongTextLawful();
    FourLawful(LongText(), LongText(), LongText(), LongText(), ShortTexts);
  }

  function DeviceFlags(): Codec<DeviceRest> {
    Three(U32(), U32(), Flag(), Any())
  }

  lemma DeviceFlagsLawful()
    ensures SoundOn(DeviceFlags(), Any())
  {
    U32Lawful();
    FlagLawful();
    ThreeLawful(U32(), U32(), Flag(), Any());
  }

  predicate ShortDeviceTuple(t: (Texts, DeviceRest)) {
    ShortTexts(t.0)
  }

  function AsioDeviceTuples(): Codec<(Texts, DeviceRest)> {
    Two(IdentityFields(), DeviceFlags(), ShortDeviceTuple)
  }

  predicate ShortDevice(d: ControlCommand.VirtualAsioDevice) {
    Short(d.deviceId) && Short(d.clsid) && Short(d.registryName) && Short(d.brokerToken)
  }

  function AsioDevice(): Codec<ControlCommand.VirtualAsioDevice> {
    Record(AsioDeviceTuples(), DeviceToTuple, DeviceFromTuple, ShortDevice)
  }

  lemma AsioDeviceLawful()
    ensures SoundOn(AsioDevice(), ShortDevice)
  {
    IdentityFieldsLawful();
    DeviceFlagsLawful();
    TwoLawful(IdentityFields(), DeviceFlags(), ShortDeviceTuple);
    RecordLawful(AsioDeviceTuples(), DeviceToTuple, DeviceFromTuple, ShortDevice);
  }

  predicate DeviceCount(n: nat) {
    0 < n <= ControlCommand.MAX_VIRTUAL_ASIO_DEVICES
  }

  predicate DevicesFit(ds: Devices) {
    DeviceCount(|ds|) && forall k :: 0 <= k < |ds| ==> ShortDevice(ds[k])
  }

  function AsioDevices(): Codec<Devices> {
    Counted(AsioDevice(), DeviceCount, DevicesFit)
  }

  lemma AsioDevicesLawful()
    ensures SoundOn(AsioDevices(), DevicesFit)
  {
    AsioDeviceLawful();
    CountedLawful(AsioDevice(), DeviceCount, DevicesFit);
  }

  /** default_virtual_asio_device_definition(), which files before version 3 mean. */
  function DefaultDevice(): ControlCommand.VirtualAsioDevice {
    ControlCommand.VirtualAsioDevice(
      Ascii("default"), Ascii("{7F16C8A9-4A0C-4D31-9A5B-2C6E7F8D1042}"), Ascii("System Audio Route"), Ascii("virtual-asio"),
      2, 2, true)
  }

  function DevicesIn(version: nat): Devices -> bool {
    (ds: Devices) => if version >= 3 then DevicesFit(ds) else ds == [DefaultDevice()]
  }

  function DeviceField(version: nat): Codec<Devices> {
    Field(version >= 3, AsioDevices(), [DefaultDevice()], DevicesIn(version))
  }

  lemma DeviceFieldLawful(version: nat)
    ensures LawfulOn(DeviceField(version), DevicesIn(version))
  {
    AsioDevicesLawful();
    FieldLawful(version >= 3, AsioDevices(), [DefaultDevice()], DevicesIn(version));
  }

  type SessionBody = (Runtime, (Driver, (bool, Devices)))

  function BodyIn(version: nat): SessionBody -> bool {
    (b: SessionBody) => RuntimeIn(version)(b.0) && DriverIn(version)(b.1.0) && DevicesIn(version)(b.1.1.1)
  }

  function SessionBodyCodec(version: nat): Codec<SessionBody> {
    Four(RuntimeFields(version), DriverField(version), Flag(), DeviceField(version), BodyIn(version))
  }

  lemma SessionBodyLawful(version: nat)
    ensures SoundOn(SessionBodyCodec(version), BodyIn(version))
  {
    RuntimeFieldsLawful(version);
    DriverFieldLawful(version);
    FlagLawful();
    DeviceFieldLawful(version);
    hide RuntimeFields, DriverField, Flag, DeviceField, RuntimeIn, DriverIn, DevicesIn;
    FourLawful(RuntimeFields(version), DriverField(version), Flag(), DeviceField(version), BodyIn(version));
  }

  // The extension list.

  predicate ShortGroup(x: Extension) {
    Short(x.group)
  }

  predicate ShortExtensionTuple(t: ExtensionTuple) {
    Short(t.1.0)
  }

  function ExtensionFields(): Codec<ExtensionTuple> {
    Four(BackendByte(), LongText(), U32(), U32(), ShortExtensionTuple)
  }

  function SessionExtension(): Codec<Extension> {
    Record(ExtensionFields(), ExtensionToTuple, ExtensionFromTuple, ShortGroup)
  }

  lemma SessionExtensionLawful()
    ensures SoundOn(SessionExtension(), ShortGroup)
  {
    BackendByteLawful();
    LongTextLawful();
    U32Lawful();
    FourLawful(BackendByte(), LongText(), U32(), U32(), ShortExtensionTuple);
    RecordLawful(ExtensionFields(), ExtensionToTuple, ExtensionFromTuple, ShortGroup);
  }

  predicate ShortGroups(xs: seq<Extension>) {
    forall k :: 0 <= k < |xs| ==> ShortGroup(xs[k])
  }

  function GroupsOfLength(n: nat): seq<Extension> -> bool {
    (xs: seq<Extension>) => |xs| == n && ShortGroups(xs)
  }

  function SessionExtensions(n: nat): Codec<seq<Extension>> {
    Counted(SessionExtension(), Exactly(n), GroupsOfLength(n))
  }

  lemma SessionExtensionsLawful(n: nat)
    requires n < U32_MODULUS
    ensures SoundOn(SessionExtensions(n), GroupsOfLength(n))
  {
    SessionExtensionLawful();
    CountedLawful(SessionExtension(), Exactly(n), GroupsOfLength(n));
  }

  function ExtensionsIn(version: nat, n: nat): seq<Extension> -> bool {
    (xs: seq<Extension>) => if version >= 5 then GroupsOfLength(n)(xs) else xs == NoExtensions(n)
  }

  function ExtensionField(version: nat, n: nat): Codec<seq<Extension>> {
    Field(version >= 5, SessionExtensions(n), NoExtensions(n), ExtensionsIn(version, n))
  }

  lemma ExtensionFieldLawful(version: nat, n: nat)
    requires n < U32_MODULUS
    ensures LawfulOn(ExtensionField(version, n), ExtensionsIn(version, n))
  {
    SessionExtensionsLawful(n);
    FieldLawful(version >= 5, SessionExtensions(n), NoExtensions(n), ExtensionsIn(version, n));
  }

  function EndpointsOfBody(b: SessionBody): seq<Base> {
    b.0.1.1.1
  }

  function ExtensionsAfterBody(version: nat): SessionBody -> Codec<seq<Extension>> {
    (b: SessionBody) => ExtensionField(version, |EndpointsOfBody(b)|)
  }

  /** Everything behind the preset. */
  type SessionRest = (SessionBody, seq<Extension>)

  function RestIn(version: nat): SessionRest -> bool {
    (t: SessionRest) => BodyIn(version)(t.0) && ExtensionsIn(version, |EndpointsOfBody(t.0)|)(t.1)
  }

  function RestOver(body: Codec<SessionBody>, version: nat): Codec<SessionRest> {
    Depends(body, ExtensionsAfterBody(version), RestIn(version))
  }

  function RestCodec(version: nat): Codec<SessionRest> {
    RestOver(SessionBodyCodec(version), version)
  }

  lemma RestOverLawful(body: Codec<SessionBody>, version: nat)
    requires SoundOn(body, BodyIn(version))
    ensures SoundOn(RestOver(body, version), RestIn(version))
  {
    forall b: SessionBody | BodyIn(version)(b)
      ensures LawfulOn(ExtensionsAfterBody(version)(b), ExtensionsIn(version, |EndpointsOfBody(b)|))
    {
      FewEndpoints(b, version);
      ExtensionFieldLawful(version, |EndpointsOfBody(b)|);
    }
    forall t: SessionRest
      ensures RestIn(version)(t) <==> BodyIn(version)(t.0) && ExtensionsAfterBody(version)(t.0).ok(t.1)
    {
      AcceptedExtensions(t, version);
    }
    hide BodyIn, ExtensionField, RestIn, ExtensionsIn, ExtensionsAfterBody;
    DependsLawful(body, ExtensionsAfterBody(version), RestIn(version));
  }

  lemma AcceptedExtensions(t: SessionRest, version: nat)
    ensures RestIn(version)(t) <==> BodyIn(version)(t.0) && ExtensionsAfterBody(version)(t.0).ok(t.1)
  {
    hide BodyIn, ExtensionsIn, SessionExtensions;
  }

  lemma FewEndpoints(b: SessionBody, version: nat)
    requires BodyIn(version)(b)
    ensures |EndpointsOfBody(b)| <= AudioRuntime.MAX_ENDPOINTS
  {
    var runtime: Runtime := b.0;
    assert RuntimeIn(version)(runtime);
    assert EndpointsIn(version)(EndpointsOfBody(b));
  }

  lemma RestLawful(version: nat)
    ensures SoundOn(RestCodec(version), RestIn(version))
  {
    SessionBodyLawful(version);
    hide SessionBodyCodec, RestOver, BodyIn, RestIn;
    RestOverLawful(SessionBodyCodec(version), version);
  }

  // A group id that is too long.

  lemma CountedRefused<T(!new)>(
    c: Codec<T>, accept: nat -> bool, xs: seq<T>, k: nat, bytes: seq<u8>, input: seq<u8>, offset: nat, code: Code)
    requires RoundTrips(c) && k < |xs| < U32_MODULUS && Stops(c, xs[k], code) && forall j :: 0 <= j < k ==> c.ok(xs[j])
    requires accept(|xs|) && |input| < U32_MODULUS && At(input, offset, bytes)
    requires Then(Bytes(LittleEndian(|xs|, COUNT_BYTES)), EncodeAll(c, xs)) == Bytes(bytes)
    ensures Refuses(DecodeCounted(c, accept, input, offset), code)
  {
    PowerOfFour();
    hide RoundTrips, Stops, DecodeAll;
    var all := EncodeAll(c, xs).bytes;
    Prefix(input, offset, LittleEndian(|xs|, COUNT_BYTES), all);
    ScalarRoundTrips(|xs|, input, offset, COUNT_BYTES);
    ElementStops(c, xs, k, all, input, offset + COUNT_BYTES, code);
  }

  lemma CountedStops<T(!new)>(c: Codec<T>, accept: nat -> bool, ok: seq<T> -> bool, xs: seq<T>, k: nat, code: Code)
    requires RoundTrips(c) && k < |xs| < U32_MODULUS && Stops(c, xs[k], code) && forall j :: 0 <= j < k ==> c.ok(xs[j])
    requires accept(|xs|)
    ensures Stops(Counted(c, accept, ok), xs, code)
  {
    var r := Counted(c, accept, ok);
    forall input: seq<u8>, offset: nat | |input| < U32_MODULUS && r.enc(xs).Bytes? && At(input, offset, r.enc(xs).bytes)
      ensures Refuses(r.dec(input, offset), code)
    {
      CountedRefused(c, accept, xs, k, r.enc(xs).bytes, input, offset, code);
    }
  }

  lemma LongTextStops(t: Text)
    requires !Short(t)
    ensures Stops(LongText(), t, StringTooLong)
  {
    forall input: seq<u8>, offset: nat | |input| < U32_MODULUS && At(input, offset, EncodeLong(t).bytes)
      ensures Refuses(LongText().dec(input, offset), StringTooLong)
    {
      LongTextRefused(t, input, offset);
    }
  }

  lemma LongGroupStops(x: Extension)
    requires !ShortGroup(x)
    ensures Stops(SessionExtension(), x, StringTooLong)
  {
    LongTextStops(x.group);
    BackendByteLawful();
    var timing := Two(U32(), U32(), BothOk(U32(), U32()));
    FirstStops(LongText(), timing, AllThreeOk(LongText(), U32(), U32()), (x.group, (x.sampleRate, x.blockFrames)),
               StringTooLong);
    SecondStops(BackendByte(), Three(LongText(), U32(), U32(), AllThreeOk(LongText(), U32(), U32())), ShortExtensionTuple,
                ExtensionToTuple(x), StringTooLong);
    RecordStops(ExtensionFields(), ExtensionToTuple, ExtensionFromTuple, ShortGroup, x, StringTooLong);
  }

  lemma FirstLongGroup(xs: seq<Extension>) returns (k: nat)
    requires !ShortGroups(xs)
    ensures k < |xs| && !ShortGroup(xs[k]) && forall j :: 0 <= j < k ==> ShortGroup(xs[j])
  {
    k := 0;
    while ShortGroup(xs[k])
      invariant k < |xs| && !ShortGroups(xs) && forall j :: 0 <= j < k ==> ShortGroup(xs[j])
      decreases |xs| - k
    {
      k := k + 1;
    }
  }

  /** The list with a group id that is too long stops the decoder. */
  lemma LongGroupsStop(xs: seq<Extension>)
    requires !ShortGroups(xs) && |xs| < U32_MODULUS
    ensures Stops(SessionExtensions(|xs|), xs, StringTooLong)
  {
    var k := FirstLongGroup(xs);
    LongGroupStops(xs[k]);
    SessionExtensionLawful();
    CountedStops(SessionExtension(), Exactly(|xs|), GroupsOfLength(|xs|), xs, k, StringTooLong);
  }

  lemma RestStops(body: Codec<SessionBody>, t: SessionRest)
    requires RoundTrips(body) && body.ok(t.0) && !ShortGroups(t.1) && |t.1| == |EndpointsOfBody(t.0)| < U32_MODULUS
    ensures Stops(RestOver(body, NEWEST), t, StringTooLong)
  {
    LongGroupsStop(t.1);
    FieldStops(NEWEST >= 5, SessionExtensions(|t.1|), NoExtensions(|t.1|), ExtensionsIn(NEWEST, |t.1|), t.1, StringTooLong);
    DependentStops(body, ExtensionsAfterBody(NEWEST), RestIn(NEWEST), t, StringTooLong);
  }
}
