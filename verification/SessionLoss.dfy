/** A session that the encoder writes and the decoder refuses: a valid matrix runtime over one ASIO driver
    whose group id is one byte too long for the reader. */
module SessionLoss {
  import opened Basics
  import opened Codecs
  import opened WireCommand
  import opened EncodedSizes
  import opened SessionDocument
  import opened SessionFile
  import PresetFile
  import Preset
  import AudioRuntime
  import ControlCommand
  import S = SessionCodec

  // The session.

  function LongGroup(): (t: Text)
    ensures |t| == Codecs.MAX_STRING + 1
  {
    seq(Codecs.MAX_STRING + 1, _ => 103)
  }

  function CaptureEnd(group: Text): AudioRuntime.Endpoint {
    AudioRuntime.Endpoint([99], [100], AudioRuntime.Capture, false, 0, 1, AudioRuntime.Asio, group, 48000, 128)
  }

  function RenderEnd(group: Text): AudioRuntime.Endpoint {
    AudioRuntime.Endpoint([114], [100], AudioRuntime.Render, true, 0, 1, AudioRuntime.Asio, group, 48000, 128)
  }

  function AsioMatrix(group: Text): AudioRuntime.Configuration {
    AudioRuntime.Configuration(AudioRuntime.WasapiMatrix, [], [], [CaptureEnd(group), RenderEnd(group)], [], 0, 0, [], [])
  }

  /** A class id of zeros. */
  function ZeroClsid(): (t: Text)
    ensures |t| == 38
  {
    seq(38, k => if k == 0 then 123 else if k == 37 then 125 else if k == 9 || k == 14 || k == 19 || k == 24 then 45 else 48)
  }

  function OneDevice(): ControlCommand.VirtualAsioDevice {
    ControlCommand.VirtualAsioDevice([100], ZeroClsid(), [110], [116], 2, 2, true)
  }

  /** A session over one ASIO driver, whose group id may be anything but empty. */
  function AsioSession(group: Text): Session {
    Session(SessionDocument.SCHEMA_VERSION, SmallPreset(), AsioMatrix(group), [OneDevice()], false)
  }

  lemma EndpointsInOrder(group: Text)
    requires group != []
    ensures var es := [CaptureEnd(group), RenderEnd(group)];
            AudioRuntime.EndpointErrorsAt(es, 0) == [] && AudioRuntime.EndpointErrorsAt(es, 1) == []
  {
    var es := [CaptureEnd(group), RenderEnd(group)];
    AudioRuntime.NativeKeyIsExact(es[0], es[1]);
    hide AudioRuntime.NativeKey;
    assert AudioRuntime.Ids(es)[..1][0] == [99];
    assert AudioRuntime.NativeKeys(es)[..1][0] == AudioRuntime.NativeKey(es[0]);
  }

  lemma PairsInOrder(group: Text)
    ensures var es := [CaptureEnd(group), RenderEnd(group)];
            AudioRuntime.PairErrorsAt(es, 0) == [] && AudioRuntime.PairErrorsAt(es, 1) == []
  {
    var es := [CaptureEnd(group), RenderEnd(group)];
    assert AudioRuntime.Counterpart(es[0], es[1]) && AudioRuntime.Counterpart(es[1], es[0]);
    assert AudioRuntime.FindCounterpart(es, es[0], 1) == 1 && AudioRuntime.FindCounterpart(es, es[0], 0) == 1;
    assert AudioRuntime.FindCounterpart(es, es[1], 0) == 0;
  }

  lemma ConcatTwo(parts: seq<seq<AudioRuntime.Error>>)
    requires |parts| == 2 && parts[0] == [] && parts[1] == []
    ensures AudioRuntime.Concat(parts) == []
  {
    assert parts[..1][..0] == [];
    assert AudioRuntime.Concat(parts[..1][..0]) == [];
    assert AudioRuntime.Concat(parts[..1]) == [];
  }

  lemma CountsInOrder(group: Text)
    ensures var es := [CaptureEnd(group), RenderEnd(group)];
            AudioRuntime.Renders(es, 2) == 1 && AudioRuntime.Masters(es, 2) == 1 && AudioRuntime.Groups(es, 2) == {group}
  {
    var es := [CaptureEnd(group), RenderEnd(group)];
    assert AudioRuntime.Renders(es, 1) == 0 && AudioRuntime.Masters(es, 1) == 0 && AudioRuntime.Groups(es, 1) == {group};
  }

  lemma ListInOrder(es: seq<AudioRuntime.Endpoint>, group: Text)
    requires |es| == 2 && AudioRuntime.EndpointErrorsAt(es, 0) == [] && AudioRuntime.EndpointErrorsAt(es, 1) == []
    requires AudioRuntime.PairErrorsAt(es, 0) == [] && AudioRuntime.PairErrorsAt(es, 1) == []
    requires AudioRuntime.Renders(es, 2) == 1 && AudioRuntime.Masters(es, 2) == 1 && AudioRuntime.Groups(es, 2) == {group}
    ensures AudioRuntime.ListErrors(es) == []
  {
    hide AudioRuntime.EndpointErrorsAt, AudioRuntime.PairErrorsAt, AudioRuntime.Concat, AudioRuntime.Groups;
    hide AudioRuntime.Renders, AudioRuntime.Masters;
    ConcatTwo(AudioRuntime.EndpointErrors(es));
    ConcatTwo(AudioRuntime.PairErrors(es));
  }

  lemma AsioEndsInOrder(group: Text)
    requires group != []
    ensures AudioRuntime.ListErrors([CaptureEnd(group), RenderEnd(group)]) == []
  {
    hide *;
    EndpointsInOrder(group);
    PairsInOrder(group);
    CountsInOrder(group);
    ListInOrder([CaptureEnd(group), RenderEnd(group)], group);
  }

  lemma AsioMatrixIsValid(group: Text)
    requires group != []
    ensures AudioRuntime.Errors(AsioMatrix(group), true) == []
  {
    hide AudioRuntime.ListErrors, CaptureEnd, RenderEnd;
    AsioEndsInOrder(group);
  }

  lemma OneDeviceIsValid()
    ensures ValidDevice(OneDevice())
  {
  }

  lemma OneDeviceList(d: ControlCommand.VirtualAsioDevice)
    requires ValidDevice(d)
    ensures ValidDevices([d]) && AllDiffer([d], 1)
  {
    hide ValidDevice;
  }

  lemma AsioMatrixIsShort(group: Text)
    ensures var c := AsioMatrix(group); c.captureDevice == [] && c.renderDevice == [] && ShortFields(c.endpoints)
  {
  }

  lemma PartsAreValid(s: Session)
    requires s.schemaVersion == SessionDocument.SCHEMA_VERSION && Preset.Valid(s.preset) && !s.autoStart
    requires s.runtime.captureDevice == [] && s.runtime.renderDevice == [] && ShortFields(s.runtime.endpoints)
    requires AudioRuntime.Errors(s.runtime, true) == [] && |s.devices| == 1
    requires ValidDevices(s.devices) && AllDiffer(s.devices, |s.devices|)
    ensures Errors(s) == []
  {
    hide Errors, Preset.Valid, AudioRuntime.Errors, AudioRuntime.ValidConfiguration, ShortFields, ValidDevices, AllDiffer;
    AudioRuntime.ValidConfigurationIff(s.runtime, true);
    ValidIff(s);
  }

  lemma AsioSessionIsValid(group: Text)
    requires group != []
    ensures Errors(AsioSession(group)) == []
  {
    hide AsioMatrix, OneDevice, SmallPreset, AudioRuntime.Errors, Preset.Valid, Preset.Errors, ValidDevice, Errors;
    hide ShortFields, ValidDevices, AllDiffer;
    SmallPresetIsValid();
    Preset.ValidIff(SmallPreset());
    AsioMatrixIsValid(group);
    AsioMatrixIsShort(group);
    OneDeviceIsValid();
    OneDeviceList(OneDevice());
    PartsAreValid(AsioSession(group));
  }

  // How large its file is.

  lemma CountedNone<T>(c: Codec<T>, accept: nat -> bool, ok: seq<T> -> bool)
    ensures Takes(S.Counted(c, accept, ok), [], 4)
  {
  }

  lemma CountedOne<T>(c: Codec<T>, accept: nat -> bool, ok: seq<T> -> bool, t: T, n: nat)
    requires Takes(c, t, n)
    ensures Takes(S.Counted(c, accept, ok), [t], n + 4)
  {
    assert EncodeAll(c, [t]) == Then(c.enc(t), EncodeAll(c, []));
  }

  lemma CountedTwo<T>(c: Codec<T>, accept: nat -> bool, ok: seq<T> -> bool, t: T, u: T, n: nat)
    requires Takes(c, t, n) && Takes(c, u, n)
    ensures Takes(S.Counted(c, accept, ok), [t, u], n + n + 4)
  {
    assert [t, u][1..] == [u];
    assert EncodeAll(c, [u]) == Then(c.enc(u), EncodeAll(c, []));
    assert EncodeAll(c, [t, u]) == Then(c.enc(t), EncodeAll(c, [u]));
  }

  lemma LongTextTakes(t: Text, n: nat)
    requires |t| <= n
    ensures Takes(S.LongText(), t, n + 4)
  {
  }

  lemma ByteTakes(n: nat, most: u8)
    ensures Takes(S.Byte(most), n, 1)
  {
    assert S.Byte(most).enc(n) == Scalar(1).enc(n) == Bytes(LittleEndian(n, 1));
  }

  lemma FlagTakes(b: bool)
    ensures Takes(S.Flag(), b, 1)
  {
    ByteTakes(BoolToNat(b), 1);
    RecordTakes(S.Byte(1), BoolToNat, NatToBool, Any(), b, 1);
  }

  lemma BaseTakes(b: Base)
    requires |b.id| == 1 && |b.device| == 1
    ensures Takes(S.EndpointCodec(), b, 20)
  {
    hide Takes, Scalar;
    LongTextTakes(b.id, 1);
    LongTextTakes(b.device, 1);
    ByteTakes(DirectionIndex(b.direction), 1);
    RecordTakes(S.Byte(1), DirectionIndex, DirectionAt, Any(), b.direction, 1);
    ThreeTake(S.LongText(), S.LongText(), S.DirectionByte(), S.ShortStart, BaseToTuple(b).0, 5, 5, 1);
    FlagTakes(b.clockMaster);
    NumbersTake(b.firstChannel, 0);
    NumbersTake(b.channelCount, 0);
    ThreeTake(S.Flag(), U32(), U32(), Any(), BaseToTuple(b).1, 1, 4, 4);
    TwoTake(S.EndpointStart(), S.EndpointRest(), S.ShortTuple, BaseToTuple(b), 11, 9);
    RecordTakes(S.EndpointTuples(), BaseToTuple, BaseFromTuple, S.ShortBase, b, 20);
  }

  lemma RuntimeTakes(t: Runtime)
    requires t.1.0 == [] && t.1.1.0 == [] && |t.1.1.1| == 2
    requires |t.1.1.1[0].id| == 1 && |t.1.1.1[0].device| == 1 && |t.1.1.1[1].id| == 1 && |t.1.1.1[1].device| == 1
    ensures Takes(S.RuntimeFields(S.NEWEST), t, 53)
  {
    hide Takes, Scalar, S.EndpointCodec;
    ByteTakes(ModeIndex(t.0), S.LastModeIn(S.NEWEST));
    RecordTakes(S.Byte(S.LastModeIn(S.NEWEST)), ModeIndex, ModeAt, S.ModeIn(S.NEWEST), t.0, 1);
    LongTextTakes([], 0);
    var bs := t.1.1.1;
    BaseTakes(bs[0]);
    BaseTakes(bs[1]);
    CountedTwo(S.EndpointCodec(), UpTo(AudioRuntime.MAX_ENDPOINTS), S.EndpointsFit, bs[0], bs[1], 20);
    assert bs == [bs[0], bs[1]];
    PresentTakes(S.NEWEST >= 2, S.EndpointList(), [], S.EndpointsIn(S.NEWEST), bs, 44);
    FourTake(S.ModeByte(S.NEWEST), S.LongText(), S.LongText(), S.EndpointField(S.NEWEST), S.RuntimeIn(S.NEWEST), t, 1, 4, 4, 44);
  }

  lemma FieldTakes<T>(present: bool, c: Codec<T>, default: T, ok: T -> bool, t: T, n: nat)
    requires present && Takes(c, t, n)
    ensures Takes(Field(present, c, default, ok), t, n)
  {
  }

  lemma NoDriverTakes()
    ensures Takes(S.DriverField(S.NEWEST), NoDriver(), 20)
  {
    hide Takes, Scalar;
    LongTextTakes([], 0);
    NumbersTake(0, 0);
    ThreeTake(S.LongText(), U32(), U32(), S.ShortFormat, NoDriver().0, 4, 4, 4);
    CountedNone(U32(), UpTo(AudioRuntime.MAX_ASIO_CHANNELS), S.ChannelsFit);
    TwoTake(S.ChannelList(), S.ChannelList(), S.BothChannelsFit, NoDriver().1, 4, 4);
    TwoTake(S.FormatFields(), S.ChannelLists(), S.DriverFits, NoDriver(), 12, 8);
    PresentTakes(S.NEWEST >= 4, S.DriverTuples(), NoDriver(), S.DriverIn(S.NEWEST), NoDriver(), 20);
  }

  lemma DeviceTakes(d: ControlCommand.VirtualAsioDevice)
    requires |d.deviceId| == 1 && |d.clsid| == 38 && |d.registryName| == 1 && |d.brokerToken| == 1
    ensures Takes(S.AsioDevice(), d, 66)
  {
    hide Takes, Scalar;
    LongTextTakes(d.deviceId, 1);
    LongTextTakes(d.clsid, 38);
    LongTextTakes(d.registryName, 1);
    LongTextTakes(d.brokerToken, 1);
    FourTake(S.LongText(), S.LongText(), S.LongText(), S.LongText(), S.ShortTexts, DeviceToTuple(d).0, 5, 42, 5, 5);
    NumbersTake(d.inputChannels, 0);
    NumbersTake(d.outputChannels, 0);
    FlagTakes(d.enabled);
    ThreeTake(U32(), U32(), S.Flag(), Any(), DeviceToTuple(d).1, 4, 4, 1);
    TwoTake(S.IdentityFields(), S.DeviceFlags(), S.ShortDeviceTuple, DeviceToTuple(d), 57, 9);
    RecordTakes(S.AsioDeviceTuples(), DeviceToTuple, DeviceFromTuple, S.ShortDevice, d, 66);
  }

  lemma DevicesTake()
    ensures Takes(S.DeviceField(S.NEWEST), [OneDevice()], 70)
  {
    hide Takes, Scalar, S.AsioDevice, ZeroClsid;
    DeviceTakes(OneDevice());
    CountedOne(S.AsioDevice(), S.DeviceCount, S.DevicesFit, OneDevice(), 66);
    PresentTakes(S.NEWEST >= 3, S.AsioDevices(), [S.DefaultDevice()], S.DevicesIn(S.NEWEST), [OneDevice()], 70);
  }

  lemma ExtensionTakes(x: Extension, n: nat)
    requires |x.group| <= n
    ensures Takes(S.SessionExtension(), x, n + 13)
  {
    hide Takes, Scalar;
    ByteTakes(BackendIndex(x.backend), 1);
    RecordTakes(S.Byte(1), BackendIndex, BackendAt, Any(), x.backend, 1);
    LongTextTakes(x.group, n);
    NumbersTake(x.sampleRate, 0);
    NumbersTake(x.blockFrames, 0);
    FourTake(S.BackendByte(), S.LongText(), U32(), U32(), S.ShortExtensionTuple, ExtensionToTuple(x), 1, n + 4, 4, 4);
    RecordTakes(S.ExtensionFields(), ExtensionToTuple, ExtensionFromTuple, S.ShortGroup, x, n + 13);
  }

  lemma BodyTakes(s: Session)
    requires s.runtime.captureDevice == [] && s.runtime.renderDevice == [] && |s.runtime.endpoints| == 2
    requires forall k :: 0 <= k < 2 ==> |s.runtime.endpoints[k].id| == 1 && |s.runtime.endpoints[k].device| == 1
    requires DriverOf(s.runtime) == NoDriver() && s.devices == [OneDevice()]
    ensures Takes(S.SessionBodyCodec(S.NEWEST), BodyOf(s), 144)
  {
    hide Takes, S.RuntimeFields, S.DriverField, S.DeviceField, S.Flag, OneDevice, NoDriver;
    RuntimeTakes(RuntimeOf(s.runtime));
    NoDriverTakes();
    FlagTakes(s.autoStart);
    DevicesTake();
    FourTake(S.RuntimeFields(S.NEWEST), S.DriverField(S.NEWEST), S.Flag(), S.DeviceField(S.NEWEST), S.BodyIn(S.NEWEST), BodyOf(s),
             53, 20, 1, 70);
  }

  lemma ExtensionsTake(b: S.SessionBody, x: Extension, y: Extension, n: nat)
    requires |x.group| <= n && |y.group| <= n && |S.EndpointsOfBody(b)| == 2
    ensures Takes(S.ExtensionsAfterBody(S.NEWEST)(b), [x, y], 2 * n + 30)
  {
    hide S.SessionExtension, Takes, S.EndpointsOfBody;
    ExtensionTakes(x, n);
    ExtensionTakes(y, n);
    CountedTwo(S.SessionExtension(), Exactly(2), S.GroupsOfLength(2), x, y, n + 13);
    PresentTakes(S.NEWEST >= 5, S.SessionExtensions(2), NoExtensions(2), S.ExtensionsIn(S.NEWEST, 2), [x, y], 2 * n + 30);
  }

  lemma RestTakes(body: Codec<S.SessionBody>, t: S.SessionRest, m: nat, n: nat)
    requires Takes(body, t.0, m) && Takes(S.ExtensionsAfterBody(S.NEWEST)(t.0), t.1, n)
    ensures Takes(S.RestOver(body, S.NEWEST), t, m + n)
  {
    hide Takes, S.ExtensionsAfterBody;
    DependsTake(body, S.ExtensionsAfterBody(S.NEWEST), S.RestIn(S.NEWEST), t, m, n);
  }

  lemma AsioRestTakes(group: Text)
    ensures Takes(S.RestCodec(S.NEWEST), RestOf(AsioSession(group)), 2 * |group| + 174)
  {
    hide Takes, S.SessionBodyCodec, S.RestOver, S.ExtensionsAfterBody, OneDevice, SmallPreset;
    var s := AsioSession(group);
    var b, xs := BodyOf(s), Extensions(s.runtime.endpoints);
    BodyTakes(s);
    assert xs == [xs[0], xs[1]];
    ExtensionsTake(b, xs[0], xs[1], |group|);
    RestTakes(S.SessionBodyCodec(S.NEWEST), RestOf(s), 144, 2 * |group| + 30);
  }

  lemma SmallStartTakes(schema: nat, presetFile: seq<u8>, n: nat)
    requires |presetFile| <= n
    ensures Takes(S.StartCodec(), (schema, presetFile), n + 8)
  {
    hide Takes;
    SchemaTakes(schema);
    BlobTakes(presetFile, n);
    TwoTake(S.Schema(), S.Blob(), S.StartFits, (schema, presetFile), 4, n + 4);
  }

  lemma SchemaTakes(schema: nat)
    ensures Takes(S.Schema(), schema, 4)
  {
    assert S.Schema().enc(schema) == Scalar(4).enc(schema) == Bytes(LittleEndian(schema, 4));
  }

  lemma BlobTakes(presetFile: seq<u8>, n: nat)
    requires |presetFile| <= n
    ensures Takes(S.Blob(), presetFile, n + 4)
  {
  }

  lemma PayloadTakes(s: Session, presetFile: seq<u8>, m: nat, n: nat)
    requires Takes(S.StartCodec(), (s.schemaVersion, presetFile), m) && Takes(S.RestCodec(S.NEWEST), RestOf(s), n)
    requires FILE_HEADER + m + n <= MAX_FILE
    ensures Sealed(Payload(s, presetFile)).Encoded?
  {
    hide S.StartCodec, S.RestCodec, RestOf;
  }

  lemma EncodesIfSealed(s: Session, presetFile: seq<u8>)
    requires Errors(s) == [] && PresetFile.EncodePresetFile(s.preset) == PresetFile.Encoded(presetFile)
    requires |presetFile| <= U32_MAX && Sealed(Payload(s, presetFile)).Encoded?
    ensures EncodeSession(s).Encoded?
  {
    hide Errors, PresetFile.EncodePresetFile, Payload, Sealed;
  }

  /** The session is written as long as its group id leaves room for it. */
  lemma AsioSessionEncodes(group: Text)
    requires 0 < |group| <= 0x4_0000
    ensures EncodeSession(AsioSession(group)).Encoded?
  {
    hide AsioSession, SmallPreset, Errors, EncodeSession, RestOf, Takes, S.StartCodec, S.RestCodec, Payload, Sealed;
    hide PresetFile.EncodePresetFile;
    var s := AsioSession(group);
    AsioSessionIsValid(group);
    PresetIsSmall(group);
    SmallPresetFile();
    var presetFile := PresetFile.EncodePresetFile(SmallPreset()).bytes;
    SmallStartTakes(s.schemaVersion, presetFile, 102);
    AsioRestTakes(group);
    PayloadTakes(s, presetFile, 110, 2 * |group| + 174);
    EncodesIfSealed(s, presetFile);
  }

  lemma PresetIsSmall(group: Text)
    ensures AsioSession(group).preset == SmallPreset() && AsioSession(group).schemaVersion == 2
  {
  }

  lemma GroupsOfSession(group: Text)
    ensures ShortGroupIds(AsioSession(group)) <==> |group| <= Codecs.MAX_STRING
  {
    var s := AsioSession(group);
    assert s.runtime.endpoints[0].group == group;
  }

  /** One concrete session: valid and written, but its file cannot be read back. */
  lemma AWrittenSessionIsLost()
    ensures var s := AsioSession(LongGroup());
            && Errors(s) == [] && EncodeSession(s).Encoded?
            && DecodeSession(EncodeSession(s).bytes) == NotDecoded(InvalidSessionFile)
  {
    hide AsioSession, LongGroup, Errors, EncodeSession, DecodeSession;
    var s := AsioSession(LongGroup());
    AsioSessionIsValid(LongGroup());
    AsioSessionEncodes(LongGroup());
    GroupsOfSession(LongGroup());
    SessionFilesRoundTrip(s, EncodeSession(s).bytes);
  }
}
