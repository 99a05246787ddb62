/** Upper bounds for the size of an encoding, and a small preset file and response measured with them. */
module EncodedSizes {
  import opened Basics
  import opened Codecs
  import opened WireStream
  import opened WireMessage
  import opened WirePreset
  import opened WireCommand
  import opened WireResponse
  import opened WireRefusals
  import PresetFile
  import Preset
  import AudioRuntime
  import ControlCommand

  ghost predicate Takes<T>(c: Codec<T>, t: T, n: nat) {
    c.enc(t).Bytes? && |c.enc(t).bytes| <= n
  }

  lemma TwoTake<A, B>(a: Codec<A>, b: Codec<B>, ok: ((A, B)) -> bool, t: (A, B), m: nat, n: nat)
    requires Takes(a, t.0, m) && Takes(b, t.1, n)
    ensures Takes(Two(a, b, ok), t, m + n)
  {
  }

  lemma ThreeTake<A, B, C>(a: Codec<A>, b: Codec<B>, c: Codec<C>, ok: ((A, (B, C))) -> bool, t: (A, (B, C)), l: nat, m: nat, n: nat)
    requires Takes(a, t.0, l) && Takes(b, t.1.0, m) && Takes(c, t.1.1, n)
    ensures Takes(Three(a, b, c, ok), t, l + m + n)
  {
    TwoTake(b, c, BothOk(b, c), t.1, m, n);
    TwoTake(a, Two(b, c, BothOk(b, c)), ok, t, l, m + n);
  }

  lemma FourTake<A, B, C, D>(
    a: Codec<A>, b: Codec<B>, c: Codec<C>, d: Codec<D>, ok: ((A, (B, (C, D)))) -> bool, t: (A, (B, (C, D))),
    k: nat, l: nat, m: nat, n: nat)
    requires Takes(a, t.0, k) && Takes(b, t.1.0, l) && Takes(c, t.1.1.0, m) && Takes(d, t.1.1.1, n)
    ensures Takes(Four(a, b, c, d, ok), t, k + l + m + n)
  {
    ThreeTake(b, c, d, AllThreeOk(b, c, d), t.1, l, m, n);
    TwoTake(a, Three(b, c, d, AllThreeOk(b, c, d)), ok, t, k, l + m + n);
  }

  lemma DependsTake<A, B>(a: Codec<A>, b: A -> Codec<B>, ok: ((A, B)) -> bool, t: (A, B), m: nat, n: nat)
    requires Takes(a, t.0, m) && Takes(b(t.0), t.1, n)
    ensures Takes(Depends(a, b, ok), t, m + n)
  {
  }

  lemma RecordTakes<A, B>(c: Codec<A>, to: B -> A, from: A -> B, ok: B -> bool, t: B, n: nat)
    requires Takes(c, to(t), n)
    ensures Takes(Record(c, to, from, ok), t, n)
  {
  }

  lemma BooleanTakes(b: bool)
    ensures Takes(Boolean(), b, 1)
  {
    assert Boolean().enc(b) == Scalar(1).enc(BoolToNat(b)) == Bytes(LittleEndian(BoolToNat(b), 1));
  }

  lemma UnsetTakes<T>(c: Codec<T>, ok: T -> bool, default: T, t: T)
    ensures Takes(Flagged(c, ok, default), (false, t), 1)
  {
    BooleanTakes(false);
    assert Behind(c, ok, default)(false).enc(t) == Bytes([]);
    DependsTake(Boolean(), Behind(c, ok, default), FlagFits(ok, default), (false, t), 1, 0);
  }

  lemma SetTakes<T>(c: Codec<T>, ok: T -> bool, default: T, t: T, n: nat)
    requires Takes(c, t, n)
    ensures Takes(Flagged(c, ok, default), (true, t), n + 1)
  {
    BooleanTakes(true);
    assert Behind(c, ok, default)(true).enc(t) == c.enc(t);
    DependsTake(Boolean(), Behind(c, ok, default), FlagFits(ok, default), (true, t), 1, n);
  }

  lemma ListOfNone<T>(c: Codec<T>, accept: nat -> bool, ok: seq<T> -> bool)
    ensures Takes(ListOf(c, accept, ok), [], 4)
  {
  }

  lemma ListOfOne<T>(c: Codec<T>, accept: nat -> bool, ok: seq<T> -> bool, t: T, n: nat)
    requires Takes(c, t, n)
    ensures Takes(ListOf(c, accept, ok), [t], n + 4)
  {
    assert EncodeAll(c, [t]) == Then(c.enc(t), EncodeAll(c, []));
  }

  lemma NumbersTake(n: u32, big: u64)
    ensures Takes(U32(), n, 4) && Takes(U64(), big, 8)
  {
  }

  lemma TextTakes(t: Text, n: nat)
    requires |t| <= n
    ensures |t| <= Codecs.MAX_STRING ==> Takes(String(), t, n + 4)
  {
  }

  // The preset inside.

  function SmallPreset(): Preset.Document {
    Preset.Document(1, 48000, 128, [], [Preset.Endpoint([105], [105])], [Preset.Endpoint([111], [111])], [])
  }

  lemma SmallPresetIsValid()
    ensures Preset.Errors(SmallPreset()) == []
  {
    Preset.ValidIff(SmallPreset());
  }

  lemma EndpointTakes(e: Preset.Endpoint)
    requires |e.id| == 1 && |e.name| == 1
    ensures Takes(WirePreset.EndpointCodec(), e, 10)
  {
    TextTakes(e.id, 1);
    TextTakes(e.name, 1);
    TwoTake(String(), String(), Any(), (e.id, e.name), 5, 5);
    RecordTakes(EndpointTuples(), EndpointToTuple, EndpointFromTuple, Any(), e, 10);
  }

  lemma SmallListsTake()
    ensures Takes(ListsCodec(), ListsOf(SmallPreset()), 36)
  {
    hide NodeCodec, WirePreset.EndpointCodec, RouteCodec, Takes, ListOf;
    var p := SmallPreset();
    ListOfNone(NodeCodec(), Any(), Any());
    EndpointTakes(p.inputs[0]);
    ListOfOne(WirePreset.EndpointCodec(), Any(), Any(), p.inputs[0], 10);
    EndpointTakes(p.outputs[0]);
    ListOfOne(WirePreset.EndpointCodec(), Any(), Any(), p.outputs[0], 10);
    ListOfNone(RouteCodec(), Any(), AllFinite);
    FourTake(NodesCodec(), EndpointsCodec(), EndpointsCodec(), RoutesCodec(), FiniteLists, ListsOf(p), 4, 14, 14, 4);
  }

  lemma SmallPresetTakes()
    ensures Takes(PresetCodec(), SmallPreset(), 48)
  {
    hide ListsCodec, Takes;
    var p := SmallPreset();
    NumbersTake(p.schemaVersion, 0);
    NumbersTake(p.sampleRate, 0);
    NumbersTake(p.framesPerBlock, 0);
    ThreeTake(U32(), U32(), U32(), Any(), FormatOf(p), 4, 4, 4);
    SmallListsTake();
    TwoTake(FormatCodec(), ListsCodec(), FiniteParts, (FormatOf(p), ListsOf(p)), 12, 36);
    RecordTakes(PresetTuples(), PresetToTuple, PresetFromTuple, FinitePreset, p, 48);
  }

  function SmallResponse(): Response {
    PresetFile.PresetResponse(Ascii("preset-file"), SmallPreset())
  }

  lemma StartTakes(t: Start)
    requires |t.0| == 11 && t.1 == (0, [])
    ensures Takes(WireResponse.StartCodec(), t, 23)
  {
    hide Takes;
    TextTakes(t.0, 11);
    EnumeratorTakes(0);
    ListOfNone(ErrorTextCodec(), Any(), Any());
    ThreeTake(String(), BinaryCodec(), ErrorsCodec(), Any(), t, 15, 4, 4);
  }

  lemma EnumeratorTakes(x: Binary)
    ensures Takes(BinaryCodec(), x, 4)
  {
    var n: nat := x;
    assert BinaryCodec().enc(x) == Enumeration(1).enc(n) == Bytes(LittleEndian(n, 4));
  }

  lemma DocumentsTake(t: Documents)
    requires |t.0.0| == 11 && t.0.1 == (0, []) && t.1.0 == (true, SmallPreset()) && !t.1.1.0.0 && !t.1.1.1.0
    ensures Takes(DocumentsCodec(VERSION), t, 74)
  {
    hide Takes, WireResponse.StartCodec, PresetCodec, ReportCodec, DeviceListCodec, SmallPreset, Flagged;
    StartTakes(t.0);
    SmallPresetTakes();
    SetTakes(PresetCodec(), FinitePreset, NoPreset(), SmallPreset(), 48);
    UnsetTakes(ReportCodec(VERSION), ReportFits(VERSION), NoReport(), t.1.1.0.1);
    UnsetTakes(DeviceListCodec(VERSION), AllDevicesOk(VERSION), [], t.1.1.1.1);
    FourTake(WireResponse.StartCodec(), PresetFlag(), ReportFlag(VERSION), DevicesFlag(VERSION), DocumentsFit(VERSION), t, 23, 49, 1, 1);
  }

  lemma RuntimesTake(t: Runtimes)
    requires !t.0.1.1.0 && !t.1.0.0 && !t.1.1.0
    ensures Takes(RuntimesCodec(VERSION), t, 12)
  {
    hide Takes, GraphCodec, RuntimeStateCodec, Flagged;
    NumbersTake(0, t.0.0);
    BooleanTakes(t.0.1.0);
    UnsetTakes(GraphCodec(), Any(), NoGraph(), t.0.1.1.1);
    ThreeTake(U64(), Boolean(), GraphFlag(), VersionsFit(), t.0, 8, 1, 1);
    UnsetTakes(RuntimeStateCodec(VERSION), RuntimeTupleFits(VERSION), NoRuntime(), t.1.0.1);
    UnsetTakes(AnyList(DeviceCodec()), Any(), [], t.1.1.1);
    VirtualTakes(t.1.1);
    ThreeTake(VersionsCodec(), RuntimeFlag(VERSION), VirtualFlag(VERSION), RuntimesFit(VERSION), t, 10, 1, 1);
  }

  lemma VirtualTakes(t: (bool, Devices))
    requires Takes(VirtualDevices(), t, 1)
    ensures Takes(VirtualFlag(VERSION), t, 1)
  {
    hide VirtualDevices;
  }

  lemma ResponseTakes(r: Response)
    requires r == SmallResponse()
    ensures Takes(ResponseTuples(VERSION), ResponseToTuple(r), 90)
  {
    hide Takes, DocumentsCodec, RuntimesCodec, SmallPreset;
    var t := ResponseToTuple(r);
    DocumentsTake(t.0.0);
    RuntimesTake(t.0.1);
    TwoTake(DocumentsCodec(VERSION), RuntimesCodec(VERSION), ResponseBodyFits(VERSION), t.0, 74, 12);
    NoExtensionsTake(t.0);
    DependsTake(ResponseBodyCodec(VERSION), ExtensionsBehind(VERSION), ResponseFits(VERSION), t, 86, 4);
  }

  lemma NoExtensionsTake(b: ResponseBody)
    ensures Takes(ExtensionsBehind(VERSION)(b), [], 4)
  {
    hide ExtensionCodec;
    var n := |EndpointsOf(b)|;
    ListOfNone(ExtensionCodec(), Exactly(n), OfLength(n));
  }

  lemma SmallMessage(c: Codec<ResponseTuple>, t: ResponseTuple)
    requires Takes(c, t, 90)
    ensures EncodeMessage(RESPONSE, c, t).Bytes? && |EncodeMessage(RESPONSE, c, t).bytes| <= 102
  {
  }

  lemma SmallPresetFile()
    ensures PresetFile.EncodePresetFile(SmallPreset()).Encoded? && |PresetFile.EncodePresetFile(SmallPreset()).bytes| <= 102
  {
    hide ResponseTuples, ResponseToTuple, Takes, SmallPreset, EncodeMessage, PresetFile.PresetResponse, Preset.Errors;
    SmallPresetIsValid();
    ResponseTakes(SmallResponse());
    SmallMessage(ResponseTuples(VERSION), ResponseToTuple(SmallResponse()));
  }

  // A response whose extension list does not match.

  /** The small response again, with one endpoint behind a flag that is not set. */
  function MismatchedResponse(): Response {
    var r := SmallResponse();
    var e := AudioRuntime.Endpoint([101], [100], AudioRuntime.Render, true, 0, 1, AudioRuntime.Wasapi, [], 0, 0);
    r.(runtime := r.runtime.(configuration := r.runtime.configuration.(endpoints := [e])))
  }

  lemma OneExtensionTakes(b: ResponseBody, x: Extension)
    requires x.group == []
    ensures Takes(ExtensionsBehind(VERSION)(b), [x], 20)
  {
    var n := |EndpointsOf(b)|;
    var backend := BackendIndex(x.backend);
    assert BackendCodec().enc(x.backend) == Enumeration(1).enc(backend) == Bytes(LittleEndian(backend, 4));
    hide Takes, BackendCodec, EndpointsOf;
    TextTakes([], 0);
    NumbersTake(x.sampleRate, 0);
    NumbersTake(x.blockFrames, 0);
    FourTake(BackendCodec(), String(), U32(), U32(), Any(), ExtensionToTuple(x), 4, 4, 4, 4);
    RecordTakes(ExtensionTuples(), ExtensionToTuple, ExtensionFromTuple, Any(), x, 16);
    ListOfOne(ExtensionCodec(), Exactly(n), OfLength(n), x, 16);
  }

  lemma MismatchedTakes(r: Response)
    requires r == MismatchedResponse()
    ensures Takes(ResponseTuples(VERSION), ResponseToTuple(r), 106)
  {
    hide Takes, DocumentsCodec, RuntimesCodec, SmallPreset, ExtensionsBehind;
    var t := ResponseToTuple(r);
    DocumentsTake(t.0.0);
    RuntimesTake(t.0.1);
    TwoTake(DocumentsCodec(VERSION), RuntimesCodec(VERSION), ResponseBodyFits(VERSION), t.0, 74, 12);
    OneExtensionTakes(t.0, t.1[0]);
    assert t.1 == [t.1[0]];
    DependsTake(ResponseBodyCodec(VERSION), ExtensionsBehind(VERSION), ResponseFits(VERSION), t, 86, 20);
  }

  lemma MismatchedIsFinite()
    ensures FiniteResponse(MismatchedResponse()) && !ExtensionsMatch(MismatchedResponse())
  {
  }

  lemma MismatchedEncodes(c: Codec<ResponseTuple>, t: ResponseTuple)
    requires Takes(c, t, 106)
    ensures EncodeMessage(RESPONSE, c, t).Bytes?
  {
  }

  lemma MismatchedResponseEncodes()
    ensures EncodeResponse(MismatchedResponse()).Bytes?
  {
    hide ResponseTuples, ResponseToTuple, Takes, MismatchedResponse, EncodeMessage;
    MismatchedTakes(MismatchedResponse());
    MismatchedEncodes(ResponseTuples(VERSION), ResponseToTuple(MismatchedResponse()));
  }

  /** One concrete response that is written and cannot be read back. */
  lemma AWrittenResponseIsLost()
    ensures var r := MismatchedResponse();
            EncodeResponse(r).Bytes? && Refuses(DecodeResponse(EncodeResponse(r).bytes), InvalidValue)
  {
    hide *;
    MismatchedResponseEncodes();
    MismatchedIsFinite();
    MismatchedResponsesAreRefused(MismatchedResponse(), EncodeResponse(MismatchedResponse()).bytes);
  }

  // A command with a gain that is not finite.

  /** Sets a gain to infinity. */
  function InfiniteGain(): ControlCommand.Command {
    ControlCommand.Command(
      1, [99], ControlCommand.SetGain, [], [], [105], [111], 0x7F80_0000, false, SmallPreset(),
      AudioRuntime.Configuration(AudioRuntime.NoRuntime, [], [], [], [], 0, 0, [], []), [])
  }

  lemma FourByteEnumeration(n: nat, most: u32)
    ensures Takes(Enumeration(most), n, 4)
  {
    assert Enumeration(most).enc(n) == Scalar(4).enc(n) == Bytes(LittleEndian(n, 4));
  }

  lemma FloatTakes(pattern: u32)
    ensures Takes(Float32(), pattern, 4)
  {
    assert Float32().enc(pattern) == U32().enc(pattern);
    NumbersTake(pattern, 0);
  }

  lemma HeadTakes(h: Head)
    requires h == HeadOf(InfiniteGain())
    ensures Takes(HeadCodec(VERSION), h, 84)
  {
    hide Takes, Enumeration, PresetCodec, SmallPreset, Float32;
    NumbersTake(h.0.0, 0);
    TextTakes(h.0.1.0, 1);
    FourByteEnumeration(KindIndex(h.0.1.1), LastKind(VERSION));
    RecordTakes(Enumeration(LastKind(VERSION)), KindIndex, KindAt, KindUpTo(VERSION), h.0.1.1, 4);
    ThreeTake(U32(), String(), KindCodec(VERSION), LabelFits(VERSION), h.0, 4, 5, 4);
    TextTakes([], 0);
    TextTakes(h.1.0.1.1.0, 1);
    TextTakes(h.1.0.1.1.1, 1);
    FourTake(String(), String(), String(), String(), Any(), h.1.0, 4, 4, 5, 5);
    FloatTakes(h.1.1.0);
    BooleanTakes(h.1.1.1.0);
    SmallPresetTakes();
    ThreeTake(Float32(), Boolean(), PresetCodec(), FiniteValues, h.1.1, 4, 1, 48);
    ThreeTake(LabelCodec(VERSION), FourStrings(), ValuesCodec(), HeadFits(VERSION), h, 13, 18, 53);
  }

  lemma NoRuntimeTakes(t: Runtime)
    requires t.1 == ([], ([], []))
    ensures Takes(RuntimeCodec(VERSION), t, 16)
  {
    hide Takes, Enumeration, BaseCodec;
    FourByteEnumeration(ModeIndex(t.0), LastMode(VERSION));
    RecordTakes(Enumeration(LastMode(VERSION)), ModeIndex, ModeAt, ModeUpTo(VERSION), t.0, 4);
    TextTakes([], 0);
    ListOfNone(BaseCodec(), Any(), Any());
    PresentTakes(VERSION >= 9, AnyList(BaseCodec()), [], Since(VERSION >= 9, []), t.1.1.1, 4);
    FourTake(ModeCodec(VERSION), String(), String(), BasesCodec(VERSION), RuntimeFits(VERSION), t, 4, 4, 4, 4);
  }

  lemma PresentTakes<T>(present: bool, c: Codec<T>, default: T, ok: T -> bool, t: T, n: nat)
    requires present && Takes(c, t, n)
    ensures Takes(Field(present, c, default, ok), t, n)
  {
  }

  lemma NoDriverTakes()
    ensures Takes(DriverCodec(VERSION), NoDriver(), 20)
  {
    hide Takes, U32;
    TextTakes([], 0);
    NumbersTake(0, 0);
    ThreeTake(String(), U32(), U32(), Any(), NoDriver().0, 4, 4, 4);
    ListOfNone(U32(), Any(), Any());
    TwoTake(ChannelsCodec(), ChannelsCodec(), Any(), NoDriver().1, 4, 4);
    TwoTake(DriverFormatCodec(), DriverChannelsCodec(), Any(), NoDriver(), 12, 8);
    PresentTakes(VERSION >= 12, DriverFields(), NoDriver(), Since(VERSION >= 12, NoDriver()), NoDriver(), 20);
  }

  lemma NoDevicesTake()
    ensures Takes(DevicesCodec(VERSION), [], 4)
  {
    hide Takes, DeviceCodec;
    ListOfNone(DeviceCodec(), Any(), Any());
    PresentTakes(VERSION >= 11, AnyList(DeviceCodec()), [], Since(VERSION >= 11, []), [], 4);
  }

  lemma NoExtensionListTakes(b: Body)
    ensures Takes(ExtensionsAfter(VERSION)(b), [], 4)
  {
    hide ExtensionCodec;
    var n := |BasesOf(b)|;
    ListOfNone(ExtensionCodec(), Exactly(n), OfLength(n));
  }

  lemma CommandTakes(c: ControlCommand.Command)
    requires c == InfiniteGain()
    ensures Takes(CommandCodec(VERSION), c, 128)
  {
    var t := CommandToTuple(c);
    assert t.0 == (HeadOf(c), (t.0.1.0, (NoDriver(), []))) && t.0.1.0.1 == ([], ([], [])) && t.1 == [];
    hide Takes, HeadCodec, RuntimeCodec, DriverCodec, DevicesCodec, InfiniteGain, CommandToTuple, CommandFromTuple, HeadOf;
    HeadTakes(t.0.0);
    NoRuntimeTakes(t.0.1.0);
    NoDriverTakes();
    NoDevicesTake();
    FourTake(HeadCodec(VERSION), RuntimeCodec(VERSION), DriverCodec(VERSION), DevicesCodec(VERSION), BodyFits(VERSION), t.0,
             84, 16, 20, 4);
    NoExtensionListTakes(t.0);
    hide BodyCodec, ExtensionsAfter;
    DependsTake(BodyCodec(VERSION), ExtensionsAfter(VERSION), ExtendedFits(VERSION), t, 124, 4);
    RecordTakes(Extended(BodyCodec(VERSION), VERSION), CommandToTuple, CommandFromTuple, Expressible(VERSION), c, 128);
  }

  lemma SmallCommand(c: Codec<ControlCommand.Command>, t: ControlCommand.Command)
    requires Takes(c, t, 128)
    ensures EncodeMessage(COMMAND, c, t).Bytes?
  {
  }

  lemma GainIsInfinite()
    ensures !FiniteGains(InfiniteGain())
  {
  }

  /** One concrete command that is written and cannot be read back. */
  lemma AWrittenCommandIsLost()
    ensures var e := EncodeMessage(COMMAND, CommandCodec(VERSION), InfiniteGain());
            e.Bytes? && Refuses(DecodeMessage(COMMAND, CommandCodec, e.bytes), InvalidValue)
  {
    hide CommandCodec, InfiniteGain, Takes, EncodeMessage, DecodeMessage, FiniteGains;
    CommandTakes(InfiniteGain());
    SmallCommand(CommandCodec(VERSION), InfiniteGain());
    GainIsInfinite();
    CommandsDecodeIff(InfiniteGain(), EncodeMessage(COMMAND, CommandCodec(VERSION), InfiniteGain()).bytes);
  }
}
