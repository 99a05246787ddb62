/** The encoding of control commands: the codecs of each version of the protocol, their laws, and the
    methods that write and read a command field by field and in loops, as the source does. */
module WireCommand {
  import opened Basics
  import opened Codecs
  import opened WireStream
  import opened WireMessage
  import opened WirePreset
  import Preset
  import AudioRuntime
  import ControlCommand

  const COMMAND: nat := 1

  function DirectionIndex(d: AudioRuntime.Direction): nat {
    if d == AudioRuntime.Capture then 0 else 1
  }

  function DirectionAt(n: nat): AudioRuntime.Direction {
    if n == 0 then AudioRuntime.Capture else AudioRuntime.Render
  }

  function DirectionCodec(): Codec<AudioRuntime.Direction> {
    Record(Enumeration(1), DirectionIndex, DirectionAt, Any())
  }

  lemma DirectionLawful()
    ensures SoundOn(DirectionCodec(), Any())
  {
    EnumerationLawful(1);
    RecordLawful(Enumeration(1), DirectionIndex, DirectionAt, Any());
  }

  function BackendIndex(b: AudioRuntime.Backend): nat {
    if b == AudioRuntime.Wasapi then 0 else 1
  }

  function BackendAt(n: nat): AudioRuntime.Backend {
    if n == 0 then AudioRuntime.Wasapi else AudioRuntime.Asio
  }

  function BackendCodec(): Codec<AudioRuntime.Backend> {
    Record(Enumeration(1), BackendIndex, BackendAt, Any())
  }

  lemma BackendLawful()
    ensures SoundOn(BackendCodec(), Any())
  {
    EnumerationLawful(1);
    RecordLawful(Enumeration(1), BackendIndex, BackendAt, Any());
  }

  function ModeIndex(m: AudioRuntime.Mode): nat {
    match m
    case NoRuntime => 0
    case WasapiRender => 1
    case WasapiDuplex => 2
    case WasapiMatrix => 3
    case PhysicalAsio => 4
  }

  function ModeAt(n: nat): AudioRuntime.Mode {
    if n == 0 then AudioRuntime.NoRuntime
    else if n == 1 then AudioRuntime.WasapiRender
    else if n == 2 then AudioRuntime.WasapiDuplex
    else if n == 3 then AudioRuntime.WasapiMatrix
    else AudioRuntime.PhysicalAsio
  }

  /** The last mode a version of the protocol knows. */
  function LastMode(version: nat): nat {
    if version >= 12 then 4 else if version >= 9 then 3 else 2
  }

  function ModeUpTo(version: nat): AudioRuntime.Mode -> bool {
    (m: AudioRuntime.Mode) => ModeIndex(m) <= LastMode(version)
  }

  function ModeCodec(version: nat): Codec<AudioRuntime.Mode> {
    Record(Enumeration(LastMode(version)), ModeIndex, ModeAt, ModeUpTo(version))
  }

  lemma ModeLawful(version: nat)
    ensures SoundOn(ModeCodec(version), ModeUpTo(version))
  {
    EnumerationLawful(LastMode(version));
    RecordLawful(Enumeration(LastMode(version)), ModeIndex, ModeAt, ModeUpTo(version));
  }

  function KindIndex(k: ControlCommand.Kind): nat {
    match k
    case ListDevices => 0
    case CreateVirtualEndpoint => 1
    case RemoveVirtualEndpoint => 2
    case ConnectRoute => 3
    case DisconnectRoute => 4
    case SetGain => 5
    case SetMute => 6
    case LoadPreset => 7
    case SavePreset => 8
    case QueryDiagnostics => 9
    case QueryActiveGraph => 10
    case QuerySessionState => 11
    case QueryAudioRuntime => 12
    case StartAudioRuntime => 13
    case StopAudioRuntime => 14
    case ConfigureAudioRuntime => 15
    case QueryVirtualAsioDevices => 16
    case ConfigureVirtualAsioDevices => 17
  }

  function KindAt(n: nat): ControlCommand.Kind {
    match n
    case 0 => ControlCommand.ListDevices
    case 1 => ControlCommand.CreateVirtualEndpoint
    case 2 => ControlCommand.RemoveVirtualEndpoint
    case 3 => ControlCommand.ConnectRoute
    case 4 => ControlCommand.DisconnectRoute
    case 5 => ControlCommand.SetGain
    case 6 => ControlCommand.SetMute
    case 7 => ControlCommand.LoadPreset
    case 8 => ControlCommand.SavePreset
    case 9 => ControlCommand.QueryDiagnostics
    case 10 => ControlCommand.QueryActiveGraph
    case 11 => ControlCommand.QuerySessionState
    case 12 => ControlCommand.QueryAudioRuntime
    case 13 => ControlCommand.StartAudioRuntime
    case 14 => ControlCommand.StopAudioRuntime
    case 15 => ControlCommand.ConfigureAudioRuntime
    case 16 => ControlCommand.QueryVirtualAsioDevices
    case _ => ControlCommand.ConfigureVirtualAsioDevices
  }

  function LastKind(version: nat): nat {
    if version >= 11 then 17 else 15
  }

  function KindUpTo(version: nat): ControlCommand.Kind -> bool {
    (k: ControlCommand.Kind) => KindIndex(k) <= LastKind(version)
  }

  function KindCodec(version: nat): Codec<ControlCommand.Kind> {
    Record(Enumeration(LastKind(version)), KindIndex, KindAt, KindUpTo(version))
  }

  lemma KindLawful(version: nat)
    ensures SoundOn(KindCodec(version), KindUpTo(version))
  {
    EnumerationLawful(LastKind(version));
    RecordLawful(Enumeration(LastKind(version)), KindIndex, KindAt, KindUpTo(version));
  }

  /** The part of a runtime endpoint that is written in its place. */
  datatype Base = Base(
    id: Text,
    device: Text,
    direction: AudioRuntime.Direction,
    clockMaster: bool,
    firstChannel: u32,
    channelCount: u32)

  /** The part that is written at the end of the message, in a list of its own. */
  datatype Extension = Extension(backend: AudioRuntime.Backend, group: Text, sampleRate: u32, blockFrames: u32)

  type BaseStart = (Text, (Text, AudioRuntime.Direction))

  type BaseRest = (bool, (u32, u32))

  function BaseToTuple(b: Base): (BaseStart, BaseRest) {
    ((b.id, (b.device, b.direction)), (b.clockMaster, (b.firstChannel, b.channelCount)))
  }

  function BaseFromTuple(t: (BaseStart, BaseRest)): Base {
    Base(t.0.0, t.0.1.0, t.0.1.1, t.1.0, t.1.1.0, t.1.1.1)
  }

  function BaseStartCodec(): Codec<BaseStart> {
    Three(String(), String(), DirectionCodec(), Any())
  }

  lemma BaseStartLawful()
    ensures SoundOn(BaseStartCodec(), Any())
  {
    StringLawful();
    DirectionLawful();
    ThreeLawful(String(), String(), DirectionCodec(), Any());
  }

  function BaseRestCodec(): Codec<BaseRest> {
    Three(Boolean(), U32(), U32(), Any())
  }

  lemma BaseRestLawful()
    ensures SoundOn(BaseRestCodec(), Any())
  {
    BooleanLawful();
    U32Lawful();
    ThreeLawful(Boolean(), U32(), U32(), Any());
  }

  function BaseTuples(): Codec<(BaseStart, BaseRest)> {
    Two(BaseStartCodec(), BaseRestCodec(), Any())
  }

  function BaseCodec(): Codec<Base> {
    Record(BaseTuples(), BaseToTuple, BaseFromTuple, Any())
  }

  lemma BaseLawful()
    ensures SoundOn(BaseCodec(), Any())
  {
    BaseStartLawful();
    BaseRestLawful();
    TwoLawful(BaseStartCodec(), BaseRestCodec(), Any());
    RecordLawful(BaseTuples(), BaseToTuple, BaseFromTuple, Any());
  }

  type ExtensionTuple = (AudioRuntime.Backend, (Text, (u32, u32)))

  function ExtensionToTuple(e: Extension): ExtensionTuple {
    (e.backend, (e.group, (e.sampleRate, e.blockFrames)))
  }

  function ExtensionFromTuple(t: ExtensionTuple): Extension {
    Extension(t.0, t.1.0, t.1.1.0, t.1.1.1)
  }

  function ExtensionTuples(): Codec<ExtensionTuple> {
    Four(BackendCodec(), String(), U32(), U32(), Any())
  }

  function ExtensionCodec(): Codec<Extension> {
    Record(ExtensionTuples(), ExtensionToTuple, ExtensionFromTuple, Any())
  }

  lemma ExtensionLawful()
    ensures SoundOn(ExtensionCodec(), Any())
  {
    BackendLawful();
    StringLawful();
    U32Lawful();
    FourLawful(BackendCodec(), String(), U32(), U32(), Any());
    RecordLawful(ExtensionTuples(), ExtensionToTuple, ExtensionFromTuple, Any());
  }

  type Texts = (Text, (Text, (Text, Text)))

  type DeviceRest = (u32, (u32, bool))

  function FourStrings(): Codec<Texts> {
    Four(String(), String(), String(), String(), Any())
  }

  lemma FourStringsLawful()
    ensures SoundOn(FourStrings(), Any())
  {
    StringLawful();
    FourLawful(String(), String(), String(), String(), Any());
  }

  function DeviceRestCodec(): Codec<DeviceRest> {
    Three(U32(), U32(), Boolean(), Any())
  }

  lemma DeviceRestLawful()
    ensures SoundOn(DeviceRestCodec(), Any())
  {
    U32Lawful();
    BooleanLawful();
    ThreeLawful(U32(), U32(), Boolean(), Any());
  }

  function DeviceToTuple(d: ControlCommand.VirtualAsioDevice): (Texts, DeviceRest) {
    ((d.deviceId, (d.clsid, (d.registryName, d.brokerToken))), (d.inputChannels, (d.outputChannels, d.enabled)))
  }

  function DeviceFromTuple(t: (Texts, DeviceRest)): ControlCommand.VirtualAsioDevice {
    ControlCommand.VirtualAsioDevice(t.0.0, t.0.1.0, t.0.1.1.0, t.0.1.1.1, t.1.0, t.1.1.0, t.1.1.1)
  }

  function DeviceTuples(): Codec<(Texts, DeviceRest)> {
    Two(FourStrings(), DeviceRestCodec(), Any())
  }

  function DeviceCodec(): Codec<ControlCommand.VirtualAsioDevice> {
    Record(DeviceTuples(), DeviceToTuple, DeviceFromTuple, Any())
  }

  lemma DeviceLawful()
    ensures SoundOn(DeviceCodec(), Any())
  {
    FourStringsLawful();
    DeviceRestLawful();
    TwoLawful(FourStrings(), DeviceRestCodec(), Any());
    RecordLawful(DeviceTuples(), DeviceToTuple, DeviceFromTuple, Any());
  }

  type Devices = seq<ControlCommand.VirtualAsioDevice>

  type Label = (u32, (Text, ControlCommand.Kind))

  function LabelFits(version: nat): Label -> bool {
    (t: Label) => KindUpTo(version)(t.1.1)
  }

  function LabelCodec(version: nat): Codec<Label> {
    Three(U32(), String(), KindCodec(version), LabelFits(version))
  }

  lemma LabelLawful(version: nat)
    ensures SoundOn(LabelCodec(version), LabelFits(version))
  {
    U32Lawful();
    StringLawful();
    KindLawful(version);
    ThreeLawful(U32(), String(), KindCodec(version), LabelFits(version));
  }

  type Values = (u32, (bool, Preset.Document))

  predicate FiniteValues(t: Values) {
    Finite32(t.0) && FinitePreset(t.1.1)
  }

  function ValuesCodec(): Codec<Values> {
    Three(Float32(), Boolean(), PresetCodec(), FiniteValues)
  }

  lemma ValuesLawful()
    ensures SoundOn(ValuesCodec(), FiniteValues)
  {
    Float32Lawful();
    BooleanLawful();
    PresetLawful();
    ThreeLawful(Float32(), Boolean(), PresetCodec(), FiniteValues);
  }

  type Head = (Label, (Texts, Values))

  function HeadFits(version: nat): Head -> bool {
    (h: Head) => LabelFits(version)(h.0) && FiniteValues(h.1.1)
  }

  function HeadCodec(version: nat): Codec<Head> {
    Three(LabelCodec(version), FourStrings(), ValuesCodec(), HeadFits(version))
  }

  lemma HeadLawful(version: nat)
    ensures SoundOn(HeadCodec(version), HeadFits(version))
  {
    LabelLawful(version);
    FourStringsLawful();
    ValuesLawful();
    ThreeLawful(LabelCodec(version), FourStrings(), ValuesCodec(), HeadFits(version));
  }

  /** The runtime fields every version has, and the endpoints from version 9 on. */
  type Runtime = (AudioRuntime.Mode, (Text, (Text, seq<Base>)))

  function RuntimeFits(version: nat): Runtime -> bool {
    (r: Runtime) => ModeUpTo(version)(r.0) && Since(version >= 9, [])(r.1.1.1)
  }

  function BasesCodec(version: nat): Codec<seq<Base>> {
    Field(version >= 9, AnyList(BaseCodec()), [], Since(version >= 9, []))
  }

  lemma BasesLawful(version: nat)
    ensures LawfulOn(BasesCodec(version), Since(version >= 9, []))
  {
    BaseLawful();
    AnyListLawful(BaseCodec());
    FieldLawful(version >= 9, AnyList(BaseCodec()), [], Since(version >= 9, []));
  }

  function RuntimeCodec(version: nat): Codec<Runtime> {
    Four(ModeCodec(version), String(), String(), BasesCodec(version), RuntimeFits(version))
  }

  lemma RuntimeLawful(version: nat)
    ensures SoundOn(RuntimeCodec(version), RuntimeFits(version))
  {
    ModeLawful(version);
    StringLawful();
    BasesLawful(version);
    FourLawful(ModeCodec(version), String(), String(), BasesCodec(version), RuntimeFits(version));
  }

  type DriverFormat = (Text, (u32, u32))

  type DriverChannels = (seq<u32>, seq<u32>)

  /** The fields of a physical ASIO driver, from version 12 on. */
  type Driver = (DriverFormat, DriverChannels)

  function NoDriver(): Driver {
    (([], (0, 0)), ([], []))
  }

  function DriverFormatCodec(): Codec<DriverFormat> {
    Three(String(), U32(), U32(), Any())
  }

  lemma DriverFormatLawful()
    ensures SoundOn(DriverFormatCodec(), Any())
  {
    StringLawful();
    U32Lawful();
    ThreeLawful(String(), U32(), U32(), Any());
  }

  function ChannelsCodec(): Codec<seq<u32>> {
    AnyList(U32())
  }

  lemma ChannelsLawful()
    ensures SoundOn(ChannelsCodec(), Any())
  {
    U32Lawful();
    AnyListLawful(U32());
  }

  function DriverChannelsCodec(): Codec<DriverChannels> {
    Two(ChannelsCodec(), ChannelsCodec(), Any())
  }

  lemma DriverChannelsLawful()
    ensures SoundOn(DriverChannelsCodec(), Any())
  {
    ChannelsLawful();
    TwoLawful(ChannelsCodec(), ChannelsCodec(), Any());
  }

  function DriverFields(): Codec<Driver> {
    Two(DriverFormatCodec(), DriverChannelsCodec(), Any())
  }

  lemma DriverFieldsLawful()
    ensures SoundOn(DriverFields(), Any())
  {
    DriverFormatLawful();
    DriverChannelsLawful();
    TwoLawful(DriverFormatCodec(), DriverChannelsCodec(), Any());
  }

  function DriverCodec(version: nat): Codec<Driver> {
    Field(version >= 12, DriverFields(), NoDriver(), Since(version >= 12, NoDriver()))
  }

  lemma DriverLawful(version: nat)
    ensures LawfulOn(DriverCodec(version), Since(version >= 12, NoDriver()))
  {
    DriverFieldsLawful();
    FieldLawful(version >= 12, DriverFields(), NoDriver(), Since(version >= 12, NoDriver()));
  }

  function DevicesCodec(version: nat): Codec<Devices> {
    Field(version >= 11, AnyList(DeviceCodec()), [], Since(version >= 11, []))
  }

  lemma DevicesLawful(version: nat)
    ensures LawfulOn(DevicesCodec(version), Since(version >= 11, []))
  {
    DeviceLawful();
    AnyListLawful(DeviceCodec());
    FieldLawful(version >= 11, AnyList(DeviceCodec()), [], Since(version >= 11, []));
  }

  function Exactly(n: nat): nat -> bool {
    (m: nat) => m == n
  }

  /** What a runtime endpoint has where no extension was written. */
  function NoExtensions(n: nat): (xs: seq<Extension>)
    ensures |xs| == n
  {
    seq(n, _ => Extension(AudioRuntime.Wasapi, [], 0, 0))
  }

  function OfLength(n: nat): seq<Extension> -> bool {
    (xs: seq<Extension>) => |xs| == n
  }

  function ExtensionsFit(version: nat, n: nat): seq<Extension> -> bool {
    (xs: seq<Extension>) => |xs| == n && (version >= 14 || xs == NoExtensions(n))
  }

  function ExtensionList(n: nat): Codec<seq<Extension>> {
    ListOf(ExtensionCodec(), Exactly(n), OfLength(n))
  }

  /** The extension list, which must be as long as the endpoint list before it; from version 14 on. */
  function ExtensionsCodec(version: nat, n: nat): Codec<seq<Extension>> {
    Field(version >= 14, ExtensionList(n), NoExtensions(n), ExtensionsFit(version, n))
  }

  lemma ExtensionsLawful(version: nat, n: nat)
    ensures LawfulOn(ExtensionsCodec(version, n), ExtensionsFit(version, n))
  {
    ExtensionLawful();
    forall xs: seq<Extension> ensures AllOk(ExtensionCodec(), xs) {
      AllTrue(ExtensionCodec(), xs);
    }
    ListOfLawful(ExtensionCodec(), Exactly(n), OfLength(n));
    FieldLawful(version >= 14, ExtensionList(n), NoExtensions(n), ExtensionsFit(version, n));
  }

  type Body = (Head, (Runtime, (Driver, Devices)))

  function BodyFits(version: nat): Body -> bool {
    (b: Body) => && HeadFits(version)(b.0) && RuntimeFits(version)(b.1.0)
                 && Since(version >= 12, NoDriver())(b.1.1.0) && Since(version >= 11, [])(b.1.1.1)
  }

  function BodyCodec(version: nat): Codec<Body> {
    Four(HeadCodec(version), RuntimeCodec(version), DriverCodec(version), DevicesCodec(version), BodyFits(version))
  }

  lemma BodyLawful(version: nat)
    ensures SoundOn(BodyCodec(version), BodyFits(version))
  {
    HeadLawful(version);
    RuntimeLawful(version);
    DriverLawful(version);
    DevicesLawful(version);
    FourLawful(HeadCodec(version), RuntimeCodec(version), DriverCodec(version), DevicesCodec(version), BodyFits(version));
  }

  function BasesOf(b: Body): seq<Base> {
    b.1.0.1.1.1
  }

  function Bases(es: seq<AudioRuntime.Endpoint>): (bs: seq<Base>)
    ensures |bs| == |es|
    ensures forall k :: 0 <= k < |es| ==>
              bs[k] == Base(es[k].id, es[k].device, es[k].direction, es[k].clockMaster, es[k].firstChannel, es[k].channelCount)
  {
    seq(|es|, k requires 0 <= k < |es| =>
      Base(es[k].id, es[k].device, es[k].direction, es[k].clockMaster, es[k].firstChannel, es[k].channelCount))
  }

  function Extensions(es: seq<AudioRuntime.Endpoint>): (xs: seq<Extension>)
    ensures |xs| == |es|
    ensures forall k :: 0 <= k < |es| ==>
              xs[k] == Extension(es[k].backend, es[k].group, es[k].sampleRate, es[k].blockFrames)
  {
    seq(|es|, k requires 0 <= k < |es| => Extension(es[k].backend, es[k].group, es[k].sampleRate, es[k].blockFrames))
  }

  function Joined(b: Base, x: Extension): AudioRuntime.Endpoint {
    AudioRuntime.Endpoint(b.id, b.device, b.direction, b.clockMaster, b.firstChannel, b.channelCount,
                          x.backend, x.group, x.sampleRate, x.blockFrames)
  }

  /** The endpoints, with their extensions filled in. */
  function JoinAll(bs: seq<Base>, xs: seq<Extension>): (es: seq<AudioRuntime.Endpoint>)
    ensures |es| == Min(|bs|, |xs|)
    ensures forall k :: 0 <= k < |es| ==> es[k] == Joined(bs[k], xs[k])
  {
    seq(Min(|bs|, |xs|), k requires 0 <= k < Min(|bs|, |xs|) => Joined(bs[k], xs[k]))
  }

  lemma JoinedApart(es: seq<AudioRuntime.Endpoint>)
    ensures JoinAll(Bases(es), Extensions(es)) == es
  {
  }

  lemma ApartJoined(bs: seq<Base>, xs: seq<Extension>)
    requires |bs| == |xs|
    ensures Bases(JoinAll(bs, xs)) == bs && Extensions(JoinAll(bs, xs)) == xs
  {
  }

  function HeadOf(c: ControlCommand.Command): Head {
    ((c.schemaVersion, (c.commandId, c.kind)),
     ((c.endpointId, (c.endpointName, (c.input, c.output))), (c.gain, (c.mute, c.preset))))
  }

  function RuntimeOf(a: AudioRuntime.Configuration): Runtime {
    (a.mode, (a.captureDevice, (a.renderDevice, Bases(a.endpoints))))
  }

  function DriverOf(a: AudioRuntime.Configuration): Driver {
    ((a.clsid, (a.asioSampleRate, a.asioBlockFrames)), (a.asioInputs, a.asioOutputs))
  }

  function ConfigurationOf(r: Runtime, d: Driver, xs: seq<Extension>): AudioRuntime.Configuration {
    AudioRuntime.Configuration(r.0, r.1.0, r.1.1.0, JoinAll(r.1.1.1, xs), d.0.0, d.0.1.0, d.0.1.1, d.1.0, d.1.1)
  }

  function CommandToTuple(c: ControlCommand.Command): (Body, seq<Extension>) {
    ((HeadOf(c), (RuntimeOf(c.audioRuntime), (DriverOf(c.audioRuntime), c.devices))), Extensions(c.audioRuntime.endpoints))
  }

  function CommandFrom(head: Head, audioRuntime: AudioRuntime.Configuration, devices: Devices): ControlCommand.Command {
    ControlCommand.Command(head.0.0, head.0.1.0, head.0.1.1,
                           head.1.0.0, head.1.0.1.0, head.1.0.1.1.0, head.1.0.1.1.1,
                           head.1.1.0, head.1.1.1.0, head.1.1.1.1, audioRuntime, devices)
  }

  function CommandFromTuple(t: (Body, seq<Extension>)): ControlCommand.Command {
    CommandFrom(t.0.0, ConfigurationOf(t.0.1.0, t.0.1.1.0, t.1), t.0.1.1.1)
  }

  lemma HeadMatches(head: Head, a: AudioRuntime.Configuration, devices: Devices)
    ensures HeadOf(CommandFrom(head, a, devices)) == head
  {
  }

  lemma ConfigurationMatches(r: Runtime, d: Driver, xs: seq<Extension>)
    requires |xs| == |r.1.1.1|
    ensures RuntimeOf(ConfigurationOf(r, d, xs)) == r && DriverOf(ConfigurationOf(r, d, xs)) == d
    ensures Extensions(ConfigurationOf(r, d, xs).endpoints) == xs
  {
    ApartJoined(r.1.1.1, xs);
  }

  lemma TuplesMatch(t: (Body, seq<Extension>))
    requires |t.1| == |BasesOf(t.0)|
    ensures CommandToTuple(CommandFromTuple(t)) == t
  {
    var a := ConfigurationOf(t.0.1.0, t.0.1.1.0, t.1);
    HeadMatches(t.0.0, a, t.0.1.1.1);
    ConfigurationMatches(t.0.1.0, t.0.1.1.0, t.1);
  }

  lemma CommandMatches(c: ControlCommand.Command)
    ensures CommandFromTuple(CommandToTuple(c)) == c && BasesOf(CommandToTuple(c).0) == Bases(c.audioRuntime.endpoints)
  {
    JoinedApart(c.audioRuntime.endpoints);
  }

  function ExtendedFits(version: nat): ((Body, seq<Extension>)) -> bool {
    (t: (Body, seq<Extension>)) => BodyFits(version)(t.0) && ExtensionsFit(version, |BasesOf(t.0)|)(t.1)
  }

  function ExtensionsAfter(version: nat): Body -> Codec<seq<Extension>> {
    (b: Body) => ExtensionsCodec(version, |BasesOf(b)|)
  }

  /** A body, and the extensions of its endpoints. */
  function Extended(body: Codec<Body>, version: nat): Codec<(Body, seq<Extension>)> {
    Depends(body, ExtensionsAfter(version), ExtendedFits(version))
  }

  lemma ExtendedLawful(body: Codec<Body>, version: nat)
    requires SoundOn(body, BodyFits(version))
    ensures SoundOn(Extended(body, version), ExtendedFits(version))
  {
    forall b: Body ensures LawfulOn(ExtensionsAfter(version)(b), ExtensionsFit(version, |BasesOf(b)|)) {
      ExtensionsLawful(version, |BasesOf(b)|);
    }
    DependsLawful(body, ExtensionsAfter(version), ExtendedFits(version));
  }

  /** What a version of the protocol can say, and a decoder accepts. */
  function Expressible(version: nat): ControlCommand.Command -> bool {
    (c: ControlCommand.Command) => ExtendedFits(version)(CommandToTuple(c))
  }

  function CommandOver(body: Codec<Body>, version: nat): Codec<ControlCommand.Command> {
    Record(Extended(body, version), CommandToTuple, CommandFromTuple, Expressible(version))
  }

  lemma CommandOverLawful(body: Codec<Body>, version: nat)
    requires SoundOn(body, BodyFits(version))
    ensures SoundOn(CommandOver(body, version), Expressible(version))
  {
    ExtendedLawful(body, version);
    forall t: (Body, seq<Extension>) | ExtendedFits(version)(t) ensures CommandToTuple(CommandFromTuple(t)) == t {
      TuplesMatch(t);
    }
    forall c: ControlCommand.Command ensures CommandFromTuple(CommandToTuple(c)) == c {
      CommandMatches(c);
    }
    RecordLawful(Extended(body, version), CommandToTuple, CommandFromTuple, Expressible(version));
  }

  function CommandCodec(version: nat): Codec<ControlCommand.Command> {
    CommandOver(BodyCodec(version), version)
  }

  lemma CommandLawful(version: nat)
    ensures SoundOn(CommandCodec(version), Expressible(version))
  {
    BodyLawful(version);
    CommandOverLawful(BodyCodec(version), version);
  }

  // The laws of the command encoding.

  /** The only commands the decoder refuses are those with a gain that is not finite. */
  predicate FiniteGains(c: ControlCommand.Command) {
    Finite32(c.gain) && FinitePreset(c.preset)
  }

  lemma ExpressibleIff(c: ControlCommand.Command)
    ensures Expressible(VERSION)(c) <==> FiniteGains(c)
  {
    var (body, xs) := CommandToTuple(c);
    assert KindUpTo(VERSION)(c.kind);
    assert LabelFits(VERSION)(body.0.0);
    assert FiniteValues(body.0.1.1) <==> FiniteGains(c);
    assert HeadFits(VERSION)(body.0) <==> FiniteGains(c);
    var runtime: Runtime := body.1.0;
    var bases: seq<Base> := runtime.1.1.1;
    assert ModeUpTo(VERSION)(runtime.0);
    assert Since(VERSION >= 9, [])(bases);
    assert RuntimeFits(VERSION)(runtime);
    assert Since(VERSION >= 12, NoDriver())(body.1.1.0) && Since(VERSION >= 11, [])(body.1.1.1);
    assert BodyFits(VERSION)(body) <==> FiniteGains(c);
    assert BasesOf(body) == Bases(c.audioRuntime.endpoints);
    assert ExtensionsFit(VERSION, |BasesOf(body)|)(xs);
    assert ExtendedFits(VERSION)((body, xs)) <==> FiniteGains(c);
  }

  /** Every command that encodes and has finite gains decodes to itself. */
  lemma CommandsRoundTrip(c: ControlCommand.Command, bytes: seq<u8>)
    requires FiniteGains(c) && EncodeMessage(COMMAND, CommandCodec(VERSION), c) == Bytes(bytes)
    ensures DecodeMessage(COMMAND, CommandCodec, bytes) == Done(c, |bytes|)
  {
    ExpressibleIff(c);
    CommandLawful(VERSION);
    MessageRoundTrips(COMMAND, CommandCodec, Expressible(VERSION), c, bytes);
  }

  /** Any bytes of version 14 that decode to a command are the encoding of that command, so that no two
      byte strings mean the same. */
  lemma CommandsAreCanonical(input: seq<u8>)
    requires DecodeMessage(COMMAND, CommandCodec, input).Done? && Opened(input, COMMAND).1 == VERSION
    ensures var c := DecodeMessage(COMMAND, CommandCodec, input).value;
            FiniteGains(c) && EncodeMessage(COMMAND, CommandCodec(VERSION), c) == Bytes(input)
  {
    CommandLawful(VERSION);
    MessagesAreCanonical(COMMAND, CommandCodec, Expressible(VERSION), input);
    ExpressibleIff(DecodeMessage(COMMAND, CommandCodec, input).value);
  }

  // Field by field.

  method EncodeTexts(w: Writer, a: Text, b: Text, c: Text, d: Text)
    modifies w
    ensures Wrote(old(w.Result()), w.Result(), FourStrings(), (a, (b, (c, d))))
  {
    ghost var s0 := w.Result();
    w.String(a);
    ghost var s1 := w.Result();
    w.String(b);
    ghost var s2 := w.Result();
    w.String(c);
    ghost var s3 := w.Result();
    w.String(d);
    WroteFour(String(), String(), String(), String(), Any(),
             s0, s1, s2, s3, w.Result(), a, b, c, d);
  }

  method EncodeKind(w: Writer, x: ControlCommand.Kind)
    modifies w
    ensures Wrote(old(w.Result()), w.Result(), KindCodec(VERSION), x)
  {
    ghost var s := w.Result();
    w.Enumerator(KindIndex(x), LastKind(VERSION));
    WroteRecord(Enumeration(LastKind(VERSION)), KindIndex, KindAt, KindUpTo(VERSION), s, w.Result(), x);
  }

  method EncodeMode(w: Writer, x: AudioRuntime.Mode)
    modifies w
    ensures Wrote(old(w.Result()), w.Result(), ModeCodec(VERSION), x)
  {
    ghost var s := w.Result();
    w.Enumerator(ModeIndex(x), LastMode(VERSION));
    WroteRecord(Enumeration(LastMode(VERSION)), ModeIndex, ModeAt, ModeUpTo(VERSION), s, w.Result(), x);
  }

  method EncodeDirection(w: Writer, x: AudioRuntime.Direction)
    modifies w
    ensures Wrote(old(w.Result()), w.Result(), DirectionCodec(), x)
  {
    ghost var s := w.Result();
    w.Enumerator(DirectionIndex(x), 1);
    WroteRecord(Enumeration(1), DirectionIndex, DirectionAt, Any(), s, w.Result(), x);
  }

  method EncodeBackend(w: Writer, x: AudioRuntime.Backend)
    modifies w
    ensures Wrote(old(w.Result()), w.Result(), BackendCodec(), x)
  {
    ghost var s := w.Result();
    w.Enumerator(BackendIndex(x), 1);
    WroteRecord(Enumeration(1), BackendIndex, BackendAt, Any(), s, w.Result(), x);
  }

  method EncodeLabel(w: Writer, c: ControlCommand.Command)
    modifies w
    ensures Wrote(old(w.Result()), w.Result(), LabelCodec(VERSION), HeadOf(c).0)
  {
    ghost var s0 := w.Result();
    w.U32(c.schemaVersion);
    ghost var s1 := w.Result();
    w.String(c.commandId);
    ghost var s2 := w.Result();
    EncodeKind(w, c.kind);
    WroteThree(U32(), String(), KindCodec(VERSION), LabelFits(VERSION),
             s0, s1, s2, w.Result(), c.schemaVersion, c.commandId, c.kind);
  }

  method EncodeValues(w: Writer, c: ControlCommand.Command)
    modifies w
    ensures Wrote(old(w.Result()), w.Result(), ValuesCodec(), HeadOf(c).1.1)
  {
    ghost var s0 := w.Result();
    w.Float32(c.gain);
    ghost var s1 := w.Result();
    w.Boolean(c.mute);
    ghost var s2 := w.Result();
    EncodePreset(w, c.preset);
    WroteThree(Float32(), Boolean(), PresetCodec(), FiniteValues,
             s0, s1, s2, w.Result(), c.gain, c.mute, c.preset);
  }

  method EncodeHead(w: Writer, c: ControlCommand.Command)
    modifies w
    ensures Wrote(old(w.Result()), w.Result(), HeadCodec(VERSION), HeadOf(c))
  {
    ghost var s0 := w.Result();
    EncodeLabel(w, c);
    ghost var s1 := w.Result();
    EncodeTexts(w, c.endpointId, c.endpointName, c.input, c.output);
    ghost var s2 := w.Result();
    EncodeValues(w, c);
    WroteThree(LabelCodec(VERSION), FourStrings(), ValuesCodec(), HeadFits(VERSION),
             s0, s1, s2, w.Result(), HeadOf(c).0, HeadOf(c).1.0, HeadOf(c).1.1);
  }

  method EncodeBaseStart(w: Writer, b: Base)
    modifies w
    ensures Wrote(old(w.Result()), w.Result(), BaseStartCodec(), BaseToTuple(b).0)
  {
    ghost var s0 := w.Result();
    w.String(b.id);
    ghost var s1 := w.Result();
    w.String(b.device);
    ghost var s2 := w.Result();
    EncodeDirection(w, b.direction);
    WroteThree(String(), String(), DirectionCodec(), Any(),
             s0, s1, s2, w.Result(), b.id, b.device, b.direction);
  }

  method EncodeBaseRest(w: Writer, b: Base)
    modifies w
    ensures Wrote(old(w.Result()), w.Result(), BaseRestCodec(), BaseToTuple(b).1)
  {
    ghost var s0 := w.Result();
    w.Boolean(b.clockMaster);
    ghost var s1 := w.Result();
    w.U32(b.firstChannel);
    ghost var s2 := w.Result();
    w.U32(b.channelCount);
    WroteThree(Boolean(), U32(), U32(), Any(),
             s0, s1, s2, w.Result(), b.clockMaster, b.firstChannel, b.channelCount);
  }

  method EncodeBase(w: Writer, b: Base)
    modifies w
    ensures Wrote(old(w.Result()), w.Result(), BaseCodec(), b)
  {
    ghost var s0 := w.Result();
    EncodeBaseStart(w, b);
    ghost var s1 := w.Result();
    EncodeBaseRest(w, b);
    WroteTwo(BaseStartCodec(), BaseRestCodec(), Any(),
             s0, s1, w.Result(), BaseToTuple(b).0, BaseToTuple(b).1);
    WroteRecord(BaseTuples(), BaseToTuple, BaseFromTuple, Any(), s0, w.Result(), b);
  }

  method EncodeBases(w: Writer, xs: seq<Base>)
    modifies w
    ensures Wrote(old(w.Result()), w.Result(), BasesCodec(VERSION), xs)
  {
    ghost var s := w.Result();
    w.Count(|xs|);
    ghost var t := w.Result();
    for k := 0 to |xs|
      invariant WroteSome(t, w.Result(), BaseCodec(), xs[..k])
    {
      ghost var u := w.Result();
      EncodeBase(w, xs[k]);
      WroteNext(BaseCodec(), t, u, w.Result(), xs, k);
    }
    assert xs[..|xs|] == xs;
    WroteList(BaseCodec(), Any(), Any(), s, t, w.Result(), xs);
  }

  method EncodeRuntime(w: Writer, a: AudioRuntime.Configuration)
    modifies w
    ensures Wrote(old(w.Result()), w.Result(), RuntimeCodec(VERSION), RuntimeOf(a))
  {
    ghost var s0 := w.Result();
    EncodeMode(w, a.mode);
    ghost var s1 := w.Result();
    w.String(a.captureDevice);
    ghost var s2 := w.Result();
    w.String(a.renderDevice);
    ghost var s3 := w.Result();
    EncodeBases(w, Bases(a.endpoints));
    WroteFour(ModeCodec(VERSION), String(), String(), BasesCodec(VERSION), RuntimeFits(VERSION),
             s0, s1, s2, s3, w.Result(), a.mode, a.captureDevice, a.renderDevice, Bases(a.endpoints));
  }

  method EncodeChannels(w: Writer, xs: seq<u32>)
    modifies w
    ensures Wrote(old(w.Result()), w.Result(), ChannelsCodec(), xs)
  {
    ghost var s := w.Result();
    w.Count(|xs|);
    ghost var t := w.Result();
    for k := 0 to |xs|
      invariant WroteSome(t, w.Result(), U32(), xs[..k])
    {
      ghost var u := w.Result();
      w.U32(xs[k]);
      WroteNext(U32(), t, u, w.Result(), xs, k);
    }
    assert xs[..|xs|] == xs;
    WroteList(U32(), Any(), Any(), s, t, w.Result(), xs);
  }

  method EncodeDriverFormat(w: Writer, a: AudioRuntime.Configuration)
    modifies w
    ensures Wrote(old(w.Result()), w.Result(), DriverFormatCodec(), DriverOf(a).0)
  {
    ghost var s0 := w.Result();
    w.String(a.clsid);
    ghost var s1 := w.Result();
    w.U32(a.asioSampleRate);
    ghost var s2 := w.Result();
    w.U32(a.asioBlockFrames);
    WroteThree(String(), U32(), U32(), Any(),
             s0, s1, s2, w.Result(), a.clsid, a.asioSampleRate, a.asioBlockFrames);
  }

  method EncodeDriverChannels(w: Writer, a: AudioRuntime.Configuration)
    modifies w
    ensures Wrote(old(w.Result()), w.Result(), DriverChannelsCodec(), DriverOf(a).1)
  {
    ghost var s0 := w.Result();
    EncodeChannels(w, a.asioInputs);
    ghost var s1 := w.Result();
    EncodeChannels(w, a.asioOutputs);
    WroteTwo(ChannelsCodec(), ChannelsCodec(), Any(),
             s0, s1, w.Result(), a.asioInputs, a.asioOutputs);
  }

  method EncodeDriver(w: Writer, a: AudioRuntime.Configuration)
    modifies w
    ensures Wrote(old(w.Result()), w.Result(), DriverCodec(VERSION), DriverOf(a))
  {
    ghost var s0 := w.Result();
    EncodeDriverFormat(w, a);
    ghost var s1 := w.Result();
    EncodeDriverChannels(w, a);
    WroteTwo(DriverFormatCodec(), DriverChannelsCodec(), Any(),
             s0, s1, w.Result(), DriverOf(a).0, DriverOf(a).1);
  }

  method EncodeDeviceRest(w: Writer, d: ControlCommand.VirtualAsioDevice)
    modifies w
    ensures Wrote(old(w.Result()), w.Result(), DeviceRestCodec(), DeviceToTuple(d).1)
  {
    ghost var s0 := w.Result();
    w.U32(d.inputChannels);
    ghost var s1 := w.Result();
    w.U32(d.outputChannels);
    ghost var s2 := w.Result();
    w.Boolean(d.enabled);
    WroteThree(U32(), U32(), Boolean(), Any(),
             s0, s1, s2, w.Result(), d.inputChannels, d.outputChannels, d.enabled);
  }

  /** encode_virtual_asio_device() */
  method EncodeDevice(w: Writer, d: ControlCommand.VirtualAsioDevice)
    modifies w
    ensures Wrote(old(w.Result()), w.Result(), DeviceCodec(), d)
  {
    ghost var s0 := w.Result();
    EncodeTexts(w, d.deviceId, d.clsid, d.registryName, d.brokerToken);
    ghost var s1 := w.Result();
    EncodeDeviceRest(w, d);
    WroteTwo(FourStrings(), DeviceRestCodec(), Any(),
             s0, s1, w.Result(), DeviceToTuple(d).0, DeviceToTuple(d).1);
    WroteRecord(DeviceTuples(), DeviceToTuple, DeviceFromTuple, Any(), s0, w.Result(), d);
  }

  method EncodeDevices(w: Writer, xs: seq<ControlCommand.VirtualAsioDevice>)
    modifies w
    ensures Wrote(old(w.Result()), w.Result(), DevicesCodec(VERSION), xs)
  {
    ghost var s := w.Result();
    w.Count(|xs|);
    ghost var t := w.Result();
    for k := 0 to |xs|
      invariant WroteSome(t, w.Result(), DeviceCodec(), xs[..k])
    {
      ghost var u := w.Result();
      EncodeDevice(w, xs[k]);
      WroteNext(DeviceCodec(), t, u, w.Result(), xs, k);
    }
    assert xs[..|xs|] == xs;
    WroteList(DeviceCodec(), Any(), Any(), s, t, w.Result(), xs);
  }

  method EncodeExtension(w: Writer, x: Extension)
    modifies w
    ensures Wrote(old(w.Result()), w.Result(), ExtensionCodec(), x)
  {
    ghost var s0 := w.Result();
    EncodeBackend(w, x.backend);
    ghost var s1 := w.Result();
    w.String(x.group);
    ghost var s2 := w.Result();
    w.U32(x.sampleRate);
    ghost var s3 := w.Result();
    w.U32(x.blockFrames);
    WroteFour(BackendCodec(), String(), U32(), U32(), Any(),
             s0, s1, s2, s3, w.Result(), x.backend, x.group, x.sampleRate, x.blockFrames);
    WroteRecord(ExtensionTuples(), ExtensionToTuple, ExtensionFromTuple, Any(), s0, w.Result(), x);
  }

  /** encode_runtime_endpoint_extensions() */
  method EncodeExtensions(w: Writer, xs: seq<Extension>, ghost n: nat)
    modifies w
    ensures Wrote(old(w.Result()), w.Result(), ExtensionsCodec(VERSION, n), xs)
  {
    ghost var s := w.Result();
    w.Count(|xs|);
    ghost var t := w.Result();
    for k := 0 to |xs|
      invariant WroteSome(t, w.Result(), ExtensionCodec(), xs[..k])
    {
      ghost var u := w.Result();
      EncodeExtension(w, xs[k]);
      WroteNext(ExtensionCodec(), t, u, w.Result(), xs, k);
    }
    assert xs[..|xs|] == xs;
    WroteList(ExtensionCodec(), Exactly(n), OfLength(n), s, t, w.Result(), xs);
  }

  method EncodeBody(w: Writer, c: ControlCommand.Command)
    modifies w
    ensures Wrote(old(w.Result()), w.Result(), BodyCodec(VERSION), CommandToTuple(c).0)
  {
    ghost var s0 := w.Result();
    EncodeHead(w, c);
    ghost var s1 := w.Result();
    EncodeRuntime(w, c.audioRuntime);
    ghost var s2 := w.Result();
    EncodeDriver(w, c.audioRuntime);
    ghost var s3 := w.Result();
    EncodeDevices(w, c.devices);
    WroteFour(HeadCodec(VERSION), RuntimeCodec(VERSION), DriverCodec(VERSION), DevicesCodec(VERSION), BodyFits(VERSION),
             s0, s1, s2, s3, w.Result(), HeadOf(c), RuntimeOf(c.audioRuntime), DriverOf(c.audioRuntime), c.devices);
  }

  /** A body and its extensions make up a command. */
  lemma WroteCommand(body: Codec<Body>, s: Output, t: Output, u: Output, c: ControlCommand.Command)
    requires Wrote(s, t, body, CommandToTuple(c).0)
    requires Wrote(t, u, ExtensionsCodec(VERSION, |c.audioRuntime.endpoints|), Extensions(c.audioRuntime.endpoints))
    ensures Wrote(s, u, CommandOver(body, VERSION), c)
  {
    var tuple := CommandToTuple(c);
    CommandMatches(c);
    WroteDepends(body, ExtensionsAfter(VERSION), ExtendedFits(VERSION), s, t, u, tuple.0, tuple.1);
    WroteRecord(Extended(body, VERSION), CommandToTuple, CommandFromTuple, Expressible(VERSION), s, u, c);
  }

  /** encode_control_command() */
  method EncodeCommand(c: ControlCommand.Command) returns (result: Output)
    ensures result == EncodeMessage(COMMAND, CommandCodec(VERSION), c)
  {
    var w := new Writer(COMMAND);
    ghost var s := w.Result();
    EncodeBody(w, c);
    ghost var t := w.Result();
    EncodeExtensions(w, Extensions(c.audioRuntime.endpoints), |c.audioRuntime.endpoints|);
    WroteCommand(BodyCodec(VERSION), s, t, w.Result(), c);
    FinishedMessage(COMMAND, CommandCodec(VERSION), c, w.Result());
    result := w.Finish();
  }

  method DecodeTexts(r: Reader) returns (t: Texts)
    requires r.Valid()
    modifies r`offset, r`error
    ensures r.Valid() && Reads(FourStrings(), r.input, old(r.State()), r.State(), t)
  {
    ghost var s0 := r.State();
    var a := r.String();
    ghost var s1 := r.State();
    var b := r.String();
    ghost var s2 := r.State();
    var c := r.String();
    ghost var s3 := r.State();
    var d := r.String();
    ReadsFour(String(), String(), String(), String(), Any(), r.input,
             s0, s1, s2, s3, r.State(), a, b, c, d);
    t := (a, (b, (c, d)));
  }

  method DecodeKind(r: Reader, version: nat) returns (x: ControlCommand.Kind)
    requires r.Valid()
    modifies r`offset, r`error
    ensures r.Valid() && Reads(KindCodec(version), r.input, old(r.State()), r.State(), x)
  {
    ghost var s := r.State();
    var n := r.Enumerator(LastKind(version));
    ReadsRecord(Enumeration(LastKind(version)), KindIndex, KindAt, KindUpTo(version), r.input, s, r.State(), n);
    x := KindAt(n);
  }

  method DecodeMode(r: Reader, version: nat) returns (x: AudioRuntime.Mode)
    requires r.Valid()
    modifies r`offset, r`error
    ensures r.Valid() && Reads(ModeCodec(version), r.input, old(r.State()), r.State(), x)
  {
    ghost var s := r.State();
    var n := r.Enumerator(LastMode(version));
    ReadsRecord(Enumeration(LastMode(version)), ModeIndex, ModeAt, ModeUpTo(version), r.input, s, r.State(), n);
    x := ModeAt(n);
  }

  method DecodeDirection(r: Reader) returns (x: AudioRuntime.Direction)
    requires r.Valid()
    modifies r`offset, r`error
    ensures r.Valid() && Reads(DirectionCodec(), r.input, old(r.State()), r.State(), x)
  {
    ghost var s := r.State();
    var n := r.Enumerator(1);
    ReadsRecord(Enumeration(1), DirectionIndex, DirectionAt, Any(), r.input, s, r.State(), n);
    x := DirectionAt(n);
  }

  method DecodeBackend(r: Reader) returns (x: AudioRuntime.Backend)
    requires r.Valid()
    modifies r`offset, r`error
    ensures r.Valid() && Reads(BackendCodec(), r.input, old(r.State()), r.State(), x)
  {
    ghost var s := r.State();
    var n := r.Enumerator(1);
    ReadsRecord(Enumeration(1), BackendIndex, BackendAt, Any(), r.input, s, r.State(), n);
    x := BackendAt(n);
  }

  method DecodeLabel(r: Reader, version: nat) returns (t: Label)
    requires r.Valid()
    modifies r`offset, r`error
    ensures r.Valid() && Reads(LabelCodec(version), r.input, old(r.State()), r.State(), t)
  {
    ghost var s0 := r.State();
    var schemaVersion := r.U32();
    ghost var s1 := r.State();
    var id := r.String();
    ghost var s2 := r.State();
    var kind := DecodeKind(r, version);
    ReadsThree(U32(), String(), KindCodec(version), LabelFits(version), r.input,
             s0, s1, s2, r.State(), schemaVersion, id, kind);
    t := (schemaVersion, (id, kind));
  }

  method DecodeValues(r: Reader) returns (t: Values)
    requires r.Valid()
    modifies r`offset, r`error
    ensures r.Valid() && Reads(ValuesCodec(), r.input, old(r.State()), r.State(), t)
  {
    ghost var s0 := r.State();
    var gain := r.Float32();
    ghost var s1 := r.State();
    var mute := r.Boolean();
    ghost var s2 := r.State();
    var preset := DecodePreset(r);
    ReadsThree(Float32(), Boolean(), PresetCodec(), FiniteValues, r.input,
             s0, s1, s2, r.State(), gain, mute, preset);
    t := (gain, (mute, preset));
  }

  method DecodeHead(r: Reader, version: nat) returns (t: Head)
    requires r.Valid()
    modifies r`offset, r`error
    ensures r.Valid() && Reads(HeadCodec(version), r.input, old(r.State()), r.State(), t)
  {
    ghost var s0 := r.State();
    var start := DecodeLabel(r, version);
    ghost var s1 := r.State();
    var ids := DecodeTexts(r);
    ghost var s2 := r.State();
    var values := DecodeValues(r);
    ReadsThree(LabelCodec(version), FourStrings(), ValuesCodec(), HeadFits(version), r.input,
             s0, s1, s2, r.State(), start, ids, values);
    t := (start, (ids, values));
  }

  method DecodeBaseStart(r: Reader) returns (t: BaseStart)
    requires r.Valid()
    modifies r`offset, r`error
    ensures r.Valid() && Reads(BaseStartCodec(), r.input, old(r.State()), r.State(), t)
  {
    ghost var s0 := r.State();
    var id := r.String();
    ghost var s1 := r.State();
    var device := r.String();
    ghost var s2 := r.State();
    var direction := DecodeDirection(r);
    ReadsThree(String(), String(), DirectionCodec(), Any(), r.input,
             s0, s1, s2, r.State(), id, device, direction);
    t := (id, (device, direction));
  }

  method DecodeBaseRest(r: Reader) returns (t: BaseRest)
    requires r.Valid()
    modifies r`offset, r`error
    ensures r.Valid() && Reads(BaseRestCodec(), r.input, old(r.State()), r.State(), t)
  {
    ghost var s0 := r.State();
    var master := r.Boolean();
    ghost var s1 := r.State();
    var first := r.U32();
    ghost var s2 := r.State();
    var count := r.U32();
    ReadsThree(Boolean(), U32(), U32(), Any(), r.input,
             s0, s1, s2, r.State(), master, first, count);
    t := (master, (first, count));
  }

  method DecodeBase(r: Reader) returns (b: Base)
    requires r.Valid()
    modifies r`offset, r`error
    ensures r.Valid() && Reads(BaseCodec(), r.input, old(r.State()), r.State(), b)
  {
    ghost var s0 := r.State();
    var start := DecodeBaseStart(r);
    ghost var s1 := r.State();
    var rest := DecodeBaseRest(r);
    ReadsTwo(BaseStartCodec(), BaseRestCodec(), Any(), r.input,
             s0, s1, r.State(), start, rest);
    ReadsRecord(BaseTuples(), BaseToTuple, BaseFromTuple, Any(), r.input, s0, r.State(), (start, rest));
    b := BaseFromTuple((start, rest));
  }

  method DecodeBases(r: Reader) returns (xs: seq<Base>)
    requires r.Valid()
    modifies r`offset, r`error
    ensures r.Valid() && Reads(AnyList(BaseCodec()), r.input, old(r.State()), r.State(), xs)
  {
    ghost var s := r.State();
    var n := r.Count();
    ghost var t := r.State();
    xs := [];
    if r.Ok() {
      ProgressStarts(BaseCodec(), r.input, t, n);
      while |xs| < n && r.Ok()
        invariant r.Valid() && Progress(BaseCodec(), r.input, t, r.State(), n, xs)
        decreases n - |xs|
      {
        ghost var u := r.State();
        var x := DecodeBase(r);
        ProgressNext(BaseCodec(), r.input, t, u, r.State(), n, xs, x);
        xs := xs + [x];
      }
    }
    ReadsList(BaseCodec(), Any(), Any(), r.input, s, t, r.State(), n, xs);
  }

  method DecodeBasesField(r: Reader, version: nat) returns (x: seq<Base>)
    requires r.Valid()
    modifies r`offset, r`error
    ensures r.Valid() && Reads(BasesCodec(version), r.input, old(r.State()), r.State(), x)
  {
    x := [];
    if r.Ok() && version >= 9 {
      x := DecodeBases(r);
    }
  }

  method DecodeRuntime(r: Reader, version: nat) returns (t: Runtime)
    requires r.Valid()
    modifies r`offset, r`error
    ensures r.Valid() && Reads(RuntimeCodec(version), r.input, old(r.State()), r.State(), t)
  {
    ghost var s0 := r.State();
    var mode := DecodeMode(r, version);
    ghost var s1 := r.State();
    var capture := r.String();
    ghost var s2 := r.State();
    var render := r.String();
    ghost var s3 := r.State();
    var bases := DecodeBasesField(r, version);
    ReadsFour(ModeCodec(version), String(), String(), BasesCodec(version), RuntimeFits(version), r.input,
             s0, s1, s2, s3, r.State(), mode, capture, render, bases);
    t := (mode, (capture, (render, bases)));
  }

  method DecodeChannels(r: Reader) returns (xs: seq<u32>)
    requires r.Valid()
    modifies r`offset, r`error
    ensures r.Valid() && Reads(ChannelsCodec(), r.input, old(r.State()), r.State(), xs)
  {
    ghost var s := r.State();
    var n := r.Count();
    ghost var t := r.State();
    xs := [];
    if r.Ok() {
      ProgressStarts(U32(), r.input, t, n);
      while |xs| < n && r.Ok()
        invariant r.Valid() && Progress(U32(), r.input, t, r.State(), n, xs)
        decreases n - |xs|
      {
        ghost var u := r.State();
        var x := r.U32();
        ProgressNext(U32(), r.input, t, u, r.State(), n, xs, x);
        xs := xs + [x];
      }
    }
    ReadsList(U32(), Any(), Any(), r.input, s, t, r.State(), n, xs);
  }

  method DecodeDriverFormat(r: Reader) returns (t: DriverFormat)
    requires r.Valid()
    modifies r`offset, r`error
    ensures r.Valid() && Reads(DriverFormatCodec(), r.input, old(r.State()), r.State(), t)
  {
    ghost var s0 := r.State();
    var clsid := r.String();
    ghost var s1 := r.State();
    var rate := r.U32();
    ghost var s2 := r.State();
    var frames := r.U32();
    ReadsThree(String(), U32(), U32(), Any(), r.input,
             s0, s1, s2, r.State(), clsid, rate, frames);
    t := (clsid, (rate, frames));
  }

  method DecodeDriverChannels(r: Reader) returns (t: DriverChannels)
    requires r.Valid()
    modifies r`offset, r`error
    ensures r.Valid() && Reads(DriverChannelsCodec(), r.input, old(r.State()), r.State(), t)
  {
    ghost var s0 := r.State();
    var inputs := DecodeChannels(r);
    ghost var s1 := r.State();
    var outputs := DecodeChannels(r);
    ReadsTwo(ChannelsCodec(), ChannelsCodec(), Any(), r.input,
             s0, s1, r.State(), inputs, outputs);
    t := (inputs, outputs);
  }

  method DecodeDriver(r: Reader) returns (t: Driver)
    requires r.Valid()
    modifies r`offset, r`error
    ensures r.Valid() && Reads(DriverFields(), r.input, old(r.State()), r.State(), t)
  {
    ghost var s0 := r.State();
    var format := DecodeDriverFormat(r);
    ghost var s1 := r.State();
    var channels := DecodeDriverChannels(r);
    ReadsTwo(DriverFormatCodec(), DriverChannelsCodec(), Any(), r.input,
             s0, s1, r.State(), format, channels);
    t := (format, channels);
  }

  method DecodeDriverField(r: Reader, version: nat) returns (x: Driver)
    requires r.Valid()
    modifies r`offset, r`error
    ensures r.Valid() && Reads(DriverCodec(version), r.input, old(r.State()), r.State(), x)
  {
    x := NoDriver();
    if r.Ok() && version >= 12 {
      x := DecodeDriver(r);
    }
  }

  method DecodeDeviceRest(r: Reader) returns (t: DeviceRest)
    requires r.Valid()
    modifies r`offset, r`error
    ensures r.Valid() && Reads(DeviceRestCodec(), r.input, old(r.State()), r.State(), t)
  {
    ghost var s0 := r.State();
    var inputs := r.U32();
    ghost var s1 := r.State();
    var outputs := r.U32();
    ghost var s2 := r.State();
    var enabled := r.Boolean();
    ReadsThree(U32(), U32(), Boolean(), Any(), r.input,
             s0, s1, s2, r.State(), inputs, outputs, enabled);
    t := (inputs, (outputs, enabled));
  }

  /** decode_virtual_asio_device() */
  method DecodeDevice(r: Reader) returns (d: ControlCommand.VirtualAsioDevice)
    requires r.Valid()
    modifies r`offset, r`error
    ensures r.Valid() && Reads(DeviceCodec(), r.input, old(r.State()), r.State(), d)
  {
    ghost var s0 := r.State();
    var texts := DecodeTexts(r);
    ghost var s1 := r.State();
    var rest := DecodeDeviceRest(r);
    ReadsTwo(FourStrings(), DeviceRestCodec(), Any(), r.input,
             s0, s1, r.State(), texts, rest);
    ReadsRecord(DeviceTuples(), DeviceToTuple, DeviceFromTuple, Any(), r.input, s0, r.State(), (texts, rest));
    d := DeviceFromTuple((texts, rest));
  }

  method DecodeDevices(r: Reader) returns (xs: seq<ControlCommand.VirtualAsioDevice>)
    requires r.Valid()
    modifies r`offset, r`error
    ensures r.Valid() && Reads(AnyList(DeviceCodec()), r.input, old(r.State()), r.State(), xs)
  {
    ghost var s := r.State();
    var n := r.Count();
    ghost var t := r.State();
    xs := [];
    if r.Ok() {
      ProgressStarts(DeviceCodec(), r.input, t, n);
      while |xs| < n && r.Ok()
        invariant r.Valid() && Progress(DeviceCodec(), r.input, t, r.State(), n, xs)
        decreases n - |xs|
      {
        ghost var u := r.State();
        var x := DecodeDevice(r);
        ProgressNext(DeviceCodec(), r.input, t, u, r.State(), n, xs, x);
        xs := xs + [x];
      }
    }
    ReadsList(DeviceCodec(), Any(), Any(), r.input, s, t, r.State(), n, xs);
  }

  method DecodeDevicesField(r: Reader, version: nat) returns (x: Devices)
    requires r.Valid()
    modifies r`offset, r`error
    ensures r.Valid() && Reads(DevicesCodec(version), r.input, old(r.State()), r.State(), x)
  {
    x := [];
    if r.Ok() && version >= 11 {
      x := DecodeDevices(r);
    }
  }

  method DecodeExtension(r: Reader) returns (x: Extension)
    requires r.Valid()
    modifies r`offset, r`error
    ensures r.Valid() && Reads(ExtensionCodec(), r.input, old(r.State()), r.State(), x)
  {
    ghost var s0 := r.State();
    var backend := DecodeBackend(r);
    ghost var s1 := r.State();
    var group := r.String();
    ghost var s2 := r.State();
    var rate := r.U32();
    ghost var s3 := r.State();
    var frames := r.U32();
    ReadsFour(BackendCodec(), String(), U32(), U32(), Any(), r.input,
             s0, s1, s2, s3, r.State(), backend, group, rate, frames);
    ReadsRecord(ExtensionTuples(), ExtensionToTuple, ExtensionFromTuple, Any(), r.input, s0, r.State(), (backend, (group, (rate, frames))));
    x := Extension(backend, group, rate, frames);
  }

  /** decode_runtime_endpoint_extensions(), for `size` endpoints. */
  method DecodeExtensions(r: Reader, size: nat) returns (xs: seq<Extension>)
    requires r.Valid()
    modifies r`offset, r`error
    ensures r.Valid() && Reads(ExtensionList(size), r.input, old(r.State()), r.State(), xs)
  {
    ghost var s := r.State();
    var n := r.Count();
    ghost var t := r.State();
    xs := [];
    if r.Ok() {
      if n != size {
        r.Fail(InvalidValue);
      } else {
        ProgressStarts(ExtensionCodec(), r.input, t, n);
        while |xs| < n && r.Ok()
          invariant r.Valid() && Progress(ExtensionCodec(), r.input, t, r.State(), n, xs)
          decreases n - |xs|
        {
          ghost var u := r.State();
          var x := DecodeExtension(r);
          ProgressNext(ExtensionCodec(), r.input, t, u, r.State(), n, xs, x);
          xs := xs + [x];
        }
      }
    }
    ReadsList(ExtensionCodec(), Exactly(size), OfLength(size), r.input, s, t, r.State(), n, xs);
  }

  method DecodeExtensionsField(r: Reader, version: nat, size: nat) returns (xs: seq<Extension>)
    requires r.Valid()
    modifies r`offset, r`error
    ensures r.Valid() && Reads(ExtensionsCodec(version, size), r.input, old(r.State()), r.State(), xs)
  {
    xs := NoExtensions(size);
    if r.Ok() && version >= 14 {
      xs := DecodeExtensions(r, size);
    }
  }

  method DecodeBody(r: Reader, version: nat) returns (b: Body)
    requires r.Valid()
    modifies r`offset, r`error
    ensures r.Valid() && Reads(BodyCodec(version), r.input, old(r.State()), r.State(), b)
  {
    ghost var s0 := r.State();
    var head := DecodeHead(r, version);
    ghost var s1 := r.State();
    var runtime := DecodeRuntime(r, version);
    ghost var s2 := r.State();
    var driver := DecodeDriverField(r, version);
    ghost var s3 := r.State();
    var devices := DecodeDevicesField(r, version);
    ReadsFour(HeadCodec(version), RuntimeCodec(version), DriverCodec(version), DevicesCodec(version), BodyFits(version), r.input,
             s0, s1, s2, s3, r.State(), head, runtime, driver, devices);
    b := (head, (runtime, (driver, devices)));
  }

  lemma ReadsCommand(body: Codec<Body>, version: nat, input: seq<u8>, s: ReadState, t: ReadState, u: ReadState, b: Body, xs: seq<Extension>)
    requires Reads(body, input, s, t, b) && Reads(ExtensionsCodec(version, |BasesOf(b)|), input, t, u, xs)
    ensures Reads(CommandOver(body, version), input, s, u, CommandFromTuple((b, xs)))
  {
    ReadsDepends(body, ExtensionsAfter(version), ExtendedFits(version), input, s, t, u, b, xs);
    ReadsRecord(Extended(body, version), CommandToTuple, CommandFromTuple, Expressible(version), input, s, u, (b, xs));
  }

  method DecodeFields(r: Reader, version: nat) returns (c: ControlCommand.Command)
    requires r.Valid()
    modifies r`offset, r`error
    ensures r.Valid() && Reads(CommandCodec(version), r.input, old(r.State()), r.State(), c)
  {
    ghost var s := r.State();
    var b := DecodeBody(r, version);
    ghost var t := r.State();
    var xs := DecodeExtensionsField(r, version, |BasesOf(b)|);
    ReadsCommand(BodyCodec(version), version, r.input, s, t, r.State(), b, xs);
    c := CommandFromTuple((b, xs));
  }

  method DecodeOpened(r: Reader) returns (c: ControlCommand.Command)
    requires r.Valid() && r.Ok() && Opened(r.input, COMMAND) == (r.State(), r.version)
    modifies r`offset, r`error
    ensures r.Valid() && DecodeMessage(COMMAND, CommandCodec, r.input) == Ended(r.input, r.State(), c)
  {
    ghost var s := r.State();
    c := DecodeFields(r, r.version);
    ReadMessage(COMMAND, CommandCodec, r.input, s, r.version, r.State(), c);
  }

  /** decode_control_command() */
  method DecodeCommand(input: seq<u8>) returns (result: Input<ControlCommand.Command>)
    ensures result == DecodeMessage(COMMAND, CommandCodec, input)
  {
    var r := new Reader(input, COMMAND);
    if !r.Ok() {
      NotOpened(COMMAND, CommandCodec, input, r.State(), r.version);
      return Malformed(r.error.value.code, r.error.value.offset);
    }
    var c := DecodeOpened(r);
    result := Conclude(r, c);
  }
}
