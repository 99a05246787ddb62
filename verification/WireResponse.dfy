/** The encoding of control responses. Counters that the wire carries one after the other are kept as a
    list; enumerators are their indices. What stands behind a flag that is false is not written. */
module WireResponse {
  import opened Basics
  import opened Codecs
  import opened WireStream
  import opened WireMessage
  import opened WirePreset
  import opened WireCommand
  import Preset
  import AudioRuntime

  const RESPONSE: nat := 2

  /** Engine diagnostics: 24 counters and three levels, as patterns of 64-bit floats. */
  datatype Diagnostics = Diagnostics(counters: Counters, last: u64, peak: u64, level: u64)

  type Counters = c: seq<u64> | |c| == 24 witness [0, 0, 0, 0, 0, 0, 0, 0, 0, 0, 0, 0, 0, 0, 0, 0, 0, 0, 0, 0, 0, 0, 0, 0]

  type Seven = c: seq<u64> | |c| == 7 witness [0, 0, 0, 0, 0, 0, 0]

  type Five = c: seq<u64> | |c| == 5 witness [0, 0, 0, 0, 0]

  /** WASAPI recovery diagnostics; the pending flag stands between the counters. */
  datatype Recovery = Recovery(state: State, health: Health, reason: Text, before: Seven, pending: bool, after: Five)

  type State = n: nat | n <= 5

  type Health = n: nat | n <= 3

  type Binary = n: nat | n <= 1

  type Ternary = n: nat | n <= 2

  datatype EndpointDiagnostics = EndpointDiagnostics(
    id: Text,
    role: Binary,
    diagnostics: Diagnostics,
    recovery: Option<Recovery>,
    queueFill: Option<u64>,
    correction: Option<u64>)

  datatype AudioFormat = AudioFormat(
    sampleRate: u32,
    channels: u32,
    frames: u32,
    bits: u32,
    validBits: u32,
    sampleFormat: Ternary)

  datatype Device = Device(
    id: Text,
    name: Text,
    backend: State,
    direction: Ternary,
    formats: seq<AudioFormat>,
    isDefault: bool,
    isVirtual: bool,
    inputChannels: u32,
    outputChannels: u32)

  datatype ErrorText = ErrorText(code: Text, message: Text)

  datatype GraphSummary = GraphSummary(version: u64, sampleRate: u32, channels: u64, frames: u64, nodes: seq<ErrorText>)

  datatype RuntimeState = RuntimeState(
    installed: bool,
    running: bool,
    graphVersion: u64,
    configured: bool,
    configuration: AudioRuntime.Configuration)

  datatype Response = Response(
    commandId: Text,
    status: Binary,
    errors: seq<ErrorText>,
    hasPreset: bool,
    preset: Preset.Document,
    hasDiagnostics: bool,
    diagnostics: Diagnostics,
    hasRecovery: bool,
    recovery: Recovery,
    endpointDiagnostics: seq<EndpointDiagnostics>,
    hasDevices: bool,
    devices: seq<Device>,
    nextGraphVersion: u64,
    hasSessionState: bool,
    hasActiveGraph: bool,
    activeGraph: GraphSummary,
    hasRuntimeState: bool,
    runtime: RuntimeState,
    hasVirtualDevices: bool,
    virtualDevices: Devices)

  // Enumerators and runs of counters.

  function AsState(n: nat): State {
    if n <= 5 then n else 0
  }

  function StateCodec(): Codec<State> {
    Record(Enumeration(5), (x: State) => x, AsState, Any())
  }

  lemma StateLawful()
    ensures SoundOn(StateCodec(), Any())
  {
    EnumerationLawful(5);
    RecordLawful(Enumeration(5), (x: State) => x, AsState, Any());
  }

  function AsHealth(n: nat): Health {
    if n <= 3 then n else 0
  }

  function HealthCodec(): Codec<Health> {
    Record(Enumeration(3), (x: Health) => x, AsHealth, Any())
  }

  lemma HealthLawful()
    ensures SoundOn(HealthCodec(), Any())
  {
    EnumerationLawful(3);
    RecordLawful(Enumeration(3), (x: Health) => x, AsHealth, Any());
  }

  function AsBinary(n: nat): Binary {
    if n <= 1 then n else 0
  }

  function BinaryCodec(): Codec<Binary> {
    Record(Enumeration(1), (x: Binary) => x, AsBinary, Any())
  }

  lemma BinaryLawful()
    ensures SoundOn(BinaryCodec(), Any())
  {
    EnumerationLawful(1);
    RecordLawful(Enumeration(1), (x: Binary) => x, AsBinary, Any());
  }

  function AsTernary(n: nat): Ternary {
    if n <= 2 then n else 0
  }

  function TernaryCodec(): Codec<Ternary> {
    Record(Enumeration(2), (x: Ternary) => x, AsTernary, Any())
  }

  lemma TernaryLawful()
    ensures SoundOn(TernaryCodec(), Any())
  {
    EnumerationLawful(2);
    RecordLawful(Enumeration(2), (x: Ternary) => x, AsTernary, Any());
  }

  function AsCounters(c: seq<u64>): Counters {
    if |c| == 24 then c else Zeros(24)
  }

  function CountersCodec(): Codec<Counters> {
    Record(Fixed(U64(), 24), (c: Counters) => c, AsCounters, Any())
  }

  lemma CountersLawful()
    ensures LawfulOn(CountersCodec(), Any())
  {
    U64Lawful();
    FixedLawful(U64(), 24);
    RecordLawful(Fixed(U64(), 24), (c: Counters) => c, AsCounters, Any());
  }

  function AsSeven(c: seq<u64>): Seven {
    if |c| == 7 then c else Zeros(7)
  }

  function SevenCodec(): Codec<Seven> {
    Record(Fixed(U64(), 7), (c: Seven) => c, AsSeven, Any())
  }

  lemma SevenLawful()
    ensures LawfulOn(SevenCodec(), Any())
  {
    U64Lawful();
    FixedLawful(U64(), 7);
    RecordLawful(Fixed(U64(), 7), (c: Seven) => c, AsSeven, Any());
  }

  function AsFive(c: seq<u64>): Five {
    if |c| == 5 then c else Zeros(5)
  }

  function FiveCodec(): Codec<Five> {
    Record(Fixed(U64(), 5), (c: Five) => c, AsFive, Any())
  }

  lemma FiveLawful()
    ensures LawfulOn(FiveCodec(), Any())
  {
    U64Lawful();
    FixedLawful(U64(), 5);
    RecordLawful(Fixed(U64(), 5), (c: Five) => c, AsFive, Any());
  }

  // Diagnostics.

  predicate FiniteDiagnostics(d: Diagnostics) {
    Finite64(d.last) && Finite64(d.peak) && Finite64(d.level)
  }

  type DiagnosticsTuple = (Counters, (u64, (u64, u64)))

  predicate FiniteLevels(t: DiagnosticsTuple) {
    Finite64(t.1.0) && Finite64(t.1.1.0) && Finite64(t.1.1.1)
  }

  function DiagnosticsToTuple(d: Diagnostics): DiagnosticsTuple {
    (d.counters, (d.last, (d.peak, d.level)))
  }

  function DiagnosticsFromTuple(t: DiagnosticsTuple): Diagnostics {
    Diagnostics(t.0, t.1.0, t.1.1.0, t.1.1.1)
  }

  function DiagnosticsTuples(): Codec<DiagnosticsTuple> {
    Four(CountersCodec(), Float64(), Float64(), Float64(), FiniteLevels)
  }

  function DiagnosticsCodec(): Codec<Diagnostics> {
    Record(DiagnosticsTuples(), DiagnosticsToTuple, DiagnosticsFromTuple, FiniteDiagnostics)
  }

  lemma DiagnosticsLawful()
    ensures LawfulOn(DiagnosticsCodec(), FiniteDiagnostics)
  {
    CountersLawful();
    Float64Lawful();
    FourLawful(CountersCodec(), Float64(), Float64(), Float64(), FiniteLevels);
    RecordLawful(DiagnosticsTuples(), DiagnosticsToTuple, DiagnosticsFromTuple, FiniteDiagnostics);
  }

  type RecoveryStart = (State, (Health, Text))

  type RecoveryRest = (Seven, (bool, Five))

  function RecoveryToTuple(r: Recovery): (RecoveryStart, RecoveryRest) {
    ((r.state, (r.health, r.reason)), (r.before, (r.pending, r.after)))
  }

  function RecoveryFromTuple(t: (RecoveryStart, RecoveryRest)): Recovery {
    Recovery(t.0.0, t.0.1.0, t.0.1.1, t.1.0, t.1.1.0, t.1.1.1)
  }

  function RecoveryStartCodec(): Codec<RecoveryStart> {
    Three(StateCodec(), HealthCodec(), String(), Any())
  }

  lemma RecoveryStartLawful()
    ensures SoundOn(RecoveryStartCodec(), Any())
  {
    StateLawful();
    HealthLawful();
    StringLawful();
    ThreeLawful(StateCodec(), HealthCodec(), String(), Any());
  }

  function RecoveryRestCodec(): Codec<RecoveryRest> {
    Three(SevenCodec(), Boolean(), FiveCodec(), Any())
  }

  lemma RecoveryRestLawful()
    ensures LawfulOn(RecoveryRestCodec(), Any())
  {
    SevenLawful();
    BooleanLawful();
    FiveLawful();
    ThreeLawful(SevenCodec(), Boolean(), FiveCodec(), Any());
  }

  function RecoveryTuples(): Codec<(RecoveryStart, RecoveryRest)> {
    Two(RecoveryStartCodec(), RecoveryRestCodec(), Any())
  }

  function RecoveryCodec(): Codec<Recovery> {
    Record(RecoveryTuples(), RecoveryToTuple, RecoveryFromTuple, Any())
  }

  lemma RecoveryLawful()
    ensures SoundOn(RecoveryCodec(), Any())
  {
    RecoveryStartLawful();
    RecoveryRestLawful();
    TwoLawful(RecoveryStartCodec(), RecoveryRestCodec(), Any());
    RecordLawful(RecoveryTuples(), RecoveryToTuple, RecoveryFromTuple, Any());
  }

  /** The values that the decoder leaves behind a flag that is false. */
  function NoDiagnostics(): Diagnostics {
    Diagnostics(Zeros(24), 0, 0, 0)
  }

  function NoRecovery(): Recovery {
    Recovery(0, 0, [], Zeros(7), false, Zeros(5))
  }

  type EndpointStart = (Text, (Binary, Diagnostics))

  predicate FiniteStart(t: EndpointStart) {
    FiniteDiagnostics(t.1.1)
  }

  type EndpointRest = (Option<Recovery>, (Option<u64>, Option<u64>))

  predicate FiniteCorrection(o: Option<u64>) {
    o.Some? ==> Finite64(o.value)
  }

  predicate FiniteRest(t: EndpointRest) {
    FiniteCorrection(t.1.1)
  }

  predicate FiniteEndpoint(e: EndpointDiagnostics) {
    FiniteDiagnostics(e.diagnostics) && FiniteCorrection(e.correction)
  }

  predicate FiniteBoth(t: (EndpointStart, EndpointRest)) {
    FiniteStart(t.0) && FiniteRest(t.1)
  }

  function EndpointDiagnosticsToTuple(e: EndpointDiagnostics): (EndpointStart, EndpointRest) {
    ((e.id, (e.role, e.diagnostics)), (e.recovery, (e.queueFill, e.correction)))
  }

  function EndpointDiagnosticsFromTuple(t: (EndpointStart, EndpointRest)): EndpointDiagnostics {
    EndpointDiagnostics(t.0.0, t.0.1.0, t.0.1.1, t.1.0, t.1.1.0, t.1.1.1)
  }

  function EndpointStartCodec(): Codec<EndpointStart> {
    Three(String(), BinaryCodec(), DiagnosticsCodec(), FiniteStart)
  }

  lemma EndpointStartLawful()
    ensures SoundOn(EndpointStartCodec(), FiniteStart)
  {
    StringLawful();
    BinaryLawful();
    DiagnosticsLawful();
    ThreeLawful(String(), BinaryCodec(), DiagnosticsCodec(), FiniteStart);
  }

  function EndpointRestCodec(): Codec<EndpointRest> {
    Three(Optional(RecoveryCodec(), Any(), NoRecovery()), Optional(U64(), Any(), 0), Optional(Float64(), Finite64, 0), FiniteRest)
  }

  lemma EndpointRestLawful()
    ensures SoundOn(EndpointRestCodec(), FiniteRest)
  {
    RecoveryLawful();
    OptionalLawful(RecoveryCodec(), Any(), NoRecovery());
    U64Lawful();
    OptionalLawful(U64(), Any(), 0);
    Float64Lawful();
    OptionalLawful(Float64(), Finite64, 0);
    ThreeLawful(Optional(RecoveryCodec(), Any(), NoRecovery()), Optional(U64(), Any(), 0), Optional(Float64(), Finite64, 0), FiniteRest);
  }

  function EndpointDiagnosticsTuples(): Codec<(EndpointStart, EndpointRest)> {
    Two(EndpointStartCodec(), EndpointRestCodec(), FiniteBoth)
  }

  function EndpointDiagnosticsCodec(): Codec<EndpointDiagnostics> {
    Record(EndpointDiagnosticsTuples(), EndpointDiagnosticsToTuple, EndpointDiagnosticsFromTuple, FiniteEndpoint)
  }

  lemma EndpointDiagnosticsLawful()
    ensures SoundOn(EndpointDiagnosticsCodec(), FiniteEndpoint)
  {
    EndpointStartLawful();
    EndpointRestLawful();
    TwoLawful(EndpointStartCodec(), EndpointRestCodec(), FiniteBoth);
    RecordLawful(EndpointDiagnosticsTuples(), EndpointDiagnosticsToTuple, EndpointDiagnosticsFromTuple, FiniteEndpoint);
  }

  predicate AllFiniteEndpoints(es: seq<EndpointDiagnostics>) {
    forall k :: 0 <= k < |es| ==> FiniteEndpoint(es[k])
  }

  function EndpointListCodec(): Codec<seq<EndpointDiagnostics>> {
    ListOf(EndpointDiagnosticsCodec(), Any(), AllFiniteEndpoints)
  }

  lemma EndpointListLawful()
    ensures SoundOn(EndpointListCodec(), AllFiniteEndpoints)
  {
    EndpointDiagnosticsLawful();
    ListOfLawful(EndpointDiagnosticsCodec(), Any(), AllFiniteEndpoints);
  }

  function EndpointsOk(version: nat): seq<EndpointDiagnostics> -> bool {
    (es: seq<EndpointDiagnostics>) => if version >= 10 then AllFiniteEndpoints(es) else es == []
  }

  function EndpointFieldCodec(version: nat): Codec<seq<EndpointDiagnostics>> {
    Field(version >= 10, EndpointListCodec(), [], EndpointsOk(version))
  }

  lemma EndpointFieldLawful(version: nat)
    ensures LawfulOn(EndpointFieldCodec(version), EndpointsOk(version))
  {
    EndpointListLawful();
    FieldLawful(version >= 10, EndpointListCodec(), [], EndpointsOk(version));
  }

  /** All that stands behind the diagnostics flag. */
  type Report = (Diagnostics, ((bool, Recovery), seq<EndpointDiagnostics>))

  function ReportFits(version: nat): Report -> bool {
    (t: Report) => && FiniteDiagnostics(t.0) && FlagFits(Any(), NoRecovery())(t.1.0)
                    && EndpointsOk(version)(t.1.1)
  }

  function ReportCodec(version: nat): Codec<Report> {
    Three(DiagnosticsCodec(), Flagged(RecoveryCodec(), Any(), NoRecovery()), EndpointFieldCodec(version), ReportFits(version))
  }

  lemma ReportLawful(version: nat)
    ensures LawfulOn(ReportCodec(version), ReportFits(version))
  {
    DiagnosticsLawful();
    RecoveryLawful();
    FlaggedLawful(RecoveryCodec(), Any(), NoRecovery());
    EndpointFieldLawful(version);
    ThreeLawful(DiagnosticsCodec(), Flagged(RecoveryCodec(), Any(), NoRecovery()), EndpointFieldCodec(version), ReportFits(version));
  }

  function NoReport(): Report {
    (NoDiagnostics(), ((false, NoRecovery()), []))
  }

  // Devices.

  type FormatStart = (u32, (u32, (u32, u32)))

  type FormatRest = (u32, Ternary)

  function AudioFormatToTuple(f: AudioFormat): (FormatStart, FormatRest) {
    ((f.sampleRate, (f.channels, (f.frames, f.bits))), (f.validBits, f.sampleFormat))
  }

  function AudioFormatFromTuple(t: (FormatStart, FormatRest)): AudioFormat {
    AudioFormat(t.0.0, t.0.1.0, t.0.1.1.0, t.0.1.1.1, t.1.0, t.1.1)
  }

  function FormatStartCodec(): Codec<FormatStart> {
    Four(U32(), U32(), U32(), U32(), Any())
  }

  lemma FormatStartLawful()
    ensures SoundOn(FormatStartCodec(), Any())
  {
    U32Lawful();
    FourLawful(U32(), U32(), U32(), U32(), Any());
  }

  function FormatRestCodec(): Codec<FormatRest> {
    Two(U32(), TernaryCodec(), Any())
  }

  lemma FormatRestLawful()
    ensures SoundOn(FormatRestCodec(), Any())
  {
    U32Lawful();
    TernaryLawful();
    TwoLawful(U32(), TernaryCodec(), Any());
  }

  function AudioFormatTuples(): Codec<(FormatStart, FormatRest)> {
    Two(FormatStartCodec(), FormatRestCodec(), Any())
  }

  function AudioFormatCodec(): Codec<AudioFormat> {
    Record(AudioFormatTuples(), AudioFormatToTuple, AudioFormatFromTuple, Any())
  }

  lemma AudioFormatLawful()
    ensures SoundOn(AudioFormatCodec(), Any())
  {
    FormatStartLawful();
    FormatRestLawful();
    TwoLawful(FormatStartCodec(), FormatRestCodec(), Any());
    RecordLawful(AudioFormatTuples(), AudioFormatToTuple, AudioFormatFromTuple, Any());
  }

  type DeviceStart = (Text, (Text, (State, Ternary)))

  type DeviceMiddle = (seq<AudioFormat>, (bool, bool))

  type ChannelCounts = (u32, u32)

  function CountsFit(version: nat): ChannelCounts -> bool {
    Since(version >= 13, (0, 0))
  }

  type DeviceTuple = (DeviceStart, (DeviceMiddle, ChannelCounts))

  function DeviceFits(version: nat): DeviceTuple -> bool {
    (t: DeviceTuple) => CountsFit(version)(t.1.1)
  }

  function DeviceOk(version: nat): Device -> bool {
    (d: Device) => CountsFit(version)((d.inputChannels, d.outputChannels))
  }

  function AudioDeviceToTuple(d: Device): DeviceTuple {
    ((d.id, (d.name, (d.backend, d.direction))), ((d.formats, (d.isDefault, d.isVirtual)), (d.inputChannels, d.outputChannels)))
  }

  function AudioDeviceFromTuple(t: DeviceTuple): Device {
    Device(t.0.0, t.0.1.0, t.0.1.1.0, t.0.1.1.1, t.1.0.0, t.1.0.1.0, t.1.0.1.1, t.1.1.0, t.1.1.1)
  }

  function DeviceStartCodec(): Codec<DeviceStart> {
    Four(String(), String(), StateCodec(), TernaryCodec(), Any())
  }

  lemma DeviceStartLawful()
    ensures SoundOn(DeviceStartCodec(), Any())
  {
    StringLawful();
    StateLawful();
    TernaryLawful();
    FourLawful(String(), String(), StateCodec(), TernaryCodec(), Any());
  }

  function FormatsCodec(): Codec<seq<AudioFormat>> {
    AnyList(AudioFormatCodec())
  }

  lemma FormatsLawful()
    ensures SoundOn(FormatsCodec(), Any())
  {
    AudioFormatLawful();
    AnyListLawful(AudioFormatCodec());
  }

  function DeviceMiddleCodec(): Codec<DeviceMiddle> {
    Three(FormatsCodec(), Boolean(), Boolean(), Any())
  }

  lemma DeviceMiddleLawful()
    ensures SoundOn(DeviceMiddleCodec(), Any())
  {
    FormatsLawful();
    BooleanLawful();
    ThreeLawful(FormatsCodec(), Boolean(), Boolean(), Any());
  }

  function PairOfCounts(): Codec<ChannelCounts> {
    Two(U32(), U32(), Any())
  }

  lemma PairOfCountsLawful()
    ensures SoundOn(PairOfCounts(), Any())
  {
    U32Lawful();
    TwoLawful(U32(), U32(), Any());
  }

  function CountsCodec(version: nat): Codec<ChannelCounts> {
    Field(version >= 13, PairOfCounts(), (0, 0), CountsFit(version))
  }

  lemma CountsLawful(version: nat)
    ensures LawfulOn(CountsCodec(version), CountsFit(version))
  {
    PairOfCountsLawful();
    FieldLawful(version >= 13, PairOfCounts(), (0, 0), CountsFit(version));
  }

  function AudioDeviceTuples(version: nat): Codec<DeviceTuple> {
    Three(DeviceStartCodec(), DeviceMiddleCodec(), CountsCodec(version), DeviceFits(version))
  }

  function AudioDeviceCodec(version: nat): Codec<Device> {
    Record(AudioDeviceTuples(version), AudioDeviceToTuple, AudioDeviceFromTuple, DeviceOk(version))
  }

  lemma AudioDeviceLawful(version: nat)
    ensures SoundOn(AudioDeviceCodec(version), DeviceOk(version))
  {
    DeviceStartLawful();
    DeviceMiddleLawful();
    CountsLawful(version);
    ThreeLawful(DeviceStartCodec(), DeviceMiddleCodec(), CountsCodec(version), DeviceFits(version));
    RecordLawful(AudioDeviceTuples(version), AudioDeviceToTuple, AudioDeviceFromTuple, DeviceOk(version));
  }

  function AllDevicesOk(version: nat): seq<Device> -> bool {
    (ds: seq<Device>) => forall k :: 0 <= k < |ds| ==> DeviceOk(version)(ds[k])
  }

  function DeviceListCodec(version: nat): Codec<seq<Device>> {
    ListOf(AudioDeviceCodec(version), Any(), AllDevicesOk(version))
  }

  lemma DeviceListLawful(version: nat)
    ensures SoundOn(DeviceListCodec(version), AllDevicesOk(version))
  {
    AudioDeviceLawful(version);
    ListOfLawful(AudioDeviceCodec(version), Any(), AllDevicesOk(version));
  }

  // The active graph and the audio runtime.

  function ErrorTextToTuple(e: ErrorText): (Text, Text) {
    (e.code, e.message)
  }

  function ErrorTextFromTuple(t: (Text, Text)): ErrorText {
    ErrorText(t.0, t.1)
  }

  function ErrorTextTuples(): Codec<(Text, Text)> {
    Two(String(), String(), Any())
  }

  function ErrorTextCodec(): Codec<ErrorText> {
    Record(ErrorTextTuples(), ErrorTextToTuple, ErrorTextFromTuple, Any())
  }

  lemma ErrorTextLawful()
    ensures SoundOn(ErrorTextCodec(), Any())
  {
    StringLawful();
    TwoLawful(String(), String(), Any());
    RecordLawful(ErrorTextTuples(), ErrorTextToTuple, ErrorTextFromTuple, Any());
  }

  function ErrorsCodec(): Codec<seq<ErrorText>> {
    AnyList(ErrorTextCodec())
  }

  lemma ErrorsLawful()
    ensures SoundOn(ErrorsCodec(), Any())
  {
    ErrorTextLawful();
    AnyListLawful(ErrorTextCodec());
  }

  type GraphStart = (u64, (u32, (u64, u64)))

  function GraphToTuple(g: GraphSummary): (GraphStart, seq<ErrorText>) {
    ((g.version, (g.sampleRate, (g.channels, g.frames))), g.nodes)
  }

  function GraphFromTuple(t: (GraphStart, seq<ErrorText>)): GraphSummary {
    GraphSummary(t.0.0, t.0.1.0, t.0.1.1.0, t.0.1.1.1, t.1)
  }

  function GraphStartCodec(): Codec<GraphStart> {
    Four(U64(), U32(), U64(), U64(), Any())
  }

  lemma GraphStartLawful()
    ensures SoundOn(GraphStartCodec(), Any())
  {
    U64Lawful();
    U32Lawful();
    FourLawful(U64(), U32(), U64(), U64(), Any());
  }

  function GraphTuples(): Codec<(GraphStart, seq<ErrorText>)> {
    Two(GraphStartCodec(), ErrorsCodec(), Any())
  }

  function GraphCodec(): Codec<GraphSummary> {
    Record(GraphTuples(), GraphToTuple, GraphFromTuple, Any())
  }

  lemma GraphLawful()
    ensures SoundOn(GraphCodec(), Any())
  {
    GraphStartLawful();
    ErrorsLawful();
    TwoLawful(GraphStartCodec(), ErrorsCodec(), Any());
    RecordLawful(GraphTuples(), GraphToTuple, GraphFromTuple, Any());
  }

  function NoGraph(): GraphSummary {
    GraphSummary(0, 0, 0, 0, [])
  }

  type RuntimeFlags = (bool, (bool, (u64, bool)))

  type RuntimeTuple = (RuntimeFlags, (Runtime, Driver))

  function RuntimeTupleFits(version: nat): RuntimeTuple -> bool {
    (t: RuntimeTuple) => RuntimeFits(version)(t.1.0) && Since(version >= 12, NoDriver())(t.1.1)
  }

  function RuntimeFlagsCodec(): Codec<RuntimeFlags> {
    Four(Boolean(), Boolean(), U64(), Boolean(), Any())
  }

  lemma RuntimeFlagsLawful()
    ensures SoundOn(RuntimeFlagsCodec(), Any())
  {
    BooleanLawful();
    U64Lawful();
    FourLawful(Boolean(), Boolean(), U64(), Boolean(), Any());
  }

  function RuntimeStateCodec(version: nat): Codec<RuntimeTuple> {
    Three(RuntimeFlagsCodec(), RuntimeCodec(version), DriverCodec(version), RuntimeTupleFits(version))
  }

  lemma RuntimeStateLawful(version: nat)
    ensures SoundOn(RuntimeStateCodec(version), RuntimeTupleFits(version))
  {
    RuntimeFlagsLawful();
    RuntimeLawful(version);
    DriverLawful(version);
    ThreeLawful(RuntimeFlagsCodec(), RuntimeCodec(version), DriverCodec(version), RuntimeTupleFits(version));
  }

  function NoRuntime(): RuntimeTuple {
    ((false, (false, (0, false))), ((AudioRuntime.NoRuntime, ([], ([], []))), NoDriver()))
  }

  function RuntimeToTuple(s: RuntimeState): RuntimeTuple {
    ((s.installed, (s.running, (s.graphVersion, s.configured))), (RuntimeOf(s.configuration), DriverOf(s.configuration)))
  }

  function RuntimeFromTuple(t: RuntimeTuple, xs: seq<Extension>): RuntimeState {
    RuntimeState(t.0.0, t.0.1.0, t.0.1.1.0, t.0.1.1.1, ConfigurationOf(t.1.0, t.1.1, xs))
  }

  // Responses.

  type Start = (Text, (Binary, seq<ErrorText>))

  type Documents = (Start, ((bool, Preset.Document), ((bool, Report), (bool, seq<Device>))))

  type Versions = (u64, (bool, (bool, GraphSummary)))

  type Runtimes = (Versions, ((bool, RuntimeTuple), (bool, Devices)))

  type ResponseBody = (Documents, Runtimes)

  function NoPreset(): Preset.Document {
    Preset.Document(1, 48000, 128, [], [], [], [])
  }

  function StartCodec(): Codec<Start> {
    Three(String(), BinaryCodec(), ErrorsCodec(), Any())
  }

  lemma StartLawful()
    ensures SoundOn(StartCodec(), Any())
  {
    StringLawful();
    BinaryLawful();
    ErrorsLawful();
    ThreeLawful(String(), BinaryCodec(), ErrorsCodec(), Any());
  }

  function PresetFlag(): Codec<(bool, Preset.Document)> {
    Flagged(PresetCodec(), FinitePreset, NoPreset())
  }

  function ReportFlag(version: nat): Codec<(bool, Report)> {
    Flagged(ReportCodec(version), ReportFits(version), NoReport())
  }

  function DevicesFlag(version: nat): Codec<(bool, seq<Device>)> {
    Flagged(DeviceListCodec(version), AllDevicesOk(version), [])
  }

  function GraphFlag(): Codec<(bool, GraphSummary)> {
    Flagged(GraphCodec(), Any(), NoGraph())
  }

  function RuntimeFlag(version: nat): Codec<(bool, RuntimeTuple)> {
    Flagged(RuntimeStateCodec(version), RuntimeTupleFits(version), NoRuntime())
  }

  function VirtualDevices(): Codec<(bool, Devices)> {
    Flagged(AnyList(DeviceCodec()), Any(), [])
  }

  function VirtualFits(version: nat): ((bool, Devices)) -> bool {
    (t: (bool, Devices)) => if version >= 11 then FlagFits(Any(), [])(t) else t == (false, [])
  }

  function VirtualFlag(version: nat): Codec<(bool, Devices)> {
    Field(version >= 11, VirtualDevices(), (false, []), VirtualFits(version))
  }

  function DocumentsFit(version: nat): Documents -> bool {
    (t: Documents) => && FlagFits(FinitePreset, NoPreset())(t.1.0) && FlagFits(ReportFits(version), NoReport())(t.1.1.0)
                      && FlagFits(AllDevicesOk(version), [])(t.1.1.1)
  }

  function DocumentsCodec(version: nat): Codec<Documents> {
    Four(StartCodec(), PresetFlag(), ReportFlag(version), DevicesFlag(version), DocumentsFit(version))
  }

  lemma DocumentsLawful(version: nat)
    ensures SoundOn(DocumentsCodec(version), DocumentsFit(version))
  {
    StartLawful();
    PresetLawful();
    FlaggedLawful(PresetCodec(), FinitePreset, NoPreset());
    ReportLawful(version);
    FlaggedLawful(ReportCodec(version), ReportFits(version), NoReport());
    DeviceListLawful(version);
    FlaggedLawful(DeviceListCodec(version), AllDevicesOk(version), []);
    FourLawful(StartCodec(), PresetFlag(), ReportFlag(version), DevicesFlag(version), DocumentsFit(version));
  }

  function VersionsFit(): Versions -> bool {
    (t: Versions) => FlagFits(Any(), NoGraph())(t.1.1)
  }

  function VersionsCodec(): Codec<Versions> {
    Three(U64(), Boolean(), GraphFlag(), VersionsFit())
  }

  lemma VersionsLawful()
    ensures SoundOn(VersionsCodec(), VersionsFit())
  {
    U64Lawful();
    BooleanLawful();
    GraphLawful();
    FlaggedLawful(GraphCodec(), Any(), NoGraph());
    ThreeLawful(U64(), Boolean(), GraphFlag(), VersionsFit());
  }

  function RuntimesFit(version: nat): Runtimes -> bool {
    (t: Runtimes) => VersionsFit()(t.0) && FlagFits(RuntimeTupleFits(version), NoRuntime())(t.1.0) && VirtualFits(version)(t.1.1)
  }

  function RuntimesCodec(version: nat): Codec<Runtimes> {
    Three(VersionsCodec(), RuntimeFlag(version), VirtualFlag(version), RuntimesFit(version))
  }

  lemma VirtualLawful(version: nat)
    ensures LawfulOn(VirtualFlag(version), VirtualFits(version))
  {
    DeviceLawful();
    AnyListLawful(DeviceCodec());
    FlaggedLawful(AnyList(DeviceCodec()), Any(), []);
    FieldLawful(version >= 11, VirtualDevices(), (false, []), VirtualFits(version));
  }

  lemma RuntimesLawful(version: nat)
    ensures SoundOn(RuntimesCodec(version), RuntimesFit(version))
  {
    VersionsLawful();
    RuntimeStateLawful(version);
    FlaggedLawful(RuntimeStateCodec(version), RuntimeTupleFits(version), NoRuntime());
    VirtualLawful(version);
    ThreeLawful(VersionsCodec(), RuntimeFlag(version), VirtualFlag(version), RuntimesFit(version));
  }

  function ResponseBodyFits(version: nat): ResponseBody -> bool {
    (t: ResponseBody) => DocumentsFit(version)(t.0) && RuntimesFit(version)(t.1)
  }

  function ResponseBodyCodec(version: nat): Codec<ResponseBody> {
    Two(DocumentsCodec(version), RuntimesCodec(version), ResponseBodyFits(version))
  }

  lemma ResponseBodyLawful(version: nat)
    ensures SoundOn(ResponseBodyCodec(version), ResponseBodyFits(version))
  {
    hide DocumentsCodec, RuntimesCodec, DocumentsFit, RuntimesFit;
    DocumentsLawful(version);
    RuntimesLawful(version);
    TwoLawful(DocumentsCodec(version), RuntimesCodec(version), ResponseBodyFits(version));
  }

  /** The endpoints that the extension list at the end of the message belongs to. */
  function EndpointsOf(b: ResponseBody): seq<Base> {
    b.1.1.0.1.1.0.1.1.1
  }

  function ExtensionsBehind(version: nat): ResponseBody -> Codec<seq<Extension>> {
    (b: ResponseBody) => ExtensionsCodec(version, |EndpointsOf(b)|)
  }

  type ResponseTuple = (ResponseBody, seq<Extension>)

  function ResponseFits(version: nat): ResponseTuple -> bool {
    (t: ResponseTuple) => ResponseBodyFits(version)(t.0) && ExtensionsFit(version, |EndpointsOf(t.0)|)(t.1)
  }

  function TuplesOver(body: Codec<ResponseBody>, version: nat): Codec<ResponseTuple> {
    Depends(body, ExtensionsBehind(version), ResponseFits(version))
  }

  function ResponseTuples(version: nat): Codec<ResponseTuple> {
    TuplesOver(ResponseBodyCodec(version), version)
  }

  lemma TuplesOverLawful(body: Codec<ResponseBody>, version: nat)
    requires SoundOn(body, ResponseBodyFits(version))
    ensures SoundOn(TuplesOver(body, version), ResponseFits(version))
  {
    forall b: ResponseBody ensures LawfulOn(ExtensionsBehind(version)(b), ExtensionsFit(version, |EndpointsOf(b)|)) {
      ExtensionsLawful(version, |EndpointsOf(b)|);
    }
    DependsLawful(body, ExtensionsBehind(version), ResponseFits(version));
  }

  lemma ResponseTuplesLawful(version: nat)
    ensures SoundOn(ResponseTuples(version), ResponseFits(version))
  {
    hide ResponseBodyCodec, TuplesOver, ResponseFits;
    ResponseBodyLawful(version);
    TuplesOverLawful(ResponseBodyCodec(version), version);
  }

  // From responses to tuples and back.

  function DocumentsOf(r: Response): Documents {
    ((r.commandId, (r.status, r.errors)),
     ((r.hasPreset, r.preset),
      ((r.hasDiagnostics, (r.diagnostics, ((r.hasRecovery, r.recovery), r.endpointDiagnostics))), (r.hasDevices, r.devices))))
  }

  function RuntimesOf(r: Response): Runtimes {
    ((r.nextGraphVersion, (r.hasSessionState, (r.hasActiveGraph, r.activeGraph))),
     ((r.hasRuntimeState, RuntimeToTuple(r.runtime)), (r.hasVirtualDevices, r.virtualDevices)))
  }

  function ResponseToTuple(r: Response): ResponseTuple {
    ((DocumentsOf(r), RuntimesOf(r)), Extensions(r.runtime.configuration.endpoints))
  }

  function ResponseFrom(d: Documents, v: Runtimes, xs: seq<Extension>): Response {
    var report := d.1.1.0;
    Response(d.0.0, d.0.1.0, d.0.1.1, d.1.0.0, d.1.0.1,
             report.0, report.1.0, report.1.1.0.0, report.1.1.0.1, report.1.1.1,
             d.1.1.1.0, d.1.1.1.1, v.0.0, v.0.1.0, v.0.1.1.0, v.0.1.1.1,
             v.1.0.0, RuntimeFromTuple(v.1.0.1, xs), v.1.1.0, v.1.1.1)
  }

  function ResponseFromTuple(t: ResponseTuple): Response {
    ResponseFrom(t.0.0, t.0.1, t.1)
  }

  lemma ResponseMatches(r: Response)
    ensures ResponseFromTuple(ResponseToTuple(r)) == r
  {
    JoinedApart(r.runtime.configuration.endpoints);
  }

  /** The response with everything behind a false flag reset to its default. */
  function Normalized(r: Response): Response {
    r.(preset := if r.hasPreset then r.preset else NoPreset(),
       diagnostics := if r.hasDiagnostics then r.diagnostics else NoDiagnostics(),
       hasRecovery := r.hasDiagnostics && r.hasRecovery,
       recovery := if r.hasDiagnostics && r.hasRecovery then r.recovery else NoRecovery(),
       endpointDiagnostics := if r.hasDiagnostics then r.endpointDiagnostics else [],
       devices := if r.hasDevices then r.devices else [],
       activeGraph := if r.hasActiveGraph then r.activeGraph else NoGraph(),
       runtime := if r.hasRuntimeState then r.runtime else RuntimeFromTuple(NoRuntime(), []),
       virtualDevices := if r.hasVirtualDevices then r.virtualDevices else [])
  }

  /** Every float that is written is finite. */
  predicate FiniteResponse(r: Response) {
    && (r.hasPreset ==> FinitePreset(r.preset))
    && (r.hasDiagnostics ==> FiniteDiagnostics(r.diagnostics) && AllFiniteEndpoints(r.endpointDiagnostics))
  }

  function EncodeResponse(r: Response): Output {
    EncodeMessage(RESPONSE, ResponseTuples(VERSION), ResponseToTuple(r))
  }

  function DecodeResponse(input: seq<u8>): Input<Response> {
    match DecodeMessage(RESPONSE, ResponseTuples, input)
    case Malformed(e, o) => Malformed(e, o)
    case Done(t, o) => Done(ResponseFromTuple(t), o)
  }

  // What stands behind a false flag is not written.

  lemma SameTwo<A, B>(a: Codec<A>, b: Codec<B>, ok: ((A, B)) -> bool, t: (A, B), u: (A, B))
    requires a.enc(t.0) == a.enc(u.0) && b.enc(t.1) == b.enc(u.1)
    ensures Two(a, b, ok).enc(t) == Two(a, b, ok).enc(u)
  {
  }

  lemma SameThree<A, B, C>(a: Codec<A>, b: Codec<B>, c: Codec<C>, ok: ((A, (B, C))) -> bool, t: (A, (B, C)), u: (A, (B, C)))
    requires a.enc(t.0) == a.enc(u.0) && b.enc(t.1.0) == b.enc(u.1.0) && c.enc(t.1.1) == c.enc(u.1.1)
    ensures Three(a, b, c, ok).enc(t) == Three(a, b, c, ok).enc(u)
  {
    SameTwo(b, c, BothOk(b, c), t.1, u.1);
    SameTwo(a, Two(b, c, BothOk(b, c)), ok, t, u);
  }

  lemma SameFour<A, B, C, D>(
    a: Codec<A>, b: Codec<B>, c: Codec<C>, d: Codec<D>, ok: ((A, (B, (C, D)))) -> bool,
    t: (A, (B, (C, D))), u: (A, (B, (C, D))))
    requires a.enc(t.0) == a.enc(u.0) && b.enc(t.1.0) == b.enc(u.1.0)
    requires c.enc(t.1.1.0) == c.enc(u.1.1.0) && d.enc(t.1.1.1) == d.enc(u.1.1.1)
    ensures Four(a, b, c, d, ok).enc(t) == Four(a, b, c, d, ok).enc(u)
  {
    SameThree(b, c, d, AllThreeOk(b, c, d), t.1, u.1);
    SameTwo(a, Three(b, c, d, AllThreeOk(b, c, d)), ok, t, u);
  }

  lemma SameFlagged<T>(c: Codec<T>, ok: T -> bool, default: T, flag: bool, t: T, u: T)
    requires flag ==> c.enc(t) == c.enc(u)
    ensures Flagged(c, ok, default).enc((flag, t)) == Flagged(c, ok, default).enc((flag, u))
  {
  }

  lemma SameReport(r: Response)
    requires r.hasDiagnostics
    ensures ReportCodec(VERSION).enc(DocumentsOf(r).1.1.0.1) == ReportCodec(VERSION).enc(DocumentsOf(Normalized(r)).1.1.0.1)
  {
    var t, u := DocumentsOf(r).1.1.0.1, DocumentsOf(Normalized(r)).1.1.0.1;
    SameFlagged(RecoveryCodec(), Any(), NoRecovery(), r.hasRecovery, r.recovery, Normalized(r).recovery);
    SameThree(DiagnosticsCodec(), Flagged(RecoveryCodec(), Any(), NoRecovery()), EndpointFieldCodec(VERSION), ReportFits(VERSION), t, u);
  }

  lemma SameFlags(r: Response)
    ensures var t, u := DocumentsOf(r).1, DocumentsOf(Normalized(r)).1;
            && PresetFlag().enc(t.0) == PresetFlag().enc(u.0)
            && DevicesFlag(VERSION).enc(t.1.1) == DevicesFlag(VERSION).enc(u.1.1)
  {
    SameFlagged(PresetCodec(), FinitePreset, NoPreset(), r.hasPreset, r.preset, Normalized(r).preset);
    SameFlagged(DeviceListCodec(VERSION), AllDevicesOk(VERSION), [], r.hasDevices, r.devices, Normalized(r).devices);
  }

  lemma SameReportFlag(r: Response)
    ensures ReportFlag(VERSION).enc(DocumentsOf(r).1.1.0) == ReportFlag(VERSION).enc(DocumentsOf(Normalized(r)).1.1.0)
  {
    var t, u := DocumentsOf(r).1.1.0, DocumentsOf(Normalized(r)).1.1.0;
    if r.hasDiagnostics {
      SameReport(r);
    }
    SameFlagged(ReportCodec(VERSION), ReportFits(VERSION), NoReport(), r.hasDiagnostics, t.1, u.1);
  }

  lemma SameDocuments(r: Response)
    ensures DocumentsCodec(VERSION).enc(DocumentsOf(r)) == DocumentsCodec(VERSION).enc(DocumentsOf(Normalized(r)))
  {
    SameFlags(r);
    SameReportFlag(r);
    SameFour(StartCodec(), PresetFlag(), ReportFlag(VERSION), DevicesFlag(VERSION), DocumentsFit(VERSION),
             DocumentsOf(r), DocumentsOf(Normalized(r)));
  }

  lemma SameRuntimes(r: Response)
    ensures RuntimesCodec(VERSION).enc(RuntimesOf(r)) == RuntimesCodec(VERSION).enc(RuntimesOf(Normalized(r)))
  {
    var t, u := RuntimesOf(r), RuntimesOf(Normalized(r));
    SameFlagged(GraphCodec(), Any(), NoGraph(), r.hasActiveGraph, t.0.1.1.1, u.0.1.1.1);
    SameThree(U64(), Boolean(), GraphFlag(), VersionsFit(), t.0, u.0);
    SameFlagged(RuntimeStateCodec(VERSION), RuntimeTupleFits(VERSION), NoRuntime(), r.hasRuntimeState, t.1.0.1, u.1.0.1);
    SameFlagged(AnyList(DeviceCodec()), Any(), [], r.hasVirtualDevices, t.1.1.1, u.1.1.1);
    SameThree(VersionsCodec(), RuntimeFlag(VERSION), VirtualFlag(VERSION), RuntimesFit(VERSION), t, u);
  }

  lemma SameBody(r: Response)
    ensures var b := ResponseBodyCodec(VERSION); b.enc(ResponseToTuple(r).0) == b.enc(ResponseToTuple(Normalized(r)).0)
  {
    hide DocumentsCodec, RuntimesCodec, Normalized;
    SameDocuments(r);
    SameRuntimes(r);
    SameTwo(DocumentsCodec(VERSION), RuntimesCodec(VERSION), ResponseBodyFits(VERSION),
            ResponseToTuple(r).0, ResponseToTuple(Normalized(r)).0);
  }

  // The laws of the response encoding.

  lemma NormalDocumentsFit(r: Response)
    requires FiniteResponse(r)
    ensures DocumentsFit(VERSION)(DocumentsOf(Normalized(r)))
  {
    var t := DocumentsOf(Normalized(r));
    assert FlagFits(FinitePreset, NoPreset())(t.1.0);
    if r.hasDiagnostics {
      assert FlagFits(Any(), NoRecovery())(t.1.1.0.1.1.0);
      assert EndpointsOk(VERSION)(t.1.1.0.1.1.1);
      assert ReportFits(VERSION)(t.1.1.0.1);
    }
    assert FlagFits(ReportFits(VERSION), NoReport())(t.1.1.0);
    DevicesFit(t.1.1.1.1);
    assert FlagFits(AllDevicesOk(VERSION), [])(t.1.1.1);
  }

  lemma DevicesFit(ds: seq<Device>)
    ensures AllDevicesOk(VERSION)(ds)
  {
    forall k | 0 <= k < |ds| ensures DeviceOk(VERSION)(ds[k]) {
      assert CountsFit(VERSION)((ds[k].inputChannels, ds[k].outputChannels));
    }
  }

  lemma NormalRuntimesFit(r: Response)
    ensures RuntimesFit(VERSION)(RuntimesOf(Normalized(r)))
  {
    var t := RuntimesOf(Normalized(r));
    assert FlagFits(Any(), NoGraph())(t.0.1.1);
    var runtime: Runtime := t.1.0.1.1.0;
    var bases: seq<Base> := runtime.1.1.1;
    assert ModeUpTo(VERSION)(runtime.0);
    assert Since(VERSION >= 9, [])(bases);
    assert RuntimeFits(VERSION)(runtime);
    assert Since(VERSION >= 12, NoDriver())(t.1.0.1.1.1);
    assert RuntimeTupleFits(VERSION)(t.1.0.1);
    assert FlagFits(RuntimeTupleFits(VERSION), NoRuntime())(t.1.0);
    var devices: (bool, Devices) := t.1.1;
    assert FlagFits(Any(), [])(devices);
    assert VirtualFits(VERSION)(devices);
  }

  /** The extension list matches the endpoints that the decoder has seen. */
  predicate ExtensionsMatch(r: Response) {
    r.hasRuntimeState || r.runtime.configuration.endpoints == []
  }

  lemma NormalBody(r: Response)
    requires FiniteResponse(r)
    ensures ResponseBodyFits(VERSION)(ResponseToTuple(Normalized(r)).0)
    ensures |EndpointsOf(ResponseToTuple(Normalized(r)).0)| == if r.hasRuntimeState then |r.runtime.configuration.endpoints| else 0
  {
    NormalDocumentsFit(r);
    NormalRuntimesFit(r);
  }

  lemma NormalFits(r: Response)
    requires FiniteResponse(r)
    ensures ResponseFits(VERSION)(ResponseToTuple(Normalized(r)))
  {
    NormalBody(r);
    var t := ResponseToTuple(Normalized(r));
    assert |t.1| == |EndpointsOf(t.0)|;
  }

  lemma SameTuples(body: Codec<ResponseBody>, t: ResponseTuple, u: ResponseTuple)
    requires body.enc(t.0) == body.enc(u.0) && t.1 == u.1
    ensures TuplesOver(body, VERSION).enc(t) == TuplesOver(body, VERSION).enc(u)
  {
  }

  lemma SameResponse(r: Response)
    requires ExtensionsMatch(r)
    ensures var c := ResponseTuples(VERSION); c.enc(ResponseToTuple(r)) == c.enc(ResponseToTuple(Normalized(r)))
  {
    SameBody(r);
    SameExtensions(r);
    SameTuples(ResponseBodyCodec(VERSION), ResponseToTuple(r), ResponseToTuple(Normalized(r)));
  }

  lemma SameExtensions(r: Response)
    requires ExtensionsMatch(r)
    ensures ResponseToTuple(r).1 == ResponseToTuple(Normalized(r)).1
  {
  }

  lemma EncodedAsNormal(r: Response)
    requires ExtensionsMatch(r)
    ensures EncodeResponse(r) == EncodeMessage(RESPONSE, ResponseTuples(VERSION), ResponseToTuple(Normalized(r)))
  {
    SameResponse(r);
    SameEncoding(RESPONSE, ResponseTuples(VERSION), ResponseToTuple(r), ResponseToTuple(Normalized(r)));
  }

  /** Decoding an encoded response returns it with every field behind a false flag reset, if the extension
      list at its end matches. */
  lemma ResponsesRoundTrip(r: Response, bytes: seq<u8>)
    requires FiniteResponse(r) && ExtensionsMatch(r) && EncodeResponse(r) == Bytes(bytes)
    ensures DecodeResponse(bytes) == Done(Normalized(r), |bytes|)
  {
    hide ResponseTuples, ResponseFits, ResponseToTuple, Normalized, FiniteResponse;
    EncodedAsNormal(r);
    NormalFits(r);
    ResponseTuplesLawful(VERSION);
    MessageRoundTrips(RESPONSE, ResponseTuples, ResponseFits(VERSION), ResponseToTuple(Normalized(r)), bytes);
    ResponseMatches(Normalized(r));
  }

  lemma RefusedResponse(bytes: seq<u8>, code: Code)
    requires Refuses(DecodeMessage(RESPONSE, ResponseTuples, bytes), code)
    ensures Refuses(DecodeResponse(bytes), code)
  {
    hide ResponseTuples;
  }

  /** A list of the wrong length is refused after its count. */
  lemma RefusedList(xs: seq<Extension>, tail: seq<u8>, bytes: seq<u8>, offset: nat)
    requires xs != [] && ExtensionsCodec(VERSION, 0).enc(xs) == Bytes(tail) && At(bytes, offset, tail)
    ensures Refuses(ExtensionsCodec(VERSION, 0).dec(bytes, offset), InvalidValue)
  {
    ExtensionLawful();
    var count, rest := EncodeCount(|xs|), EncodeAll(ExtensionCodec(), xs);
    assert Then(count, rest) == Bytes(tail);
    Prefix(bytes, offset, count.bytes, rest.bytes);
    ElementsTakeBytes(ExtensionCodec(), xs);
    CountRoundTrips(|xs|, bytes, offset, COUNT_BYTES);
    assert DecodeList(ExtensionCodec(), Exactly(0), bytes, offset) == Malformed(InvalidValue, offset + COUNT_BYTES);
  }
}
