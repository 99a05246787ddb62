/** Audio runtime configurations and validate_audio_runtime_configuration(). Values outside an
    enumeration cannot occur here. */
module AudioRuntime {
  import opened Basics
  import Preset

  const MAX_ENDPOINTS: nat := 32
  const MAX_ASIO_CHANNELS: nat := 256

  datatype Mode = NoRuntime | WasapiRender | WasapiDuplex | WasapiMatrix | PhysicalAsio

  datatype Direction = Capture | Render

  datatype Backend = Wasapi | Asio

  datatype Endpoint = Endpoint(
    id: Text,
    device: Text,
    direction: Direction,
    clockMaster: bool,
    firstChannel: u32,
    channelCount: u32,
    backend: Backend,
    group: Text,
    sampleRate: u32,
    blockFrames: u32)

  datatype Configuration = Configuration(
    mode: Mode,
    captureDevice: Text,
    renderDevice: Text,
    endpoints: seq<Endpoint>,
    clsid: Text,
    asioSampleRate: u32,
    asioBlockFrames: u32,
    asioInputs: seq<u32>,
    asioOutputs: seq<u32>)

  datatype Error =
    | UnexpectedWasapiConfiguration | EmptyClsid | ClsidTooLong | InvalidAsioSampleRate | InvalidAsioBlockFrames
    | TooManyAsioChannels | AsioChannelOutOfRange | DuplicateAsioInput | DuplicateAsioOutput
    | MissingMode | UnexpectedEndpoint | UnexpectedAsioConfiguration
    | UnexpectedCaptureDevice | UnexpectedMatrixEndpoints | IncompleteDuplexDevices | UnexpectedLegacyDevice
    | EmptyMatrix | TooManyEndpoints
    | EmptyEndpointId | DuplicateEndpointId
    | EmptyGroup | InvalidEndpointSampleRate | InvalidEndpointBlockFrames | UnexpectedWasapiTiming
    | DuplicateDevice | CaptureClockMaster | EmptyChannelRange | InvalidChannelRange
    | MissingRenderEndpoint | InvalidClockMasterCount | MultipleAsioGroups
    | AsioRenderNotClockMaster | IncompleteAsioGroup | MismatchedAsioGroup

  function When(condition: bool, error: Error): seq<Error> {
    if condition then [error] else []
  }

  predicate HasAsioFields(c: Configuration) {
    c.clsid != [] || c.asioSampleRate != 0 || c.asioBlockFrames != 0 || c.asioInputs != [] || c.asioOutputs != []
  }

  predicate AsioTiming(sampleRate: u32, blockFrames: u32) {
    8000 <= sampleRate <= 768000 && 0 < blockFrames <= 65536
  }

  function ChannelErrors(channels: seq<u32>, duplicate: Error, n: nat): seq<Error>
    requires n <= |channels|
  {
    if n == 0 then [] else
      var channel := channels[n - 1];
      ChannelErrors(channels, duplicate, n - 1)
      + if channel >= MAX_ASIO_CHANNELS then [AsioChannelOutOfRange] else When(channel in channels[..n - 1], duplicate)
  }

  function AsioErrors(c: Configuration): seq<Error> {
    When(c.captureDevice != [] || c.renderDevice != [] || c.endpoints != [], UnexpectedWasapiConfiguration)
    + When(c.clsid == [], EmptyClsid) + When(|c.clsid| > 128, ClsidTooLong)
    + When(c.asioSampleRate < 8000 || c.asioSampleRate > 768000, InvalidAsioSampleRate)
    + When(c.asioBlockFrames == 0 || c.asioBlockFrames > 65536, InvalidAsioBlockFrames)
    + When(|c.asioInputs| > MAX_ASIO_CHANNELS || |c.asioOutputs| > MAX_ASIO_CHANNELS, TooManyAsioChannels)
    + ChannelErrors(c.asioInputs, DuplicateAsioInput, |c.asioInputs|)
    + ChannelErrors(c.asioOutputs, DuplicateAsioOutput, |c.asioOutputs|)
  }

  // The endpoints of a matrix runtime.

  function Ids(endpoints: seq<Endpoint>): (ids: seq<Text>)
    ensures |ids| == |endpoints| && forall k :: 0 <= k < |ids| ==> ids[k] == endpoints[k].id
  {
    seq(|endpoints|, k requires 0 <= k < |endpoints| => endpoints[k].id)
  }

  function NativeId(e: Endpoint): Text {
    if e.backend == Asio then e.group else e.device
  }

  /** Backend and direction, each ended by a newline, then the native id. */
  function NativeKey(e: Endpoint): Text {
    (if e.backend == Asio then Ascii("physical-asio\n") else Ascii("wasapi\n"))
    + (if e.direction == Render then Ascii("render\n") else Ascii("capture\n"))
    + NativeId(e)
  }

  function NativeKeys(endpoints: seq<Endpoint>): (keys: seq<Text>)
    ensures |keys| == |endpoints| && forall k :: 0 <= k < |keys| ==> keys[k] == NativeKey(endpoints[k])
  {
    seq(|endpoints|, k requires 0 <= k < |endpoints| => NativeKey(endpoints[k]))
  }

  function TimingErrors(e: Endpoint): seq<Error> {
    if e.backend == Asio then
      When(e.group == [], EmptyGroup)
      + When(e.sampleRate < 8000 || e.sampleRate > 768000, InvalidEndpointSampleRate)
      + When(e.blockFrames == 0 || e.blockFrames > 65536, InvalidEndpointBlockFrames)
    else When(e.group != [] || e.sampleRate != 0 || e.blockFrames != 0, UnexpectedWasapiTiming)
  }

  function RangeErrors(e: Endpoint): seq<Error> {
    When(e.clockMaster && e.direction != Render, CaptureClockMaster)
    + if e.channelCount == 0 then [EmptyChannelRange]
      else When(e.firstChannel > U32_MAX - e.channelCount, InvalidChannelRange)
  }

  function EndpointErrorsAt(endpoints: seq<Endpoint>, k: nat): seq<Error>
    requires k < |endpoints|
  {
    When(endpoints[k].id == [], EmptyEndpointId) + When(Preset.Repeats(Ids(endpoints), k), DuplicateEndpointId)
    + TimingErrors(endpoints[k])
    + When(Preset.Repeats(NativeKeys(endpoints), k), DuplicateDevice)
    + RangeErrors(endpoints[k])
  }

  /** Lists of errors, one after the other. */
  function Concat(parts: seq<seq<Error>>): seq<Error> {
    if parts == [] then [] else Concat(parts[..|parts| - 1]) + parts[|parts| - 1]
  }

  lemma ConcatNext(parts: seq<seq<Error>>, n: nat)
    requires n < |parts|
    ensures Concat(parts[..n + 1]) == Concat(parts[..n]) + parts[n]
  {
    assert parts[..n + 1][..n] == parts[..n];
  }

  lemma {:induction false} ConcatEmpty(parts: seq<seq<Error>>, k: nat)
    requires k < |parts| && Concat(parts) == []
    ensures parts[k] == []
  {
    var n := |parts| - 1;
    assert |Concat(parts)| == |Concat(parts[..n])| + |parts[n]|;
    if k < n {
      ConcatEmpty(parts[..n], k);
    }
  }

  function EndpointErrors(endpoints: seq<Endpoint>): (parts: seq<seq<Error>>)
    ensures |parts| == |endpoints| && forall k :: 0 <= k < |parts| ==> parts[k] == EndpointErrorsAt(endpoints, k)
  {
    seq(|endpoints|, k requires 0 <= k < |endpoints| => EndpointErrorsAt(endpoints, k))
  }

  function Renders(endpoints: seq<Endpoint>, n: nat): nat
    requires n <= |endpoints|
  {
    if n == 0 then 0 else Renders(endpoints, n - 1) + if endpoints[n - 1].direction == Render then 1 else 0
  }

  function Masters(endpoints: seq<Endpoint>, n: nat): nat
    requires n <= |endpoints|
  {
    if n == 0 then 0 else Masters(endpoints, n - 1) + if endpoints[n - 1].clockMaster then 1 else 0
  }

  /** The device groups of the ASIO endpoints. */
  function Groups(endpoints: seq<Endpoint>, n: nat): set<Text>
    requires n <= |endpoints|
  {
    if n == 0 then {} else
      Groups(endpoints, n - 1) + if endpoints[n - 1].backend == Asio then {endpoints[n - 1].group} else {}
  }

  predicate Counterpart(e: Endpoint, candidate: Endpoint) {
    candidate.backend == Asio && candidate.group == e.group && candidate.direction != e.direction
  }

  /** The first counterpart from position `k` on. */
  function FindCounterpart(endpoints: seq<Endpoint>, e: Endpoint, k: nat): (found: nat)
    requires k <= |endpoints|
    decreases |endpoints| - k
    ensures k <= found <= |endpoints|
    ensures found < |endpoints| ==> Counterpart(e, endpoints[found])
    ensures forall j :: k <= j < found ==> !Counterpart(e, endpoints[j])
  {
    if k == |endpoints| || Counterpart(e, endpoints[k]) then k else FindCounterpart(endpoints, e, k + 1)
  }

  predicate SameDriver(a: Endpoint, b: Endpoint) {
    a.device == b.device && a.sampleRate == b.sampleRate && a.blockFrames == b.blockFrames
  }

  function PairErrorsAt(endpoints: seq<Endpoint>, k: nat): seq<Error>
    requires k < |endpoints|
  {
    var e := endpoints[k];
    if e.backend != Asio then [] else
      When(e.direction == Render && !e.clockMaster, AsioRenderNotClockMaster)
      + var other := FindCounterpart(endpoints, e, 0);
        if other == |endpoints| then [IncompleteAsioGroup] else When(!SameDriver(endpoints[other], e), MismatchedAsioGroup)
  }

  function PairErrors(endpoints: seq<Endpoint>): (parts: seq<seq<Error>>)
    ensures |parts| == |endpoints| && forall k :: 0 <= k < |parts| ==> parts[k] == PairErrorsAt(endpoints, k)
  {
    seq(|endpoints|, k requires 0 <= k < |endpoints| => PairErrorsAt(endpoints, k))
  }

  function MatrixErrors(c: Configuration): seq<Error> {
    When(c.captureDevice != [] || c.renderDevice != [], UnexpectedLegacyDevice)
    + if c.endpoints == [] then [EmptyMatrix]
      else if |c.endpoints| > MAX_ENDPOINTS then [TooManyEndpoints]
      else ListErrors(c.endpoints)
  }

  function ListErrors(endpoints: seq<Endpoint>): seq<Error> {
    Concat(EndpointErrors(endpoints))
    + When(Renders(endpoints, |endpoints|) == 0, MissingRenderEndpoint)
    + When(Masters(endpoints, |endpoints|) != 1, InvalidClockMasterCount)
    + When(|Groups(endpoints, |endpoints|)| > 1, MultipleAsioGroups)
    + Concat(PairErrors(endpoints))
  }

  /** What validate_audio_runtime_configuration() reports. */
  function Errors(c: Configuration, allowNone: bool): seq<Error> {
    match c.mode
    case PhysicalAsio => AsioErrors(c)
    case NoRuntime =>
      When(!allowNone, MissingMode)
      + When(c.captureDevice != [] || c.renderDevice != [] || c.endpoints != [] || HasAsioFields(c), UnexpectedEndpoint)
    case WasapiRender =>
      When(HasAsioFields(c), UnexpectedAsioConfiguration)
      + When(c.captureDevice != [], UnexpectedCaptureDevice)
      + When(c.endpoints != [], UnexpectedMatrixEndpoints)
    case WasapiDuplex =>
      When(HasAsioFields(c), UnexpectedAsioConfiguration)
      + When((c.captureDevice == []) != (c.renderDevice == []), IncompleteDuplexDevices)
      + When(c.endpoints != [], UnexpectedMatrixEndpoints)
    case WasapiMatrix =>
      When(HasAsioFields(c), UnexpectedAsioConfiguration) + MatrixErrors(c)
  }

  // The loops of the validator.

  method CheckChannels(channels: seq<u32>, duplicate: Error) returns (errors: seq<Error>)
    ensures errors == ChannelErrors(channels, duplicate, |channels|)
  {
    errors := [];
    var unique: set<u32> := {};
    for k := 0 to |channels|
      invariant errors == ChannelErrors(channels, duplicate, k)
      invariant forall c: u32 :: c < MAX_ASIO_CHANNELS ==> (c in unique <==> c in channels[..k])
    {
      var channel := channels[k];
      assert channels[..k + 1] == channels[..k] + [channel];
      if channel >= MAX_ASIO_CHANNELS {
        errors := errors + [AsioChannelOutOfRange];
      } else {
        errors := errors + When(channel in unique, duplicate);
        unique := unique + {channel};
      }
    }
  }

  /** The first loop over the endpoints: each endpoint by itself and against those before it. */
  method CheckEndpoints(endpoints: seq<Endpoint>)
    returns (errors: seq<Error>, renders: nat, masters: nat, groups: set<Text>)
    ensures errors == Concat(EndpointErrors(endpoints))
    ensures renders == Renders(endpoints, |endpoints|) && masters == Masters(endpoints, |endpoints|)
    ensures groups == Groups(endpoints, |endpoints|)
  {
    hide EndpointErrorsAt, NativeKey;
    errors, renders, masters, groups := [], 0, 0, {};
    var ids: set<Text>, natives: set<Text> := {}, {};
    for k := 0 to |endpoints|
      invariant errors == Concat(EndpointErrors(endpoints)[..k])
      invariant ids == Preset.Seen(Ids(endpoints)[..k]) && natives == Preset.Seen(NativeKeys(endpoints)[..k])
      invariant renders == Renders(endpoints, k) && masters == Masters(endpoints, k) && groups == Groups(endpoints, k)
    {
      var e, found := endpoints[k], [];
      found, ids, natives := CheckEndpoint(endpoints, k, ids, natives);
      ConcatNext(EndpointErrors(endpoints), k);
      errors := errors + found;
      renders := renders + if e.direction == Render then 1 else 0;
      masters := masters + if e.clockMaster then 1 else 0;
      groups := groups + if e.backend == Asio then {e.group} else {};
    }
    assert EndpointErrors(endpoints)[..|endpoints|] == EndpointErrors(endpoints);
  }

  method CheckEndpoint(endpoints: seq<Endpoint>, k: nat, ids: set<Text>, natives: set<Text>)
    returns (found: seq<Error>, nextIds: set<Text>, nextNatives: set<Text>)
    requires k < |endpoints| && ids == Preset.Seen(Ids(endpoints)[..k]) && natives == Preset.Seen(NativeKeys(endpoints)[..k])
    ensures found == EndpointErrorsAt(endpoints, k)
    ensures nextIds == Preset.Seen(Ids(endpoints)[..k + 1]) && nextNatives == Preset.Seen(NativeKeys(endpoints)[..k + 1])
  {
    var e := endpoints[k];
    var repeated, known;
    repeated, nextIds := Preset.Insert(ids, e.id, Ids(endpoints), k);
    known, nextNatives := Preset.Insert(natives, NativeKey(e), NativeKeys(endpoints), k);
    found := When(e.id == [], EmptyEndpointId) + When(repeated, DuplicateEndpointId)
             + TimingErrors(e) + When(known, DuplicateDevice) + RangeErrors(e);
  }

  /** The second loop: every ASIO endpoint against its counterpart. */
  method CheckPairs(endpoints: seq<Endpoint>) returns (errors: seq<Error>)
    ensures errors == Concat(PairErrors(endpoints))
  {
    errors := [];
    for k := 0 to |endpoints|
      invariant errors == Concat(PairErrors(endpoints)[..k])
    {
      ConcatNext(PairErrors(endpoints), k);
      errors := errors + PairErrorsAt(endpoints, k);
    }
    assert PairErrors(endpoints)[..|endpoints|] == PairErrors(endpoints);
  }

  method ValidateMatrix(c: Configuration) returns (errors: seq<Error>)
    ensures errors == MatrixErrors(c)
  {
    errors := When(c.captureDevice != [] || c.renderDevice != [], UnexpectedLegacyDevice);
    if c.endpoints == [] {
      return errors + [EmptyMatrix];
    }
    if |c.endpoints| > MAX_ENDPOINTS {
      return errors + [TooManyEndpoints];
    }
    var found, renders, masters, groups := CheckEndpoints(c.endpoints);
    var pairs := CheckPairs(c.endpoints);
    errors := errors + (found + When(renders == 0, MissingRenderEndpoint) + When(masters != 1, InvalidClockMasterCount)
                        + When(|groups| > 1, MultipleAsioGroups) + pairs);
  }

  /** validate_audio_runtime_configuration() */
  method Validate(c: Configuration, allowNone: bool) returns (errors: seq<Error>)
    ensures errors == Errors(c, allowNone)
  {
    match c.mode
    case PhysicalAsio =>
      var inputs := CheckChannels(c.asioInputs, DuplicateAsioInput);
      var outputs := CheckChannels(c.asioOutputs, DuplicateAsioOutput);
      errors := When(c.captureDevice != [] || c.renderDevice != [] || c.endpoints != [], UnexpectedWasapiConfiguration)
                + When(c.clsid == [], EmptyClsid) + When(|c.clsid| > 128, ClsidTooLong)
                + When(c.asioSampleRate < 8000 || c.asioSampleRate > 768000, InvalidAsioSampleRate)
                + When(c.asioBlockFrames == 0 || c.asioBlockFrames > 65536, InvalidAsioBlockFrames)
                + When(|c.asioInputs| > MAX_ASIO_CHANNELS || |c.asioOutputs| > MAX_ASIO_CHANNELS, TooManyAsioChannels)
                + inputs + outputs;
    case WasapiMatrix =>
      var found := ValidateMatrix(c);
      errors := When(HasAsioFields(c), UnexpectedAsioConfiguration) + found;
    case _ => errors := Errors(c, allowNone);
  }

  // What a valid matrix runtime looks like.

  /** The native key has no collisions: it tells backend, direction and native id apart. */
  lemma NativeKeyIsExact(a: Endpoint, b: Endpoint)
    ensures NativeKey(a) == NativeKey(b) <==> a.backend == b.backend && a.direction == b.direction && NativeId(a) == NativeId(b)
  {
    var k, l := NativeKey(a), NativeKey(b);
    if k == l {
      assert k[0] == l[0];
      assert "physical-asio\n"[0] == 'p' && "wasapi\n"[0] == 'w';
      var n := if a.backend == Asio then 14 else 7;
      assert k[n] == l[n];
      assert "render\n"[0] == 'r' && "capture\n"[0] == 'c';
      var m := n + if a.direction == Render then 7 else 8;
      assert NativeId(a) == k[m..] && NativeId(b) == l[m..];
    }
  }

  lemma NoErrorAt(endpoints: seq<Endpoint>, k: nat)
    requires k < |endpoints| && EndpointErrorsAt(endpoints, k) == []
    ensures !Preset.Repeats(NativeKeys(endpoints), k)
    ensures endpoints[k].clockMaster ==> endpoints[k].direction == Render
  {
    var e := endpoints[k];
    var tail := When(Preset.Repeats(NativeKeys(endpoints), k), DuplicateDevice) + RangeErrors(e);
    assert |EndpointErrorsAt(endpoints, k)| >= |tail|;
    assert |RangeErrors(e)| >= |When(e.clockMaster && e.direction != Render, CaptureClockMaster)|;
  }

  lemma NoPairErrorAt(endpoints: seq<Endpoint>, k: nat)
    requires k < |endpoints| && PairErrorsAt(endpoints, k) == [] && endpoints[k].backend == Asio
    ensures PairedAt(endpoints, k)
  {
  }

  lemma {:induction false} GroupIsMember(endpoints: seq<Endpoint>, n: nat, k: nat)
    requires k < n <= |endpoints| && endpoints[k].backend == Asio
    ensures endpoints[k].group in Groups(endpoints, n)
  {
    if k < n - 1 {
      GroupIsMember(endpoints, n - 1, k);
    }
  }

  lemma TwoMembers<T>(s: set<T>, a: T, b: T)
    requires a in s && b in s && a != b
    ensures |s| >= 2
  {
    assert |s - {a, b}| + 2 == |s|;
  }

  predicate SoundAt(endpoints: seq<Endpoint>, k: nat)
    requires k < |endpoints|
  {
    && !Preset.Repeats(NativeKeys(endpoints), k)
    && (endpoints[k].clockMaster ==> endpoints[k].direction == Render)
    && (endpoints[k].backend == Asio ==> PairedAt(endpoints, k))
  }

  predicate PairedAt(endpoints: seq<Endpoint>, k: nat)
    requires k < |endpoints|
  {
    var other := FindCounterpart(endpoints, endpoints[k], 0);
    && other < |endpoints| && SameDriver(endpoints[other], endpoints[k])
    && (endpoints[k].direction == Render ==> endpoints[k].clockMaster)
  }

  ghost predicate ValidList(endpoints: seq<Endpoint>) {
    && (forall k :: 0 <= k < |endpoints| ==> SoundAt(endpoints, k))
    && |Groups(endpoints, |endpoints|)| <= 1
  }

  lemma ListErrorsEmpty(endpoints: seq<Endpoint>)
    requires ListErrors(endpoints) == []
    ensures ValidList(endpoints)
  {
    var n := |endpoints|;
    assert |ListErrors(endpoints)| >= |Concat(EndpointErrors(endpoints))| + |When(|Groups(endpoints, n)| > 1, MultipleAsioGroups)|
                                      + |Concat(PairErrors(endpoints))|;
    forall k | 0 <= k < n ensures SoundAt(endpoints, k) {
      ConcatEmpty(EndpointErrors(endpoints), k);
      ConcatEmpty(PairErrors(endpoints), k);
      NoErrorAt(endpoints, k);
      if endpoints[k].backend == Asio {
        NoPairErrorAt(endpoints, k);
      }
    }
  }

  /** The ASIO endpoints of a valid list belong to one group and differ in direction. */
  lemma DirectionsDiffer(endpoints: seq<Endpoint>, j: nat, k: nat)
    requires ValidList(endpoints) && j < |endpoints| && k < |endpoints| && j != k
    requires endpoints[j].backend == Asio && endpoints[k].backend == Asio
    ensures endpoints[j].group == endpoints[k].group && endpoints[j].direction != endpoints[k].direction
  {
    var n := |endpoints|;
    GroupIsMember(endpoints, n, j);
    GroupIsMember(endpoints, n, k);
    if endpoints[j].group != endpoints[k].group {
      TwoMembers(Groups(endpoints, n), endpoints[j].group, endpoints[k].group);
    }
    var low, high := if j < k then j else k, if j < k then k else j;
    assert SoundAt(endpoints, high);
    assert NativeKeys(endpoints)[..high][low] == NativeKeys(endpoints)[low];
    NativeKeyIsExact(endpoints[low], endpoints[high]);
  }

  lemma OnlyOtherOne(endpoints: seq<Endpoint>, i: nat, j: nat, k: nat)
    requires ValidList(endpoints) && i < |endpoints| && j < |endpoints| && k < |endpoints| && i != j && j != k
    requires endpoints[i].backend == Asio && endpoints[j].backend == Asio && endpoints[k].backend == Asio
    ensures i == k
  {
    DirectionsDiffer(endpoints, i, j);
    DirectionsDiffer(endpoints, j, k);
    if i != k {
      DirectionsDiffer(endpoints, i, k);
    }
  }

  /** The counterpart the validator finds is the only other ASIO endpoint there is. */
  lemma CounterpartIsUnique(endpoints: seq<Endpoint>, j: nat)
    requires ValidList(endpoints) && j < |endpoints| && endpoints[j].backend == Asio
    ensures var k := FindCounterpart(endpoints, endpoints[j], 0);
            && k < |endpoints| && k != j && SameDriver(endpoints[k], endpoints[j])
            && forall i :: 0 <= i < |endpoints| && endpoints[i].backend == Asio ==> i == j || i == k
  {
    assert SoundAt(endpoints, j);
    forall i | 0 <= i < |endpoints| && endpoints[i].backend == Asio && i != j
      ensures i == FindCounterpart(endpoints, endpoints[j], 0)
    {
      OnlyOtherOne(endpoints, i, j, FindCounterpart(endpoints, endpoints[j], 0));
    }
  }

  predicate AsioPair(endpoints: seq<Endpoint>, capture: nat, render: nat)
    requires capture < |endpoints| && render < |endpoints|
  {
    var c, r := endpoints[capture], endpoints[render];
    && c.backend == Asio && r.backend == Asio && c.direction == Capture && r.direction == Render
    && c.group == r.group && SameDriver(c, r) && r.clockMaster && !c.clockMaster
    && forall i :: 0 <= i < |endpoints| && endpoints[i].backend == Asio ==> i == capture || i == render
  }

  lemma AsioEndpointsPair(endpoints: seq<Endpoint>, j: nat)
    requires ValidList(endpoints) && j < |endpoints| && endpoints[j].backend == Asio
    ensures var k := FindCounterpart(endpoints, endpoints[j], 0);
            k < |endpoints| && if endpoints[j].direction == Capture then AsioPair(endpoints, j, k) else AsioPair(endpoints, k, j)
  {
    CounterpartIsUnique(endpoints, j);
    var k := FindCounterpart(endpoints, endpoints[j], 0);
    assert SoundAt(endpoints, j) && SoundAt(endpoints, k);
  }

  lemma NoListErrors(c: Configuration, allowNone: bool)
    requires c.mode == WasapiMatrix && Errors(c, allowNone) == []
    ensures ListErrors(c.endpoints) == []
  {
    assert |Errors(c, allowNone)| >= |MatrixErrors(c)|;
    assert |MatrixErrors(c)| >= |ListErrors(c.endpoints)|;
  }

  /** A valid matrix runtime has no ASIO endpoints, or one capture and one render endpoint of one driver;
      its render endpoint then drives the clock. */
  lemma MatrixRuntimeShape(c: Configuration, allowNone: bool)
    requires c.mode == WasapiMatrix && Errors(c, allowNone) == []
    ensures AllWasapi(c.endpoints) || HasAsioPair(c.endpoints)
  {
    NoListErrors(c, allowNone);
    ListErrorsEmpty(c.endpoints);
    ShapeOfList(c.endpoints);
  }

  lemma ShapeOfList(endpoints: seq<Endpoint>)
    requires ValidList(endpoints)
    ensures AllWasapi(endpoints) || HasAsioPair(endpoints)
  {
    if i :| 0 <= i < |endpoints| && endpoints[i].backend != Wasapi {
      AsioEndpointsPair(endpoints, i);
    }
  }

  predicate AllWasapi(endpoints: seq<Endpoint>) {
    forall i :: 0 <= i < |endpoints| ==> endpoints[i].backend == Wasapi
  }

  predicate HasAsioPair(endpoints: seq<Endpoint>) {
    exists j, k :: 0 <= j < |endpoints| && 0 <= k < |endpoints| && AsioPair(endpoints, j, k)
  }

  /** A valid configuration has bounded lists and a bounded class id, whatever its mode. */
  lemma ValidIsBounded(c: Configuration, allowNone: bool)
    requires Errors(c, allowNone) == []
    ensures |c.endpoints| <= MAX_ENDPOINTS && |c.clsid| <= 128
    ensures |c.asioInputs| <= MAX_ASIO_CHANNELS && |c.asioOutputs| <= MAX_ASIO_CHANNELS
  {
    hide ChannelErrors, ListErrors;
  }

  // Exactly which configurations are valid.

  predicate ValidChannels(channels: seq<u32>) {
    && |channels| <= MAX_ASIO_CHANNELS
    && (forall k :: 0 <= k < |channels| ==> channels[k] < MAX_ASIO_CHANNELS)
    && forall j, k :: 0 <= j < k < |channels| ==> channels[j] != channels[k]
  }

  /** A physical ASIO driver, and nothing of WASAPI. */
  predicate ValidDriver(c: Configuration) {
    && c.captureDevice == [] && c.renderDevice == [] && c.endpoints == []
    && 0 < |c.clsid| <= 128 && AsioTiming(c.asioSampleRate, c.asioBlockFrames)
    && ValidChannels(c.asioInputs) && ValidChannels(c.asioOutputs)
  }

  /** An endpoint by itself: ASIO endpoints have a group and their timing, others have neither; the channel
      range is not empty and ends within 32 bits. */
  predicate ValidEndpoint(e: Endpoint) {
    && e.id != []
    && (if e.backend == Asio then e.group != [] && AsioTiming(e.sampleRate, e.blockFrames)
        else e.group == [] && e.sampleRate == 0 && e.blockFrames == 0)
    && e.channelCount > 0 && e.firstChannel + e.channelCount <= U32_MAX
  }

  /** The same native device, in the same direction. */
  predicate SameDevice(a: Endpoint, b: Endpoint) {
    a.backend == b.backend && a.direction == b.direction && NativeId(a) == NativeId(b)
  }

  predicate AllApart(endpoints: seq<Endpoint>) {
    forall j, k :: 0 <= j < k < |endpoints| ==> endpoints[j].id != endpoints[k].id && !SameDevice(endpoints[j], endpoints[k])
  }

  predicate SoleMaster(endpoints: seq<Endpoint>, n: nat, k: nat)
    requires k < n <= |endpoints|
  {
    endpoints[k].clockMaster && forall j :: 0 <= j < n && endpoints[j].clockMaster ==> j == k
  }

  predicate ValidEndpoints(endpoints: seq<Endpoint>) {
    && 0 < |endpoints| <= MAX_ENDPOINTS
    && (forall k :: 0 <= k < |endpoints| ==> ValidEndpoint(endpoints[k]))
    && AllApart(endpoints)
    && (exists k :: 0 <= k < |endpoints| && SoleMaster(endpoints, |endpoints|, k) && endpoints[k].direction == Render)
    && (AllWasapi(endpoints) || HasAsioPair(endpoints))
  }

  /** A valid configuration, described without the validator. That a matrix runtime renders at all follows
      from its clock master. */
  predicate ValidConfiguration(c: Configuration, allowNone: bool) {
    match c.mode
    case PhysicalAsio => ValidDriver(c)
    case NoRuntime => allowNone && c.captureDevice == [] && c.renderDevice == [] && c.endpoints == [] && !HasAsioFields(c)
    case WasapiRender => !HasAsioFields(c) && c.captureDevice == [] && c.endpoints == []
    case WasapiDuplex => !HasAsioFields(c) && (c.captureDevice == [] <==> c.renderDevice == []) && c.endpoints == []
    case WasapiMatrix => !HasAsioFields(c) && c.captureDevice == [] && c.renderDevice == [] && ValidEndpoints(c.endpoints)
  }

  lemma {:induction false} ChannelErrorsEmpty(channels: seq<u32>, duplicate: Error, n: nat)
    requires n <= |channels|
    ensures ChannelErrors(channels, duplicate, n) == [] <==>
            && (forall k :: 0 <= k < n ==> channels[k] < MAX_ASIO_CHANNELS)
            && forall j, k :: 0 <= j < k < n ==> channels[j] != channels[k]
  {
    if n > 0 {
      ChannelErrorsEmpty(channels, duplicate, n - 1);
      assert channels[n - 1] in channels[..n - 1] <==> exists j :: 0 <= j < n - 1 && channels[j] == channels[n - 1];
    }
  }

  lemma ValidDriverIff(c: Configuration)
    ensures AsioErrors(c) == [] <==> ValidDriver(c)
  {
    ChannelErrorsEmpty(c.asioInputs, DuplicateAsioInput, |c.asioInputs|);
    ChannelErrorsEmpty(c.asioOutputs, DuplicateAsioOutput, |c.asioOutputs|);
    hide ChannelErrors;
  }

  lemma {:induction false} ConcatOfEmpty(parts: seq<seq<Error>>)
    requires forall k :: 0 <= k < |parts| ==> parts[k] == []
    ensures Concat(parts) == []
  {
    if parts != [] {
      ConcatOfEmpty(parts[..|parts| - 1]);
    }
  }

  /** Endpoint `k` repeats neither the id nor the device of an earlier one. */
  predicate NothingRepeats(endpoints: seq<Endpoint>, k: nat)
    requires k < |endpoints|
  {
    !Preset.Repeats(Ids(endpoints), k) && !Preset.Repeats(NativeKeys(endpoints), k)
  }

  predicate InOrderAt(endpoints: seq<Endpoint>, k: nat)
    requires k < |endpoints|
  {
    && ValidEndpoint(endpoints[k]) && NothingRepeats(endpoints, k)
    && (endpoints[k].clockMaster ==> endpoints[k].direction == Render)
  }

  lemma NoEndpointErrorIff(endpoints: seq<Endpoint>, k: nat)
    requires k < |endpoints|
    ensures EndpointErrorsAt(endpoints, k) == [] <==> InOrderAt(endpoints, k)
  {
    hide Preset.Repeats;
  }

  lemma DistinctIffNoneRepeats(ids: seq<Text>)
    requires forall k :: 0 <= k < |ids| ==> ids[k] != []
    ensures Preset.Distinct(ids) <==> forall k :: 0 <= k < |ids| ==> !Preset.Repeats(ids, k)
  {
    Preset.DistinctIff(ids, |ids|);
    hide Preset.Distinct, Preset.Repeats;
    assert ids[..|ids|] == ids;
  }

  lemma KeyIsNotEmpty(e: Endpoint)
    ensures NativeKey(e) != []
  {
    assert |NativeKey(e)| >= 7;
  }

  lemma AllApartIff(endpoints: seq<Endpoint>)
    requires forall k :: 0 <= k < |endpoints| ==> endpoints[k].id != []
    ensures AllApart(endpoints) <==> forall k :: 0 <= k < |endpoints| ==> NothingRepeats(endpoints, k)
  {
    hide Preset.Distinct, Preset.Repeats, NativeKey, SameDevice, AllApart;
    forall k | 0 <= k < |endpoints| ensures NativeKeys(endpoints)[k] != [] {
      KeyIsNotEmpty(endpoints[k]);
    }
    DistinctIffNoneRepeats(Ids(endpoints));
    DistinctIffNoneRepeats(NativeKeys(endpoints));
    forall j, k | 0 <= j < k < |endpoints|
      ensures NativeKeys(endpoints)[j] == NativeKeys(endpoints)[k] <==> SameDevice(endpoints[j], endpoints[k])
    {
      KeysTellDevices(endpoints[j], endpoints[k]);
    }
    ApartIffDistinct(endpoints, Ids(endpoints), NativeKeys(endpoints));
    forall k | 0 <= k < |endpoints|
      ensures NothingRepeats(endpoints, k) <==> !Preset.Repeats(Ids(endpoints), k) && !Preset.Repeats(NativeKeys(endpoints), k)
    {
    }
    assert forall k :: 0 <= k < |endpoints| && !Preset.Repeats(Ids(endpoints), k) && !Preset.Repeats(NativeKeys(endpoints), k) ==>
                         NothingRepeats(endpoints, k);
    if forall k :: 0 <= k < |endpoints| ==> NothingRepeats(endpoints, k) {
      forall k | 0 <= k < |endpoints|
        ensures !Preset.Repeats(Ids(endpoints), k) && !Preset.Repeats(NativeKeys(endpoints), k)
      {
        assert NothingRepeats(endpoints, k);
      }
    }
  }

  lemma KeysTellDevices(a: Endpoint, b: Endpoint)
    ensures NativeKey(a) == NativeKey(b) <==> SameDevice(a, b)
  {
    NativeKeyIsExact(a, b);
  }

  lemma ApartIffDistinct(endpoints: seq<Endpoint>, ids: seq<Text>, keys: seq<Text>)
    requires |ids| == |keys| == |endpoints| && forall k :: 0 <= k < |ids| ==> ids[k] == endpoints[k].id
    requires forall j, k :: 0 <= j < k < |endpoints| ==> (keys[j] == keys[k] <==> SameDevice(endpoints[j], endpoints[k]))
    ensures AllApart(endpoints) <==> Preset.Distinct(ids) && Preset.Distinct(keys)
  {
    hide SameDevice;
    if AllApart(endpoints) {
      forall j, k | 0 <= j < k < |ids| ensures ids[j] != ids[k] && keys[j] != keys[k] {
        assert endpoints[j].id != endpoints[k].id && !SameDevice(endpoints[j], endpoints[k]);
      }
    }
    if Preset.Distinct(ids) && Preset.Distinct(keys) {
      forall j, k | 0 <= j < k < |endpoints| ensures endpoints[j].id != endpoints[k].id && !SameDevice(endpoints[j], endpoints[k]) {
        assert ids[j] != ids[k] && keys[j] != keys[k];
      }
    }
  }

  lemma {:induction false} MastersIff(endpoints: seq<Endpoint>, n: nat)
    requires n <= |endpoints|
    ensures Masters(endpoints, n) == 0 <==> forall j :: 0 <= j < n ==> !endpoints[j].clockMaster
    ensures Masters(endpoints, n) == 1 <==> exists k :: 0 <= k < n && SoleMaster(endpoints, n, k)
  {
    if n > 0 {
      MastersIff(endpoints, n - 1);
      if Masters(endpoints, n) == 1 {
        if endpoints[n - 1].clockMaster {
          assert SoleMaster(endpoints, n, n - 1);
        } else {
          var k :| 0 <= k < n - 1 && SoleMaster(endpoints, n - 1, k);
          assert SoleMaster(endpoints, n, k);
        }
      }
      if k :| 0 <= k < n && SoleMaster(endpoints, n, k) {
        if k < n - 1 {
          assert SoleMaster(endpoints, n - 1, k);
        }
      }
    }
  }

  lemma {:induction false} RendersIff(endpoints: seq<Endpoint>, n: nat)
    requires n <= |endpoints|
    ensures Renders(endpoints, n) == 0 <==> forall j :: 0 <= j < n ==> endpoints[j].direction != Render
  {
    if n > 0 {
      RendersIff(endpoints, n - 1);
    }
  }

  lemma {:induction false} GroupsWithin(endpoints: seq<Endpoint>, n: nat, within: set<Text>)
    requires n <= |endpoints| && forall k :: 0 <= k < n && endpoints[k].backend == Asio ==> endpoints[k].group in within
    ensures Groups(endpoints, n) <= within
  {
    if n > 0 {
      GroupsWithin(endpoints, n - 1, within);
    }
  }

  lemma PairHasNoErrors(endpoints: seq<Endpoint>, capture: nat, render: nat, k: nat)
    requires capture < |endpoints| && render < |endpoints| && k < |endpoints| && AsioPair(endpoints, capture, render)
    ensures PairErrorsAt(endpoints, k) == []
  {
    var e := endpoints[k];
    if e.backend == Asio {
      var other := if k == capture then render else capture;
      assert k == capture || k == render;
      assert Counterpart(e, endpoints[other]);
      var found := FindCounterpart(endpoints, e, 0);
      assert found <= other;
      assert found == other;
    }
  }

  /** The groups and the pairs of the endpoints are in order exactly if there are no ASIO endpoints or just
      one pair of them. */
  lemma ShapeHasNoErrors(endpoints: seq<Endpoint>)
    requires AllWasapi(endpoints) || HasAsioPair(endpoints)
    ensures |Groups(endpoints, |endpoints|)| <= 1 && Concat(PairErrors(endpoints)) == []
  {
    var n := |endpoints|;
    if AllWasapi(endpoints) {
      GroupsWithin(endpoints, n, {});
      forall k | 0 <= k < n ensures PairErrors(endpoints)[k] == [] {
        assert endpoints[k].backend == Wasapi;
      }
    } else {
      var j, k :| 0 <= j < n && 0 <= k < n && AsioPair(endpoints, j, k);
      GroupsWithin(endpoints, n, {endpoints[j].group});
      SubsetSize(Groups(endpoints, n), {endpoints[j].group});
      forall i | 0 <= i < n ensures PairErrors(endpoints)[i] == [] {
        PairHasNoErrors(endpoints, j, k, i);
      }
    }
    ConcatOfEmpty(PairErrors(endpoints));
  }

  lemma NoEndpointErrorsIff(endpoints: seq<Endpoint>)
    ensures Concat(EndpointErrors(endpoints)) == [] <==>
            && (forall k :: 0 <= k < |endpoints| ==> ValidEndpoint(endpoints[k]))
            && AllApart(endpoints)
            && forall k :: 0 <= k < |endpoints| && endpoints[k].clockMaster ==> endpoints[k].direction == Render
  {
    NoEndpointErrorsInOrder(endpoints);
    if forall k :: 0 <= k < |endpoints| ==> endpoints[k].id != [] {
      AllApartIff(endpoints);
    }
    hide NothingRepeats, AllApart, Concat, EndpointErrors;
    if forall k :: 0 <= k < |endpoints| ==> InOrderAt(endpoints, k) {
      forall k | 0 <= k < |endpoints|
        ensures ValidEndpoint(endpoints[k]) && NothingRepeats(endpoints, k)
        ensures endpoints[k].clockMaster ==> endpoints[k].direction == Render
      {
        assert InOrderAt(endpoints, k);
      }
    }
  }

  lemma NoEndpointErrorsInOrder(endpoints: seq<Endpoint>)
    ensures Concat(EndpointErrors(endpoints)) == [] <==> forall k :: 0 <= k < |endpoints| ==> InOrderAt(endpoints, k)
  {
    var parts := EndpointErrors(endpoints);
    hide EndpointErrorsAt, InOrderAt;
    forall k | 0 <= k < |endpoints| ensures parts[k] == [] <==> InOrderAt(endpoints, k) {
      NoEndpointErrorIff(endpoints, k);
    }
    if Concat(parts) == [] {
      forall k | 0 <= k < |parts| ensures InOrderAt(endpoints, k) {
        ConcatEmpty(parts, k);
      }
    }
    if forall k :: 0 <= k < |endpoints| ==> InOrderAt(endpoints, k) {
      forall k | 0 <= k < |parts| ensures parts[k] == [] {
        assert InOrderAt(endpoints, k);
      }
      ConcatOfEmpty(parts);
    }
  }

  lemma NoListErrorsIff(endpoints: seq<Endpoint>)
    requires 0 < |endpoints| <= MAX_ENDPOINTS
    ensures ListErrors(endpoints) == [] <==> ValidEndpoints(endpoints)
  {
    var n := |endpoints|;
    hide ValidEndpoint, AllApart, Concat, EndpointErrorsAt, PairErrorsAt, Groups, AllWasapi, HasAsioPair, Masters, Renders;
    NoEndpointErrorsIff(endpoints);
    MastersIff(endpoints, n);
    RendersIff(endpoints, n);
    if ListErrors(endpoints) == [] {
      ListErrorsEmpty(endpoints);
      ShapeOfList(endpoints);
    }
    if AllWasapi(endpoints) || HasAsioPair(endpoints) {
      ShapeHasNoErrors(endpoints);
    }
  }

  /** The validator accepts exactly the valid configurations, in every mode. */
  lemma ValidConfigurationIff(c: Configuration, allowNone: bool)
    ensures Errors(c, allowNone) == [] <==> ValidConfiguration(c, allowNone)
  {
    hide ListErrors, AsioErrors, ValidDriver;
    ValidDriverIff(c);
    if 0 < |c.endpoints| <= MAX_ENDPOINTS {
      NoListErrorsIff(c.endpoints);
    }
    hide ValidEndpoints;
    assert ValidEndpoints(c.endpoints) ==> 0 < |c.endpoints| <= MAX_ENDPOINTS;
  }
}
