/** Session files: a header, the preset file inside, and the rest of the session behind it. */
module SessionFile {
  import opened Basics
  import opened Codecs
  import opened Refusals
  import opened WireCommand
  import opened SessionCodec
  import opened SessionDocument
  import PresetFile
  import AudioRuntime

  const FILE_HEADER: nat := 12
  const MAX_FILE: nat := 0x10_0000

  datatype FileError = InvalidSession | InvalidPreset | InvalidSessionFile

  datatype EncodeResult = Encoded(bytes: seq<u8>) | NotEncoded(error: FileError)

  datatype DecodeResult = Decoded(session: Session) | NotDecoded(error: FileError)

  /** "SARS" */
  function Magic(): seq<u8> {
    [0x53, 0x41, 0x52, 0x53]
  }

  /** Magic, version, a reserved zero, and the size of the payload. */
  function FileHeader(payload: nat): (h: seq<u8>)
    ensures |h| == FILE_HEADER
  {
    Magic() + LittleEndian(NEWEST, 2) + LittleEndian(0, 2) + LittleEndian(payload, 4)
  }

  function BodyOf(s: Session): SessionBody {
    (RuntimeOf(s.runtime), (DriverOf(s.runtime), (s.autoStart, s.devices)))
  }

  function RestOf(s: Session): SessionRest {
    (BodyOf(s), Extensions(s.runtime.endpoints))
  }

  function Payload(s: Session, presetFile: seq<u8>): Output {
    Then(StartCodec().enc((s.schemaVersion, presetFile)), RestCodec(NEWEST).enc(RestOf(s)))
  }

  /** The whole file, if it is not too large. */
  function Sealed(payload: Output): EncodeResult {
    if payload.Unencodable? || FILE_HEADER + |payload.bytes| > MAX_FILE then NotEncoded(InvalidSessionFile)
    else Encoded(FileHeader(|payload.bytes|) + payload.bytes)
  }

  /** encode_session_file() */
  function EncodeSession(s: Session): EncodeResult {
    if Errors(s) != [] then NotEncoded(InvalidSession)
    else match PresetFile.EncodePresetFile(s.preset)
      case NotEncoded(_) => NotEncoded(InvalidSession)
      case Encoded(presetFile) =>
        if |presetFile| > U32_MAX then NotEncoded(InvalidSessionFile) else Sealed(Payload(s, presetFile))
  }

  /** The version in a header that is in order. */
  function OpenedFile(bytes: seq<u8>): Option<nat> {
    if |bytes| < FILE_HEADER || bytes[..4] != Magic() then None
    else
      var version := FromLittleEndian(bytes[4..6]);
      if || version == 0 || version > NEWEST || FromLittleEndian(bytes[6..8]) != 0
         || FromLittleEndian(bytes[8..12]) != |bytes| - FILE_HEADER
      then None
      else Some(version)
  }

  /** The decoder always sets the current schema version. */
  function SessionOf(preset: Preset.Document, t: SessionRest): Session {
    Session(SCHEMA_VERSION, preset, ConfigurationOf(t.0.0, t.0.1.0, t.1), t.0.1.1.1, t.0.1.1.0)
  }

  function Checked(s: Session): DecodeResult {
    if Errors(s) != [] then NotDecoded(InvalidSession) else Decoded(s)
  }

  function FromRest(bytes: seq<u8>, preset: Preset.Document, rest: Input<SessionRest>): DecodeResult {
    match rest
    case Malformed(_, _) => NotDecoded(InvalidSessionFile)
    case Done(t, o) => if o != |bytes| then NotDecoded(InvalidSessionFile) else Checked(SessionOf(preset, t))
  }

  function FromPreset(bytes: seq<u8>, version: nat, preset: PresetFile.DecodeResult, offset: nat): DecodeResult {
    match preset
    case NotDecoded(_) => NotDecoded(InvalidPreset)
    case Decoded(p) => FromRest(bytes, p, RestCodec(version).dec(bytes, offset))
  }

  function FromStart(bytes: seq<u8>, version: nat, start: Input<SchemaAndPreset>): DecodeResult {
    match start
    case Malformed(_, _) => NotDecoded(InvalidSessionFile)
    case Done(t, o) => FromPreset(bytes, version, PresetFile.DecodePresetFile(t.1), o)
  }

  /** decode_session_file(): the preset is decoded before anything behind it is looked at. */
  function DecodeSession(bytes: seq<u8>): DecodeResult {
    if |bytes| == 0 || |bytes| > MAX_FILE then NotDecoded(InvalidSessionFile)
    else match OpenedFile(bytes)
      case None => NotDecoded(InvalidSessionFile)
      case Some(version) => FromStart(bytes, version, StartCodec().dec(bytes, FILE_HEADER))
  }

  // What the encoder writes.

  /** Every group id is short enough for the decoder. */
  predicate ShortGroupIds(s: Session) {
    forall k :: 0 <= k < |s.runtime.endpoints| ==> |s.runtime.endpoints[k].group| <= Codecs.MAX_STRING
  }

  lemma ReadFileHeader(payload: nat)
    requires payload <= MAX_FILE
    ensures var h := FileHeader(payload);
            && h[..4] == Magic() && FromLittleEndian(h[4..6]) == NEWEST
            && FromLittleEndian(h[6..8]) == 0 && FromLittleEndian(h[8..12]) == payload
  {
    var h := FileHeader(payload);
    assert h[4..6] == LittleEndian(NEWEST, 2);
    assert h[6..8] == LittleEndian(0, 2);
    assert h[8..] == LittleEndian(payload, 4);
    assert h[8..12] == h[8..];
    PowerOfFour();
    assert Power(2) == 0x100 * Power(1);
    IntegersRoundTrip(NEWEST, 2);
    IntegersRoundTrip(0, 2);
    IntegersRoundTrip(payload, 4);
  }

  lemma SealedOpens(payload: seq<u8>, bytes: seq<u8>)
    requires Sealed(Bytes(payload)) == Encoded(bytes)
    ensures OpenedFile(bytes) == Some(NEWEST) && 0 < |bytes| <= MAX_FILE && At(bytes, FILE_HEADER, payload)
  {
    ReadFileHeader(|payload|);
    var h := FileHeader(|payload|);
    assert bytes[..4] == h[..4] && bytes[4..6] == h[4..6] && bytes[6..8] == h[6..8] && bytes[8..12] == h[8..12];
  }

  lemma RestMatches(s: Session)
    requires s.schemaVersion == SCHEMA_VERSION
    ensures SessionOf(s.preset, RestOf(s)) == s
  {
    JoinedApart(s.runtime.endpoints);
  }

  lemma BasesFit(endpoints: seq<AudioRuntime.Endpoint>)
    requires |endpoints| <= AudioRuntime.MAX_ENDPOINTS && ShortFields(endpoints)
    ensures EndpointsFit(Bases(endpoints))
  {
  }

  lemma BoundedDriverFits(c: AudioRuntime.Configuration)
    requires |c.clsid| <= 128 && |c.asioInputs| <= AudioRuntime.MAX_ASIO_CHANNELS && |c.asioOutputs| <= AudioRuntime.MAX_ASIO_CHANNELS
    ensures DriverFits(DriverOf(c))
  {
  }

  lemma ValidRuntimeFits(c: AudioRuntime.Configuration)
    requires AudioRuntime.ValidConfiguration(c, true) && |c.captureDevice| <= Codecs.MAX_STRING && |c.renderDevice| <= Codecs.MAX_STRING
    requires ShortFields(c.endpoints)
    ensures RuntimeIn(NEWEST)(RuntimeOf(c)) && DriverIn(NEWEST)(DriverOf(c))
  {
    hide AudioRuntime.Errors, AudioRuntime.ValidConfiguration, ShortFields, EndpointsFit, DriverFits, Bases;
    AudioRuntime.ValidConfigurationIff(c, true);
    AudioRuntime.ValidIsBounded(c, true);
    BasesFit(c.endpoints);
    BoundedDriverFits(c);
    assert EndpointsIn(NEWEST)(Bases(c.endpoints));
    assert ModeIn(NEWEST)(c.mode);
  }

  lemma ValidDevicesFit(s: Session)
    requires Valid(s)
    ensures DevicesFit(s.devices)
  {
    hide AudioRuntime.ValidConfiguration, Preset.Valid, AllDiffer;
    forall k | 0 <= k < |s.devices| ensures ShortDevice(s.devices[k]) {
      assert ValidDevice(s.devices[k]);
    }
  }

  /** Of the parts of a valid session only the extensions may be refused. */
  lemma ValidBodyFits(s: Session)
    requires Valid(s)
    ensures BodyIn(NEWEST)(BodyOf(s)) && |EndpointsOfBody(BodyOf(s))| == |s.runtime.endpoints| <= AudioRuntime.MAX_ENDPOINTS
  {
    hide AudioRuntime.Errors, AudioRuntime.ValidConfiguration, Preset.Valid, AllDiffer, ValidDevices, ShortFields, DevicesFit;
    hide RuntimeIn, DriverIn;
    ValidRuntimeFits(s.runtime);
    ValidDevicesFit(s);
    AudioRuntime.ValidConfigurationIff(s.runtime, true);
    AudioRuntime.ValidIsBounded(s.runtime, true);
    assert DevicesIn(NEWEST)(s.devices);
  }

  lemma ShortGroupsIff(s: Session)
    ensures ShortGroups(Extensions(s.runtime.endpoints)) <==> ShortGroupIds(s)
  {
    var xs := Extensions(s.runtime.endpoints);
    forall k | 0 <= k < |xs| ensures ShortGroup(xs[k]) <==> |s.runtime.endpoints[k].group| <= Codecs.MAX_STRING {
    }
    if !ShortGroupIds(s) {
      var k :| 0 <= k < |s.runtime.endpoints| && |s.runtime.endpoints[k].group| > Codecs.MAX_STRING;
      assert !ShortGroup(xs[k]);
    }
  }

  lemma ValidRestFits(s: Session)
    requires Valid(s) && ShortGroupIds(s)
    ensures RestIn(NEWEST)(RestOf(s))
  {
    ValidBodyFits(s);
    ShortGroupsIff(s);
    hide BodyIn, Valid, ShortGroups, BodyOf, EndpointsOfBody;
    var n, xs := |s.runtime.endpoints|, Extensions(s.runtime.endpoints);
    assert GroupsOfLength(n)(xs);
    assert ExtensionsIn(NEWEST, n)(xs);
  }

  // Round trips.

  /** The parts of a file that was encoded. */
  lemma EncodedParts(s: Session, bytes: seq<u8>) returns (presetFile: seq<u8>, start: seq<u8>, rest: seq<u8>)
    requires EncodeSession(s) == Encoded(bytes)
    ensures Errors(s) == [] && PresetFile.EncodePresetFile(s.preset) == PresetFile.Encoded(presetFile)
    ensures |presetFile| <= U32_MAX
    ensures StartCodec().enc((s.schemaVersion, presetFile)) == Bytes(start) && RestCodec(NEWEST).enc(RestOf(s)) == Bytes(rest)
    ensures Sealed(Bytes(start + rest)) == Encoded(bytes)
  {
    hide Errors, PresetFile.EncodePresetFile, StartCodec, RestCodec, RestOf;
    presetFile := PresetFile.EncodePresetFile(s.preset).bytes;
    start, rest := StartCodec().enc((s.schemaVersion, presetFile)).bytes, RestCodec(NEWEST).enc(RestOf(s)).bytes;
  }

  /** Where the parts stand in the file. */
  lemma PartsStand(start: seq<u8>, rest: seq<u8>, bytes: seq<u8>)
    requires Sealed(Bytes(start + rest)) == Encoded(bytes)
    ensures OpenedFile(bytes) == Some(NEWEST) && 0 < |bytes| <= MAX_FILE && |bytes| == FILE_HEADER + |start| + |rest|
    ensures At(bytes, FILE_HEADER, start) && At(bytes, FILE_HEADER + |start|, rest)
  {
    SealedOpens(start + rest, bytes);
    Prefix(bytes, FILE_HEADER, start, rest);
  }

  lemma StartIsRead(s: Session, presetFile: seq<u8>, start: seq<u8>, bytes: seq<u8>)
    requires s.schemaVersion == SCHEMA_VERSION && |presetFile| <= U32_MAX
    requires StartCodec().enc((s.schemaVersion, presetFile)) == Bytes(start) && At(bytes, FILE_HEADER, start)
    ensures StartCodec().dec(bytes, FILE_HEADER) == Done((s.schemaVersion, presetFile), FILE_HEADER + |start|)
  {
    StartLawful();
    assert StartFits((s.schemaVersion, presetFile));
    hide StartCodec;
    assert At(bytes, FILE_HEADER, StartCodec().enc((s.schemaVersion, presetFile)).bytes);
  }

  lemma HeaderIsRead(bytes: seq<u8>, start: Input<SchemaAndPreset>)
    requires OpenedFile(bytes) == Some(NEWEST) && 0 < |bytes| <= MAX_FILE && StartCodec().dec(bytes, FILE_HEADER) == start
    ensures DecodeSession(bytes) == FromStart(bytes, NEWEST, start)
  {
    hide StartCodec, FromStart, OpenedFile;
  }

  lemma PresetIsRead(bytes: seq<u8>, schema: nat, presetFile: seq<u8>, offset: nat, p: Preset.Document)
    requires PresetFile.DecodePresetFile(presetFile) == PresetFile.Decoded(p)
    ensures FromStart(bytes, NEWEST, Done((schema, presetFile), offset))
         == FromPreset(bytes, NEWEST, PresetFile.Decoded(p), offset)
  {
    hide PresetFile.DecodePresetFile, FromPreset;
  }

  lemma RestComesNext(bytes: seq<u8>, p: Preset.Document, offset: nat, rest: Input<SessionRest>)
    requires RestCodec(NEWEST).dec(bytes, offset) == rest
    ensures FromPreset(bytes, NEWEST, PresetFile.Decoded(p), offset) == FromRest(bytes, p, rest)
  {
    hide RestCodec, FromRest;
  }

  lemma RestIsRead(s: Session, rest: seq<u8>, bytes: seq<u8>, offset: nat)
    requires Valid(s) && ShortGroupIds(s) && RestCodec(NEWEST).enc(RestOf(s)) == Bytes(rest) && At(bytes, offset, rest)
    ensures RestCodec(NEWEST).dec(bytes, offset) == Done(RestOf(s), offset + |rest|)
  {
    hide RestCodec, Valid, RestIn, RestOf;
    RestLawful(NEWEST);
    ValidRestFits(s);
    assert At(bytes, offset, RestCodec(NEWEST).enc(RestOf(s)).bytes);
  }

  lemma LongGroupStopsSession(s: Session)
    requires Valid(s) && !ShortGroupIds(s)
    ensures Stops(RestCodec(NEWEST), RestOf(s), StringTooLong)
  {
    SessionBodyLawful(NEWEST);
    ValidBodyFits(s);
    ShortGroupsIff(s);
    hide SessionBodyCodec, Valid, BodyIn, ShortGroups, ShortGroupIds, BodyOf, EndpointsOfBody, RestOver, Stops, RoundTrips;
    RestStops(SessionBodyCodec(NEWEST), RestOf(s));
  }

  lemma RestIsRefused(s: Session, rest: seq<u8>, bytes: seq<u8>, offset: nat)
    requires Valid(s) && !ShortGroupIds(s) && RestCodec(NEWEST).enc(RestOf(s)) == Bytes(rest) && At(bytes, offset, rest)
    requires |bytes| <= MAX_FILE
    ensures RestCodec(NEWEST).dec(bytes, offset).Malformed?
  {
    hide RestCodec, RestOf, Valid, ShortGroupIds, EncodeSession;
    LongGroupStopsSession(s);
    assert At(bytes, offset, RestCodec(NEWEST).enc(RestOf(s)).bytes);
  }

  /** A session that encodes decodes to itself exactly if every group id is at most 64 KiB long; otherwise
      the decoder refuses the file, for the encoder does not check what the validator does not bound. */
  lemma SessionFilesRoundTrip(s: Session, bytes: seq<u8>)
    requires EncodeSession(s) == Encoded(bytes)
    ensures DecodeSession(bytes) == if ShortGroupIds(s) then Decoded(s) else NotDecoded(InvalidSessionFile)
  {
    hide *;
    var presetFile, start, rest := EncodedParts(s, bytes);
    ValidIff(s);
    SchemaIsCurrent(s);
    PartsStand(start, rest, bytes);
    StartIsRead(s, presetFile, start, bytes);
    var offset := FILE_HEADER + |start|;
    HeaderIsRead(bytes, Done((s.schemaVersion, presetFile), offset));
    PresetFile.PresetFilesRoundTrip(s.preset, presetFile);
    PresetIsRead(bytes, s.schemaVersion, presetFile, offset, s.preset);
    RestComesNext(bytes, s.preset, offset, RestCodec(NEWEST).dec(bytes, offset));
    if ShortGroupIds(s) {
      RestIsRead(s, rest, bytes, offset);
      Accepted(s, bytes);
    } else {
      RestIsRefused(s, rest, bytes, offset);
      Refused(bytes, s.preset, RestCodec(NEWEST).dec(bytes, offset));
    }
  }

  lemma SchemaIsCurrent(s: Session)
    requires Valid(s)
    ensures s.schemaVersion == SCHEMA_VERSION
  {
  }

  lemma Accepted(s: Session, bytes: seq<u8>)
    requires Errors(s) == [] && s.schemaVersion == SCHEMA_VERSION
    ensures FromRest(bytes, s.preset, Done(RestOf(s), |bytes|)) == Decoded(s)
  {
    RestMatches(s);
    hide Errors, SessionOf, RestOf;
  }

  lemma Refused(bytes: seq<u8>, preset: Preset.Document, rest: Input<SessionRest>)
    requires rest.Malformed?
    ensures FromRest(bytes, preset, rest) == NotDecoded(InvalidSessionFile)
  {
  }

  // From files to sessions and back.

  lemma DecodedParts(bytes: seq<u8>, s: Session) returns (version: nat, schema: nat, presetFile: seq<u8>, offset: nat, t: SessionRest)
    requires DecodeSession(bytes) == Decoded(s)
    ensures 0 < |bytes| <= MAX_FILE && OpenedFile(bytes) == Some(version)
    ensures StartCodec().dec(bytes, FILE_HEADER) == Done((schema, presetFile), offset)
    ensures PresetFile.DecodePresetFile(presetFile) == PresetFile.Decoded(s.preset)
    ensures RestCodec(version).dec(bytes, offset) == Done(t, |bytes|)
    ensures Errors(s) == [] && s == SessionOf(s.preset, t)
  {
    hide Errors, PresetFile.DecodePresetFile, StartCodec, RestCodec, OpenedFile;
    version := OpenedFile(bytes).value;
    var start := StartCodec().dec(bytes, FILE_HEADER);
    schema, presetFile, offset := start.value.0, start.value.1, start.offset;
    t := RestCodec(version).dec(bytes, offset).value;
  }

  lemma HeaderIsCanonical(bytes: seq<u8>)
    requires OpenedFile(bytes) == Some(NEWEST)
    ensures FILE_HEADER <= |bytes| && bytes == FileHeader(|bytes| - FILE_HEADER) + bytes[FILE_HEADER..]
  {
    IntegersAreCanonical(bytes[4..6]);
    IntegersAreCanonical(bytes[6..8]);
    IntegersAreCanonical(bytes[8..12]);
    assert bytes == bytes[..4] + bytes[4..6] + bytes[6..8] + bytes[8..12] + bytes[12..];
  }

  lemma StartIsCanonical(bytes: seq<u8>, t: SchemaAndPreset, offset: nat)
    requires FILE_HEADER <= |bytes| && StartCodec().dec(bytes, FILE_HEADER) == Done(t, offset)
    ensures FILE_HEADER <= offset <= |bytes| && StartCodec().enc(t) == Bytes(bytes[FILE_HEADER..offset]) && StartFits(t)
  {
    StartLawful();
    hide StartCodec, StartFits;
  }

  lemma RestIsCanonical(bytes: seq<u8>, version: nat, offset: nat, t: SessionRest)
    requires offset <= |bytes| && RestCodec(version).dec(bytes, offset) == Done(t, |bytes|)
    ensures RestCodec(version).enc(t) == Bytes(bytes[offset..]) && RestIn(version)(t)
  {
    RestLawful(version);
    hide RestCodec, RestIn;
    assert bytes[offset..|bytes|] == bytes[offset..];
  }

  lemma ExtensionsMatchEndpoints(version: nat, t: SessionRest)
    requires RestIn(version)(t)
    ensures |t.1| == |EndpointsOfBody(t.0)|
    ensures version == NEWEST ==> ShortGroups(t.1)
  {
    hide BodyIn, ShortGroups, EndpointsOfBody;
    var n, xs: seq<Extension> := |EndpointsOfBody(t.0)|, t.1;
    assert ExtensionsIn(version, n)(xs);
    if version >= 5 {
      assert GroupsOfLength(n)(xs);
    } else {
      assert xs == NoExtensions(n);
    }
  }

  lemma RestIsKept(preset: Preset.Document, t: SessionRest)
    requires |t.1| == |EndpointsOfBody(t.0)|
    ensures RestOf(SessionOf(preset, t)) == t
  {
    ConfigurationMatches(t.0.0, t.0.1.0, t.1);
  }

  /** A file of the current version and schema whose preset part is what the encoder writes for its preset
      is the very file that the encoder writes for its session. */
  lemma SessionFilesAreCanonical(bytes: seq<u8>, s: Session, presetFile: seq<u8>, offset: nat)
    requires DecodeSession(bytes) == Decoded(s) && OpenedFile(bytes) == Some(NEWEST)
    requires StartCodec().dec(bytes, FILE_HEADER) == Done((SCHEMA_VERSION, presetFile), offset)
    requires PresetFile.EncodePresetFile(s.preset) == PresetFile.Encoded(presetFile)
    ensures EncodeSession(s) == Encoded(bytes)
  {
    hide *;
    var version, schema, part, o, t := DecodedParts(bytes, s);
    HeaderIsCanonical(bytes);
    StartIsCanonical(bytes, (SCHEMA_VERSION, presetFile), offset);
    RestIsCanonical(bytes, NEWEST, offset, t);
    ExtensionsMatchEndpoints(NEWEST, t);
    RestIsKept(s.preset, t);
    ValidIff(s);
    SchemaIsCurrent(s);
    var payload := bytes[FILE_HEADER..];
    assert bytes[FILE_HEADER..offset] + bytes[offset..] == payload;
    PayloadOf(s, presetFile, bytes[FILE_HEADER..offset], bytes[offset..]);
    SealedFile(payload, bytes);
    PresetFitsCount(SCHEMA_VERSION, presetFile);
    EncodesTo(s, presetFile, Bytes(payload), bytes);
  }

  lemma PayloadOf(s: Session, presetFile: seq<u8>, start: seq<u8>, rest: seq<u8>)
    requires StartCodec().enc((s.schemaVersion, presetFile)) == Bytes(start) && RestCodec(NEWEST).enc(RestOf(s)) == Bytes(rest)
    ensures Payload(s, presetFile) == Bytes(start + rest)
  {
    hide StartCodec, RestCodec, RestOf;
  }

  lemma SealedFile(payload: seq<u8>, bytes: seq<u8>)
    requires bytes == FileHeader(|payload|) + payload && |bytes| <= MAX_FILE
    ensures Sealed(Bytes(payload)) == Encoded(bytes)
  {
  }

  lemma EncodesTo(s: Session, presetFile: seq<u8>, payload: Output, bytes: seq<u8>)
    requires Errors(s) == [] && PresetFile.EncodePresetFile(s.preset) == PresetFile.Encoded(presetFile)
    requires |presetFile| <= U32_MAX && Payload(s, presetFile) == payload && Sealed(payload) == Encoded(bytes)
    ensures EncodeSession(s) == Encoded(bytes)
  {
    hide Errors, PresetFile.EncodePresetFile, Payload, Sealed;
  }

  lemma PresetFitsCount(schema: nat, presetFile: seq<u8>)
    requires StartFits((schema, presetFile))
    ensures |presetFile| <= U32_MAX
  {
  }
}
