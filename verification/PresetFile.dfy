/** Preset files: an encoded control response that carries one preset. */
module PresetFile {
  import opened Basics
  import opened Codecs
  import opened WireStream
  import opened WireMessage
  import opened WirePreset
  import opened WireResponse
  import Preset

  datatype Error = InvalidPreset | InvalidPresetFile

  datatype EncodeResult = Encoded(bytes: seq<u8>) | NotEncoded(error: Error)

  datatype DecodeResult = Decoded(preset: Preset.Document) | NotDecoded(error: Error)

  /** preset_response(): accepted, and nothing but the preset. */
  function PresetResponse(commandId: Text, p: Preset.Document): Response {
    Response(commandId, 0, [], true, p, false, NoDiagnostics(), false, NoRecovery(), [], false, [], 0, false, false,
             NoGraph(), false, RuntimeFromTuple(NoRuntime(), []), false, [])
  }

  /** encode_preset_file() */
  function EncodePresetFile(p: Preset.Document): EncodeResult {
    if Preset.Errors(p) != [] then NotEncoded(InvalidPreset)
    else FileOf(EncodeResponse(PresetResponse(Ascii("preset-file"), p)))
  }

  function FileOf(response: Output): EncodeResult {
    match response
    case Unencodable(_, _) => NotEncoded(InvalidPresetFile)
    case Bytes(bytes) => Encoded(bytes)
  }

  /** decode_preset_file() */
  function DecodePresetFile(bytes: seq<u8>): DecodeResult {
    if |bytes| == 0 || |bytes| > MAX_MESSAGE then NotDecoded(InvalidPresetFile)
    else PresetOf(DecodeResponse(bytes))
  }

  function PresetOf(response: Input<Response>): DecodeResult {
    match response
    case Malformed(_, _) => NotDecoded(InvalidPresetFile)
    case Done(r, _) =>
      if r.status != 0 || !r.hasPreset then NotDecoded(InvalidPresetFile)
      else if Preset.Errors(r.preset) != [] then NotDecoded(InvalidPreset)
      else Decoded(r.preset)
  }

  lemma PresetResponseIsNormal(commandId: Text, p: Preset.Document)
    requires FinitePreset(p)
    ensures var r := PresetResponse(commandId, p); Normalized(r) == r && FiniteResponse(r) && ExtensionsMatch(r)
  {
  }

  lemma PresetResponseRoundTrips(commandId: Text, p: Preset.Document, bytes: seq<u8>)
    requires FinitePreset(p) && EncodeResponse(PresetResponse(commandId, p)) == Bytes(bytes)
    ensures DecodeResponse(bytes) == Done(PresetResponse(commandId, p), |bytes|)
  {
    hide *;
    PresetResponseIsNormal(commandId, p);
    ResponsesRoundTrip(PresetResponse(commandId, p), bytes);
  }

  lemma ValidGainsAreFinite(p: Preset.Document)
    requires Preset.Errors(p) == []
    ensures FinitePreset(p)
  {
    Preset.ValidIff(p);
  }

  lemma ResponseSize(r: Response, bytes: seq<u8>)
    requires EncodeResponse(r) == Bytes(bytes)
    ensures 0 < |bytes| <= MAX_MESSAGE
  {
    hide ResponseTuples, ResponseToTuple;
    MessageSize(RESPONSE, ResponseTuples(VERSION), ResponseToTuple(r), bytes);
  }

  /** Every preset that encodes decodes to itself. */
  lemma PresetFilesRoundTrip(p: Preset.Document, bytes: seq<u8>)
    requires EncodePresetFile(p) == Encoded(bytes)
    ensures DecodePresetFile(bytes) == Decoded(p)
  {
    hide PresetResponse, EncodeResponse, DecodePresetFile;
    ValidGainsAreFinite(p);
    FileRoundTrips(PresetResponse(Ascii("preset-file"), p), Ascii("preset-file"), p, bytes);
  }

  lemma FileRoundTrips(r: Response, commandId: Text, p: Preset.Document, bytes: seq<u8>)
    requires r == PresetResponse(commandId, p) && FinitePreset(p) && Preset.Errors(p) == []
    requires EncodeResponse(r) == Bytes(bytes)
    ensures DecodePresetFile(bytes) == Decoded(p)
  {
    hide *;
    ResponseSize(r, bytes);
    PresetResponseRoundTrips(commandId, p, bytes);
    PresetIsFound(commandId, p, Done(PresetResponse(commandId, p), |bytes|));
    Opens(bytes, Done(PresetResponse(commandId, p), |bytes|));
  }

  lemma PresetIsFound(commandId: Text, p: Preset.Document, response: Input<Response>)
    requires response.Done? && response.value == PresetResponse(commandId, p) && Preset.Errors(p) == []
    ensures PresetOf(response) == Decoded(p)
  {
  }

  lemma Opens(bytes: seq<u8>, response: Input<Response>)
    requires 0 < |bytes| <= MAX_MESSAGE && DecodeResponse(bytes) == response
    ensures DecodePresetFile(bytes) == PresetOf(response)
  {
    hide DecodeResponse, PresetOf;
  }

  /** A preset file yields valid presets only, and never the preset of another file that was encoded. */
  lemma EncodingTellsPresetsApart(p: Preset.Document, q: Preset.Document)
    requires EncodePresetFile(p).Encoded? && EncodePresetFile(p) == EncodePresetFile(q)
    ensures p == q
  {
    hide *;
    PresetFilesRoundTrip(p, EncodePresetFile(p).bytes);
    PresetFilesRoundTrip(q, EncodePresetFile(p).bytes);
  }
}
