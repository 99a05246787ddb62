/** What the decoders of the current version refuse although the encoders write it: floats that are not
    finite. With that, the round trips hold if and only if the message meets their condition. */
module WireRefusals {
  import opened Basics
  import opened Codecs
  import opened Refusals
  import opened WireStream
  import opened WireMessage
  import opened WirePreset
  import opened WireCommand
  import opened WireResponse
  import ControlCommand
  import Preset

  lemma AnyStrict<T(!new)>(c: Codec<T>)
    requires LawfulOn(c, Any())
    ensures StrictOn(c, Any(), InvalidValue)
  {
    FullStrict(c, Any(), InvalidValue);
  }

  // Presets.

  lemma RouteStrict()
    ensures StrictOn(RouteCodec(), FiniteRoute, InvalidValue)
  {
    StringLawful();
    AnyStrict(String());
    Float32Strict();
    BooleanLawful();
    AnyStrict(Boolean());
    FourStrict(String(), String(), Float32(), Boolean(), Any(), Any(), Finite32, Any(), FiniteTuple, InvalidValue);
    RouteLawful();
    RecordStrict(RouteTuples(), RouteToTuple, RouteFromTuple, FiniteTuple, FiniteRoute, InvalidValue);
  }

  lemma ListsStrict()
    ensures StrictOn(ListsCodec(), FiniteLists, InvalidValue)
  {
    NodesLawful();
    AnyStrict(NodesCodec());
    EndpointsLawful();
    AnyStrict(EndpointsCodec());
    RouteLawful();
    RouteStrict();
    hide NodesCodec, EndpointsCodec, RouteCodec, StrictOn, Finite32;
    RoutesStrict();
    FourStrict(NodesCodec(), EndpointsCodec(), EndpointsCodec(), RoutesCodec(), Any(), Any(), Any(), AllFinite, FiniteLists,
               InvalidValue);
  }

  lemma RoutesStrict()
    ensures StrictOn(RoutesCodec(), AllFinite, InvalidValue)
  {
    RouteLawful();
    RouteStrict();
    ListStrict(RouteCodec(), FiniteRoute, AllFinite, InvalidValue);
  }

  lemma PresetStrict()
    ensures StrictOn(PresetCodec(), FinitePreset, InvalidValue)
  {
    FormatLawful();
    AnyStrict(FormatCodec());
    ListsStrict();
    TwoStrict(FormatCodec(), ListsCodec(), Any(), FiniteLists, FiniteParts, InvalidValue);
    PresetLawful();
    RecordStrict(PresetTuples(), PresetToTuple, PresetFromTuple, FiniteParts, FinitePreset, InvalidValue);
  }

  // Commands.

  lemma ValuesStrict()
    ensures StrictOn(ValuesCodec(), FiniteValues, InvalidValue)
  {
    Float32Strict();
    BooleanLawful();
    AnyStrict(Boolean());
    PresetStrict();
    hide PresetCodec, Float32, Boolean, FinitePreset, Finite32;
    ThreeStrict(Float32(), Boolean(), PresetCodec(), Finite32, Any(), FinitePreset, FiniteValues, InvalidValue);
  }

  lemma LabelStrict()
    ensures StrictOn(LabelCodec(VERSION), LabelFits(VERSION), InvalidValue)
  {
    LabelLawful(VERSION);
    hide LabelCodec;
    forall t: Label ensures LabelFits(VERSION)(t) {
      assert KindUpTo(VERSION)(t.1.1);
    }
    FullStrict(LabelCodec(VERSION), LabelFits(VERSION), InvalidValue);
  }

  lemma FourStringsStrict()
    ensures StrictOn(FourStrings(), Any(), InvalidValue)
  {
    FourStringsLawful();
    hide FourStrings;
    AnyStrict(FourStrings());
  }

  lemma HeadStrict()
    ensures StrictOn(HeadCodec(VERSION), HeadFits(VERSION), InvalidValue)
  {
    hide LabelCodec, FourStrings, ValuesCodec, LabelFits, FiniteValues, StrictOn;
    LabelStrict();
    FourStringsStrict();
    ValuesStrict();
    ThreeStrict(LabelCodec(VERSION), FourStrings(), ValuesCodec(), LabelFits(VERSION), Any(), FiniteValues, HeadFits(VERSION), InvalidValue);
  }

  /** The head comes first. */
  lemma BodyStops(b: Body)
    requires !HeadFits(VERSION)(b.0)
    ensures Stops(BodyCodec(VERSION), b, InvalidValue)
  {
    HeadStrict();
    hide HeadCodec, RuntimeCodec, DriverCodec, DevicesCodec, HeadFits;
    var rest := Three(RuntimeCodec(VERSION), DriverCodec(VERSION), DevicesCodec(VERSION),
                      AllThreeOk(RuntimeCodec(VERSION), DriverCodec(VERSION), DevicesCodec(VERSION)));
    FirstStops(HeadCodec(VERSION), rest, BodyFits(VERSION), b, InvalidValue);
  }

  lemma HeadOfCommand(c: ControlCommand.Command)
    ensures HeadFits(VERSION)(HeadOf(c)) <==> FiniteGains(c)
  {
    assert KindUpTo(VERSION)(c.kind);
    assert LabelFits(VERSION)(HeadOf(c).0);
  }

  lemma CommandStops(c: ControlCommand.Command)
    requires !FiniteGains(c)
    ensures Stops(CommandCodec(VERSION), c, InvalidValue)
  {
    HeadOfCommand(c);
    var t := CommandToTuple(c);
    assert t.0.0 == HeadOf(c);
    hide HeadFits, BodyCodec, CommandToTuple, CommandFromTuple, ExtensionsAfter, Expressible;
    BodyStops(t.0);
    FirstDependentStops(BodyCodec(VERSION), ExtensionsAfter(VERSION), ExtendedFits(VERSION), t, InvalidValue);
    RecordStops(Extended(BodyCodec(VERSION), VERSION), CommandToTuple, CommandFromTuple, Expressible(VERSION), c, InvalidValue);
  }

  /** A command that encodes decodes to itself if its gains are finite; otherwise the decoder refuses it. */
  lemma CommandsDecodeIff(c: ControlCommand.Command, bytes: seq<u8>)
    requires EncodeMessage(COMMAND, CommandCodec(VERSION), c) == Bytes(bytes)
    ensures FiniteGains(c) ==> DecodeMessage(COMMAND, CommandCodec, bytes) == Done(c, |bytes|)
    ensures !FiniteGains(c) ==> Refuses(DecodeMessage(COMMAND, CommandCodec, bytes), InvalidValue)
  {
    hide *;
    if FiniteGains(c) {
      CommandsRoundTrip(c, bytes);
    } else {
      CommandStops(c);
      CommandKind();
      StoppedMessage(COMMAND, CommandCodec, c, bytes, InvalidValue);
    }
  }

  lemma CommandKind()
    ensures COMMAND < 0x1_0000 && RESPONSE < 0x1_0000
  {
  }

  // Responses.

  lemma DiagnosticsStrict()
    ensures StrictOn(DiagnosticsCodec(), FiniteDiagnostics, InvalidValue)
  {
    CountersLawful();
    AnyStrict(CountersCodec());
    Float64Strict();
    FourStrict(CountersCodec(), Float64(), Float64(), Float64(), Any(), Finite64, Finite64, Finite64, FiniteLevels, InvalidValue);
    DiagnosticsLawful();
    RecordStrict(DiagnosticsTuples(), DiagnosticsToTuple, DiagnosticsFromTuple, FiniteLevels, FiniteDiagnostics, InvalidValue);
  }

  lemma EndpointStartStrict()
    ensures StrictOn(EndpointStartCodec(), FiniteStart, InvalidValue)
  {
    StringLawful();
    AnyStrict(String());
    BinaryLawful();
    AnyStrict(BinaryCodec());
    DiagnosticsStrict();
    hide DiagnosticsCodec, String, BinaryCodec, FiniteDiagnostics;
    ThreeStrict(String(), BinaryCodec(), DiagnosticsCodec(), Any(), Any(), FiniteDiagnostics, FiniteStart, InvalidValue);
  }

  lemma EndpointRestStrict()
    ensures StrictOn(EndpointRestCodec(), FiniteRest, InvalidValue)
  {
    RecoveryLawful();
    AnyStrict(RecoveryCodec());
    OptionalStrict(RecoveryCodec(), Any(), NoRecovery(), InvalidValue);
    U64Lawful();
    AnyStrict(U64());
    OptionalStrict(U64(), Any(), 0, InvalidValue);
    Float64Strict();
    OptionalStrict(Float64(), Finite64, 0, InvalidValue);
    hide RecoveryCodec, NoRecovery, U64, Float64, Finite64, Optional;
    ThreeStrict(Optional(RecoveryCodec(), Any(), NoRecovery()), Optional(U64(), Any(), 0), Optional(Float64(), Finite64, 0),
                IfSome(Any()), IfSome(Any()), IfSome(Finite64), FiniteRest, InvalidValue);
  }

  lemma EndpointListStrict()
    ensures StrictOn(EndpointListCodec(), AllFiniteEndpoints, InvalidValue)
  {
    EndpointStartStrict();
    EndpointRestStrict();
    EndpointDiagnosticsLawful();
    hide EndpointStartCodec, EndpointRestCodec, FiniteStart, FiniteRest;
    TwoStrict(EndpointStartCodec(), EndpointRestCodec(), FiniteStart, FiniteRest, FiniteBoth, InvalidValue);
    EndpointIsFinite();
    hide FiniteEndpoint, FiniteBoth;
    RecordStrict(EndpointDiagnosticsTuples(), EndpointDiagnosticsToTuple, EndpointDiagnosticsFromTuple, FiniteBoth, FiniteEndpoint,
                 InvalidValue);
    ListStrict(EndpointDiagnosticsCodec(), FiniteEndpoint, AllFiniteEndpoints, InvalidValue);
  }

  lemma EndpointIsFinite()
    ensures forall e: EndpointDiagnostics :: FiniteEndpoint(e) <==> FiniteBoth(EndpointDiagnosticsToTuple(e))
  {
  }

  /** The diagnostics, or the diagnostics of an endpoint, are not finite. */
  lemma ReportStops(t: Report)
    requires !FiniteDiagnostics(t.0) || !AllFiniteEndpoints(t.1.1)
    requires FlagFits(Any(), NoRecovery())(t.1.0)
    ensures Stops(ReportCodec(VERSION), t, InvalidValue)
  {
    DiagnosticsStrict();
    EndpointListStrict();
    RecoveryLawful();
    FlaggedLawful(RecoveryCodec(), Any(), NoRecovery());
    hide FiniteDiagnostics, AllFiniteEndpoints, EndpointListCodec, DiagnosticsCodec, RecoveryCodec, Flagged, NoRecovery, FlagFits;
    var flag, list := Flagged(RecoveryCodec(), Any(), NoRecovery()), EndpointFieldCodec(VERSION);
    var rest := Two(flag, list, BothOk(flag, list));
    assert rest == Two(flag, list, BothOk(flag, list));
    if FiniteDiagnostics(t.0) {
      FieldStops(VERSION >= 10, EndpointListCodec(), [], EndpointsOk(VERSION), t.1.1, InvalidValue);
      SecondStops(flag, list, BothOk(flag, list), t.1, InvalidValue);
      SecondStops(DiagnosticsCodec(), rest, ReportFits(VERSION), t, InvalidValue);
    } else {
      FirstStops(DiagnosticsCodec(), rest, ReportFits(VERSION), t, InvalidValue);
    }
  }

  /** The parts of the documents behind the first flag. */
  function Flags(): Codec<((bool, Preset.Document), ((bool, Report), (bool, seq<Device>)))> {
    Three(PresetFlag(), ReportFlag(VERSION), DevicesFlag(VERSION),
          AllThreeOk(PresetFlag(), ReportFlag(VERSION), DevicesFlag(VERSION)))
  }

  lemma PresetFlagStops(t: Documents)
    requires t.1.0.0 && !FinitePreset(t.1.0.1)
    ensures Stops(Flags(), t.1, InvalidValue)
  {
    PresetStrict();
    FlagStops(PresetCodec(), FinitePreset, NoPreset(), t.1.0.1, InvalidValue);
    hide PresetFlag, ReportFlag, DevicesFlag, PresetCodec, Flagged;
    var rest := Two(ReportFlag(VERSION), DevicesFlag(VERSION), BothOk(ReportFlag(VERSION), DevicesFlag(VERSION)));
    PresetFlagIs();
    FirstStops(PresetFlag(), rest, AllThreeOk(PresetFlag(), ReportFlag(VERSION), DevicesFlag(VERSION)), t.1, InvalidValue);
  }

  lemma PresetFlagIs()
    ensures PresetFlag() == Flagged(PresetCodec(), FinitePreset, NoPreset())
  {
  }

  lemma ReportFlagIs()
    ensures ReportFlag(VERSION) == Flagged(ReportCodec(VERSION), ReportFits(VERSION), NoReport())
  {
  }

  lemma PresetFlagRoundTrips()
    ensures RoundTrips(PresetFlag()) && PresetFlag().ok == FlagFits(FinitePreset, NoPreset())
  {
    PresetLawful();
    FlaggedLawful(PresetCodec(), FinitePreset, NoPreset());
  }

  lemma ReportFlagStops(t: Documents)
    requires FlagFits(FinitePreset, NoPreset())(t.1.0) && t.1.1.0.0
    requires Stops(ReportCodec(VERSION), t.1.1.0.1, InvalidValue)
    ensures Stops(Flags(), t.1, InvalidValue)
  {
    hide PresetFlag, ReportFlag, DevicesFlag, ReportCodec, ReportFits, NoReport, Flagged, FlagFits, NoPreset;
    FlagStops(ReportCodec(VERSION), ReportFits(VERSION), NoReport(), t.1.1.0.1, InvalidValue);
    ReportFlagIs();
    PresetFlagRoundTrips();
    var rest := Two(ReportFlag(VERSION), DevicesFlag(VERSION), BothOk(ReportFlag(VERSION), DevicesFlag(VERSION)));
    FirstStops(ReportFlag(VERSION), DevicesFlag(VERSION), BothOk(ReportFlag(VERSION), DevicesFlag(VERSION)), t.1.1, InvalidValue);
    SecondStops(PresetFlag(), rest, AllThreeOk(PresetFlag(), ReportFlag(VERSION), DevicesFlag(VERSION)), t.1, InvalidValue);
  }

  lemma DocumentsStop(t: Documents)
    requires Stops(Flags(), t.1, InvalidValue)
    ensures Stops(DocumentsCodec(VERSION), t, InvalidValue)
  {
    StartLawful();
    hide StartCodec, PresetFlag, ReportFlag, DevicesFlag, DocumentsFit;
    SecondStops(StartCodec(), Flags(), DocumentsFit(VERSION), t, InvalidValue);
  }

  lemma FlagsOfNormal(r: Response, t: Documents)
    requires t == DocumentsOf(Normalized(r))
    ensures t.1.0.0 == r.hasPreset && (r.hasPreset ==> t.1.0.1 == r.preset) && t.1.1.0.0 == r.hasDiagnostics
    ensures (r.hasPreset && !FinitePreset(r.preset)) || FlagFits(FinitePreset, NoPreset())(t.1.0)
  {
    hide FinitePreset;
  }

  lemma ReportOfNormal(r: Response, t: Documents)
    requires t == DocumentsOf(Normalized(r)) && r.hasDiagnostics
    ensures t.1.1.0.1.0 == r.diagnostics && t.1.1.0.1.1.1 == r.endpointDiagnostics
    ensures FlagFits(Any(), NoRecovery())(t.1.1.0.1.1.0)
  {
  }

  lemma NotFiniteInDiagnostics(r: Response)
    requires !FiniteResponse(r) && !(r.hasPreset && !FinitePreset(r.preset))
    ensures r.hasDiagnostics && (!FiniteDiagnostics(r.diagnostics) || !AllFiniteEndpoints(r.endpointDiagnostics))
  {
    hide FinitePreset, FiniteDiagnostics, AllFiniteEndpoints;
  }

  /** A response that is not finite stops the decoder in its documents, as they are written. */
  lemma NormalDocumentsStop(r: Response)
    requires !FiniteResponse(r)
    ensures Stops(DocumentsCodec(VERSION), DocumentsOf(Normalized(r)), InvalidValue)
  {
    hide *;
    var t := DocumentsOf(Normalized(r));
    FlagsOfNormal(r, t);
    if r.hasPreset && !FinitePreset(r.preset) {
      PresetFlagStops(t);
    } else {
      NotFiniteInDiagnostics(r);
      ReportOfNormal(r, t);
      ReportStops(t.1.1.0.1);
      ReportFlagStops(t);
    }
    DocumentsStop(t);
  }

  /** What is written for a response: its fields as they decode, and its own extension list. */
  function AsWritten(r: Response): ResponseTuple {
    (ResponseToTuple(Normalized(r)).0, ResponseToTuple(r).1)
  }

  lemma EncodedAsWritten(r: Response)
    ensures EncodeResponse(r) == EncodeMessage(RESPONSE, ResponseTuples(VERSION), AsWritten(r))
  {
    SameBody(r);
    hide ResponseBodyCodec, ResponseToTuple, Normalized, TuplesOver, EncodeMessage;
    SameTuples(ResponseBodyCodec(VERSION), ResponseToTuple(r), AsWritten(r));
    SameEncoding(RESPONSE, ResponseTuples(VERSION), ResponseToTuple(r), AsWritten(r));
  }

  lemma WrittenDocuments(r: Response)
    ensures AsWritten(r).0.0 == DocumentsOf(Normalized(r))
  {
    hide DocumentsOf, RuntimesOf, Normalized;
  }

  lemma WrittenStops(r: Response)
    requires !FiniteResponse(r)
    ensures Stops(ResponseTuples(VERSION), AsWritten(r), InvalidValue)
  {
    NormalDocumentsStop(r);
    WrittenDocuments(r);
    hide DocumentsCodec, RuntimesCodec, AsWritten, DocumentsOf, Normalized, ResponseFits, ExtensionsBehind, FiniteResponse;
    var t := AsWritten(r);
    FirstStops(DocumentsCodec(VERSION), RuntimesCodec(VERSION), ResponseBodyFits(VERSION), t.0, InvalidValue);
    FirstDependentStops(ResponseBodyCodec(VERSION), ExtensionsBehind(VERSION), ResponseFits(VERSION), t, InvalidValue);
  }

  lemma NotFiniteIsRefused(r: Response, bytes: seq<u8>)
    requires !FiniteResponse(r) && EncodeResponse(r) == Bytes(bytes)
    ensures Refuses(DecodeResponse(bytes), InvalidValue)
  {
    hide *;
    EncodedAsWritten(r);
    WrittenStops(r);
    CommandKind();
    StoppedMessage(RESPONSE, ResponseTuples, AsWritten(r), bytes, InvalidValue);
    RefusedResponse(bytes, InvalidValue);
  }

  /** An extension list of the wrong length is refused after its count. */
  lemma UnexpectedListStops(xs: seq<Extension>)
    requires xs != []
    ensures Stops(ExtensionsCodec(VERSION, 0), xs, InvalidValue)
  {
    var c := ExtensionsCodec(VERSION, 0);
    forall input: seq<u8>, offset: nat | |input| < U32_MODULUS && c.enc(xs).Bytes? && At(input, offset, c.enc(xs).bytes)
      ensures Refuses(c.dec(input, offset), InvalidValue)
    {
      RefusedList(xs, c.enc(xs).bytes, input, offset);
    }
  }

  lemma MismatchStops(body: Codec<ResponseBody>, t: ResponseTuple)
    requires SoundOn(body, ResponseBodyFits(VERSION)) && ResponseBodyFits(VERSION)(t.0) && |EndpointsOf(t.0)| == 0 && t.1 != []
    ensures Stops(TuplesOver(body, VERSION), t, InvalidValue)
  {
    UnexpectedListStops(t.1);
    assert ExtensionsBehind(VERSION)(t.0) == ExtensionsCodec(VERSION, 0);
    hide ExtensionsCodec, ResponseBodyFits, ResponseFits, ExtensionsBehind, EndpointsOf, Stops;
    DependentStops(body, ExtensionsBehind(VERSION), ResponseFits(VERSION), t, InvalidValue);
  }

  lemma MismatchedParts(r: Response, t: ResponseTuple)
    requires FiniteResponse(r) && !ExtensionsMatch(r) && t == AsWritten(r)
    ensures ResponseBodyFits(VERSION)(t.0) && |EndpointsOf(t.0)| == 0 && t.1 != []
  {
    hide ResponseBodyFits, EndpointsOf, DocumentsOf, RuntimesOf, Normalized, FiniteResponse;
    NormalBody(r);
    assert |t.1| == |r.runtime.configuration.endpoints|;
  }

  lemma MismatchedWrittenStops(r: Response)
    requires FiniteResponse(r) && !ExtensionsMatch(r)
    ensures Stops(ResponseTuples(VERSION), AsWritten(r), InvalidValue)
  {
    hide ResponseBodyCodec, ResponseBodyFits, EndpointsOf, TuplesOver, Stops, SoundOn, ResponseToTuple, Normalized, AsWritten;
    hide FiniteResponse, ExtensionsMatch;
    ResponseBodyLawful(VERSION);
    MismatchedParts(r, AsWritten(r));
    MismatchStops(ResponseBodyCodec(VERSION), AsWritten(r));
  }

  /** With runtime endpoints but no runtime flag the decoder refuses the message: the list is written whether
      the flag is set or not, but it is checked against the endpoints that were decoded behind the flag. */
  lemma MismatchedResponsesAreRefused(r: Response, bytes: seq<u8>)
    requires !ExtensionsMatch(r) && EncodeResponse(r) == Bytes(bytes)
    ensures Refuses(DecodeResponse(bytes), InvalidValue)
  {
    hide *;
    if FiniteResponse(r) {
      EncodedAsWritten(r);
      MismatchedWrittenStops(r);
      CommandKind();
      StoppedMessage(RESPONSE, ResponseTuples, AsWritten(r), bytes, InvalidValue);
      RefusedResponse(bytes, InvalidValue);
    } else {
      NotFiniteIsRefused(r, bytes);
    }
  }

  /** A response that encodes decodes to itself, every field behind a false flag reset, if its floats are
      finite and its extension list matches; otherwise the decoder refuses it. */
  lemma ResponsesDecodeIff(r: Response, bytes: seq<u8>)
    requires EncodeResponse(r) == Bytes(bytes)
    ensures FiniteResponse(r) && ExtensionsMatch(r) ==> DecodeResponse(bytes) == Done(Normalized(r), |bytes|)
    ensures !FiniteResponse(r) || !ExtensionsMatch(r) ==> Refuses(DecodeResponse(bytes), InvalidValue)
  {
    hide *;
    if !FiniteResponse(r) {
      NotFiniteIsRefused(r, bytes);
    } else if ExtensionsMatch(r) {
      ResponsesRoundTrip(r, bytes);
    } else {
      MismatchedResponsesAreRefused(r, bytes);
    }
  }
}
