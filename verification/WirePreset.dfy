/** The encoding of presets. The codecs give the format; the methods write and read it field by field and
    in loops, as the source does. Records are seen as nested tuples of up to four fields. */
module WirePreset {
  import opened Basics
  import opened Codecs
  import opened WireStream
  import Preset

  function EndpointToTuple(e: Preset.Endpoint): (Text, Text) {
    (e.id, e.name)
  }

  function EndpointFromTuple(t: (Text, Text)): Preset.Endpoint {
    Preset.Endpoint(t.0, t.1)
  }

  function EndpointTuples(): Codec<(Text, Text)> {
    Two(String(), String(), Any())
  }

  function EndpointCodec(): Codec<Preset.Endpoint> {
    Record(EndpointTuples(), EndpointToTuple, EndpointFromTuple, Any())
  }

  lemma EndpointLawful()
    ensures SoundOn(EndpointCodec(), Any())
  {
    StringLawful();
    TwoLawful(String(), String(), Any());
    RecordLawful(EndpointTuples(), EndpointToTuple, EndpointFromTuple, Any());
  }

  function NodeToTuple(n: Preset.Node): (Text, (Text, Text)) {
    (n.id, (n.name, n.kind))
  }

  function NodeFromTuple(t: (Text, (Text, Text))): Preset.Node {
    Preset.Node(t.0, t.1.0, t.1.1)
  }

  function NodeTuples(): Codec<(Text, (Text, Text))> {
    Three(String(), String(), String(), Any())
  }

  function NodeCodec(): Codec<Preset.Node> {
    Record(NodeTuples(), NodeToTuple, NodeFromTuple, Any())
  }

  lemma NodeLawful()
    ensures SoundOn(NodeCodec(), Any())
  {
    StringLawful();
    ThreeLawful(String(), String(), String(), Any());
    RecordLawful(NodeTuples(), NodeToTuple, NodeFromTuple, Any());
  }

  type RouteTuple = (Text, (Text, (u32, bool)))

  function RouteToTuple(r: Preset.Route): RouteTuple {
    (r.input, (r.output, (r.gain, r.muted)))
  }

  function RouteFromTuple(t: RouteTuple): Preset.Route {
    Preset.Route(t.0, t.1.0, t.1.1.0, t.1.1.1)
  }

  predicate FiniteTuple(t: RouteTuple) {
    Finite32(t.1.1.0)
  }

  predicate FiniteRoute(r: Preset.Route) {
    Finite32(r.gain)
  }

  function RouteTuples(): Codec<RouteTuple> {
    Four(String(), String(), Float32(), Boolean(), FiniteTuple)
  }

  function RouteCodec(): Codec<Preset.Route> {
    Record(RouteTuples(), RouteToTuple, RouteFromTuple, FiniteRoute)
  }

  lemma RouteLawful()
    ensures SoundOn(RouteCodec(), FiniteRoute)
  {
    StringLawful();
    Float32Lawful();
    BooleanLawful();
    FourLawful(String(), String(), Float32(), Boolean(), FiniteTuple);
    RecordLawful(RouteTuples(), RouteToTuple, RouteFromTuple, FiniteRoute);
  }

  predicate AllFinite(rs: seq<Preset.Route>) {
    forall k :: 0 <= k < |rs| ==> Finite32(rs[k].gain)
  }

  function NodesCodec(): Codec<seq<Preset.Node>> {
    AnyList(NodeCodec())
  }

  lemma NodesLawful()
    ensures SoundOn(NodesCodec(), Any())
  {
    NodeLawful();
    AnyListLawful(NodeCodec());
  }

  function EndpointsCodec(): Codec<seq<Preset.Endpoint>> {
    AnyList(EndpointCodec())
  }

  lemma EndpointsLawful()
    ensures SoundOn(EndpointsCodec(), Any())
  {
    EndpointLawful();
    AnyListLawful(EndpointCodec());
  }

  function RoutesCodec(): Codec<seq<Preset.Route>> {
    ListOf(RouteCodec(), Any(), AllFinite)
  }

  lemma RoutesLawful()
    ensures SoundOn(RoutesCodec(), AllFinite)
  {
    RouteLawful();
    ListOfLawful(RouteCodec(), Any(), AllFinite);
  }

  type Format = (u32, (u32, u32))

  type Lists = (seq<Preset.Node>, (seq<Preset.Endpoint>, (seq<Preset.Endpoint>, seq<Preset.Route>)))

  predicate FiniteLists(t: Lists) {
    AllFinite(t.1.1.1)
  }

  predicate FiniteParts(t: (Format, Lists)) {
    FiniteLists(t.1)
  }

  /** The presets that decode are those whose gains are finite. */
  predicate FinitePreset(p: Preset.Document) {
    AllFinite(p.routes)
  }

  function FormatCodec(): Codec<Format> {
    Three(U32(), U32(), U32(), Any())
  }

  lemma FormatLawful()
    ensures SoundOn(FormatCodec(), Any())
  {
    U32Lawful();
    ThreeLawful(U32(), U32(), U32(), Any());
  }

  function ListsCodec(): Codec<Lists> {
    Four(NodesCodec(), EndpointsCodec(), EndpointsCodec(), RoutesCodec(), FiniteLists)
  }

  lemma ListsLawful()
    ensures SoundOn(ListsCodec(), FiniteLists)
  {
    NodesLawful();
    EndpointsLawful();
    RoutesLawful();
    FourLawful(NodesCodec(), EndpointsCodec(), EndpointsCodec(), RoutesCodec(), FiniteLists);
  }

  function FormatOf(p: Preset.Document): Format {
    (p.schemaVersion, (p.sampleRate, p.framesPerBlock))
  }

  function ListsOf(p: Preset.Document): Lists {
    (p.nodes, (p.inputs, (p.outputs, p.routes)))
  }

  function PresetToTuple(p: Preset.Document): (Format, Lists) {
    (FormatOf(p), ListsOf(p))
  }

  function PresetFromTuple(t: (Format, Lists)): Preset.Document {
    Preset.Document(t.0.0, t.0.1.0, t.0.1.1, t.1.0, t.1.1.0, t.1.1.1.0, t.1.1.1.1)
  }

  function PresetTuples(): Codec<(Format, Lists)> {
    Two(FormatCodec(), ListsCodec(), FiniteParts)
  }

  function PresetCodec(): Codec<Preset.Document> {
    Record(PresetTuples(), PresetToTuple, PresetFromTuple, FinitePreset)
  }

  lemma PresetLawful()
    ensures SoundOn(PresetCodec(), FinitePreset)
  {
    FormatLawful();
    ListsLawful();
    TwoLawful(FormatCodec(), ListsCodec(), FiniteParts);
    RecordLawful(PresetTuples(), PresetToTuple, PresetFromTuple, FinitePreset);
  }

  // Field by field.

  method EncodeEndpoint(w: Writer, e: Preset.Endpoint)
    modifies w
    ensures Wrote(old(w.Result()), w.Result(), EndpointCodec(), e)
  {
    ghost var s0 := w.Result();
    w.String(e.id);
    ghost var s1 := w.Result();
    w.String(e.name);
    WroteTwo(String(), String(), Any(),
             s0, s1, w.Result(), e.id, e.name);
    WroteRecord(EndpointTuples(), EndpointToTuple, EndpointFromTuple, Any(), s0, w.Result(), e);
  }

  method EncodeNode(w: Writer, n: Preset.Node)
    modifies w
    ensures Wrote(old(w.Result()), w.Result(), NodeCodec(), n)
  {
    ghost var s0 := w.Result();
    w.String(n.id);
    ghost var s1 := w.Result();
    w.String(n.name);
    ghost var s2 := w.Result();
    w.String(n.kind);
    WroteThree(String(), String(), String(), Any(),
             s0, s1, s2, w.Result(), n.id, n.name, n.kind);
    WroteRecord(NodeTuples(), NodeToTuple, NodeFromTuple, Any(), s0, w.Result(), n);
  }

  method EncodeRoute(w: Writer, e: Preset.Route)
    modifies w
    ensures Wrote(old(w.Result()), w.Result(), RouteCodec(), e)
  {
    ghost var s0 := w.Result();
    w.String(e.input);
    ghost var s1 := w.Result();
    w.String(e.output);
    ghost var s2 := w.Result();
    w.Float32(e.gain);
    ghost var s3 := w.Result();
    w.Boolean(e.muted);
    WroteFour(String(), String(), Float32(), Boolean(), FiniteTuple,
             s0, s1, s2, s3, w.Result(), e.input, e.output, e.gain, e.muted);
    WroteRecord(RouteTuples(), RouteToTuple, RouteFromTuple, FiniteRoute, s0, w.Result(), e);
  }

  method EncodeNodes(w: Writer, xs: seq<Preset.Node>)
    modifies w
    ensures Wrote(old(w.Result()), w.Result(), NodesCodec(), xs)
  {
    ghost var s := w.Result();
    w.Count(|xs|);
    ghost var t := w.Result();
    for k := 0 to |xs|
      invariant WroteSome(t, w.Result(), NodeCodec(), xs[..k])
    {
      ghost var u := w.Result();
      EncodeNode(w, xs[k]);
      WroteNext(NodeCodec(), t, u, w.Result(), xs, k);
    }
    assert xs[..|xs|] == xs;
    WroteList(NodeCodec(), Any(), Any(), s, t, w.Result(), xs);
  }

  method EncodeEndpoints(w: Writer, xs: seq<Preset.Endpoint>)
    modifies w
    ensures Wrote(old(w.Result()), w.Result(), EndpointsCodec(), xs)
  {
    ghost var s := w.Result();
    w.Count(|xs|);
    ghost var t := w.Result();
    for k := 0 to |xs|
      invariant WroteSome(t, w.Result(), EndpointCodec(), xs[..k])
    {
      ghost var u := w.Result();
      EncodeEndpoint(w, xs[k]);
      WroteNext(EndpointCodec(), t, u, w.Result(), xs, k);
    }
    assert xs[..|xs|] == xs;
    WroteList(EndpointCodec(), Any(), Any(), s, t, w.Result(), xs);
  }

  method EncodeRoutes(w: Writer, xs: seq<Preset.Route>)
    modifies w
    ensures Wrote(old(w.Result()), w.Result(), RoutesCodec(), xs)
  {
    ghost var s := w.Result();
    w.Count(|xs|);
    ghost var t := w.Result();
    for k := 0 to |xs|
      invariant WroteSome(t, w.Result(), RouteCodec(), xs[..k])
    {
      ghost var u := w.Result();
      EncodeRoute(w, xs[k]);
      WroteNext(RouteCodec(), t, u, w.Result(), xs, k);
    }
    assert xs[..|xs|] == xs;
    WroteList(RouteCodec(), Any(), AllFinite, s, t, w.Result(), xs);
  }

  method EncodeFormat(w: Writer, p: Preset.Document)
    modifies w
    ensures Wrote(old(w.Result()), w.Result(), FormatCodec(), FormatOf(p))
  {
    ghost var s0 := w.Result();
    w.U32(p.schemaVersion);
    ghost var s1 := w.Result();
    w.U32(p.sampleRate);
    ghost var s2 := w.Result();
    w.U32(p.framesPerBlock);
    WroteThree(U32(), U32(), U32(), Any(),
             s0, s1, s2, w.Result(), p.schemaVersion, p.sampleRate, p.framesPerBlock);
  }

  method EncodeLists(w: Writer, p: Preset.Document)
    modifies w
    ensures Wrote(old(w.Result()), w.Result(), ListsCodec(), ListsOf(p))
  {
    ghost var s0 := w.Result();
    EncodeNodes(w, p.nodes);
    ghost var s1 := w.Result();
    EncodeEndpoints(w, p.inputs);
    ghost var s2 := w.Result();
    EncodeEndpoints(w, p.outputs);
    ghost var s3 := w.Result();
    EncodeRoutes(w, p.routes);
    WroteFour(NodesCodec(), EndpointsCodec(), EndpointsCodec(), RoutesCodec(), FiniteLists,
             s0, s1, s2, s3, w.Result(), p.nodes, p.inputs, p.outputs, p.routes);
  }

  /** encode_preset() */
  method EncodePreset(w: Writer, p: Preset.Document)
    modifies w
    ensures Wrote(old(w.Result()), w.Result(), PresetCodec(), p)
  {
    ghost var s0 := w.Result();
    EncodeFormat(w, p);
    ghost var s1 := w.Result();
    EncodeLists(w, p);
    WroteTwo(FormatCodec(), ListsCodec(), FiniteParts,
             s0, s1, w.Result(), FormatOf(p), ListsOf(p));
    WroteRecord(PresetTuples(), PresetToTuple, PresetFromTuple, FinitePreset, s0, w.Result(), p);
  }

  method DecodeEndpoint(r: Reader) returns (e: Preset.Endpoint)
    requires r.Valid()
    modifies r`offset, r`error
    ensures r.Valid() && Reads(EndpointCodec(), r.input, old(r.State()), r.State(), e)
  {
    ghost var s0 := r.State();
    var id := r.String();
    ghost var s1 := r.State();
    var name := r.String();
    ReadsTwo(String(), String(), Any(), r.input,
             s0, s1, r.State(), id, name);
    ReadsRecord(EndpointTuples(), EndpointToTuple, EndpointFromTuple, Any(), r.input, s0, r.State(), (id, name));
    e := Preset.Endpoint(id, name);
  }

  method DecodeNode(r: Reader) returns (n: Preset.Node)
    requires r.Valid()
    modifies r`offset, r`error
    ensures r.Valid() && Reads(NodeCodec(), r.input, old(r.State()), r.State(), n)
  {
    ghost var s0 := r.State();
    var id := r.String();
    ghost var s1 := r.State();
    var name := r.String();
    ghost var s2 := r.State();
    var kind := r.String();
    ReadsThree(String(), String(), String(), Any(), r.input,
             s0, s1, s2, r.State(), id, name, kind);
    ReadsRecord(NodeTuples(), NodeToTuple, NodeFromTuple, Any(), r.input, s0, r.State(), (id, (name, kind)));
    n := Preset.Node(id, name, kind);
  }

  method DecodeRoute(r: Reader) returns (e: Preset.Route)
    requires r.Valid()
    modifies r`offset, r`error
    ensures r.Valid() && Reads(RouteCodec(), r.input, old(r.State()), r.State(), e)
  {
    ghost var s0 := r.State();
    var input := r.String();
    ghost var s1 := r.State();
    var output := r.String();
    ghost var s2 := r.State();
    var gain := r.Float32();
    ghost var s3 := r.State();
    var muted := r.Boolean();
    ReadsFour(String(), String(), Float32(), Boolean(), FiniteTuple, r.input,
             s0, s1, s2, s3, r.State(), input, output, gain, muted);
    ReadsRecord(RouteTuples(), RouteToTuple, RouteFromTuple, FiniteRoute, r.input, s0, r.State(), (input, (output, (gain, muted))));
    e := Preset.Route(input, output, gain, muted);
  }

  method DecodeNodes(r: Reader) returns (xs: seq<Preset.Node>)
    requires r.Valid()
    modifies r`offset, r`error
    ensures r.Valid() && Reads(NodesCodec(), r.input, old(r.State()), r.State(), xs)
  {
    ghost var s := r.State();
    var n := r.Count();
    ghost var t := r.State();
    xs := [];
    if r.Ok() {
      ProgressStarts(NodeCodec(), r.input, t, n);
      while |xs| < n && r.Ok()
        invariant r.Valid() && Progress(NodeCodec(), r.input, t, r.State(), n, xs)
        decreases n - |xs|
      {
        ghost var u := r.State();
        var x := DecodeNode(r);
        ProgressNext(NodeCodec(), r.input, t, u, r.State(), n, xs, x);
        xs := xs + [x];
      }
    }
    ReadsList(NodeCodec(), Any(), Any(), r.input, s, t, r.State(), n, xs);
  }

  method DecodeEndpoints(r: Reader) returns (xs: seq<Preset.Endpoint>)
    requires r.Valid()
    modifies r`offset, r`error
    ensures r.Valid() && Reads(EndpointsCodec(), r.input, old(r.State()), r.State(), xs)
  {
    ghost var s := r.State();
    var n := r.Count();
    ghost var t := r.State();
    xs := [];
    if r.Ok() {
      ProgressStarts(EndpointCodec(), r.input, t, n);
      while |xs| < n && r.Ok()
        invariant r.Valid() && Progress(EndpointCodec(), r.input, t, r.State(), n, xs)
        decreases n - |xs|
      {
        ghost var u := r.State();
        var x := DecodeEndpoint(r);
        ProgressNext(EndpointCodec(), r.input, t, u, r.State(), n, xs, x);
        xs := xs + [x];
      }
    }
    ReadsList(EndpointCodec(), Any(), Any(), r.input, s, t, r.State(), n, xs);
  }

  method DecodeRoutes(r: Reader) returns (xs: seq<Preset.Route>)
    requires r.Valid()
    modifies r`offset, r`error
    ensures r.Valid() && Reads(RoutesCodec(), r.input, old(r.State()), r.State(), xs)
  {
    ghost var s := r.State();
    var n := r.Count();
    ghost var t := r.State();
    xs := [];
    if r.Ok() {
      ProgressStarts(RouteCodec(), r.input, t, n);
      while |xs| < n && r.Ok()
        invariant r.Valid() && Progress(RouteCodec(), r.input, t, r.State(), n, xs)
        decreases n - |xs|
      {
        ghost var u := r.State();
        var x := DecodeRoute(r);
        ProgressNext(RouteCodec(), r.input, t, u, r.State(), n, xs, x);
        xs := xs + [x];
      }
    }
    ReadsList(RouteCodec(), Any(), AllFinite, r.input, s, t, r.State(), n, xs);
  }

  method DecodeFormat(r: Reader) returns (t: Format)
    requires r.Valid()
    modifies r`offset, r`error
    ensures r.Valid() && Reads(FormatCodec(), r.input, old(r.State()), r.State(), t)
  {
    ghost var s0 := r.State();
    var schemaVersion := r.U32();
    ghost var s1 := r.State();
    var sampleRate := r.U32();
    ghost var s2 := r.State();
    var frames := r.U32();
    ReadsThree(U32(), U32(), U32(), Any(), r.input,
             s0, s1, s2, r.State(), schemaVersion, sampleRate, frames);
    t := (schemaVersion, (sampleRate, frames));
  }

  method DecodeLists(r: Reader) returns (t: Lists)
    requires r.Valid()
    modifies r`offset, r`error
    ensures r.Valid() && Reads(ListsCodec(), r.input, old(r.State()), r.State(), t)
  {
    ghost var s0 := r.State();
    var nodes := DecodeNodes(r);
    ghost var s1 := r.State();
    var inputs := DecodeEndpoints(r);
    ghost var s2 := r.State();
    var outputs := DecodeEndpoints(r);
    ghost var s3 := r.State();
    var routes := DecodeRoutes(r);
    ReadsFour(NodesCodec(), EndpointsCodec(), EndpointsCodec(), RoutesCodec(), FiniteLists, r.input,
             s0, s1, s2, s3, r.State(), nodes, inputs, outputs, routes);
    t := (nodes, (inputs, (outputs, routes)));
  }

  /** decode_preset() */
  method DecodePreset(r: Reader) returns (p: Preset.Document)
    requires r.Valid()
    modifies r`offset, r`error
    ensures r.Valid() && Reads(PresetCodec(), r.input, old(r.State()), r.State(), p)
  {
    ghost var s0 := r.State();
    var format := DecodeFormat(r);
    ghost var s1 := r.State();
    var lists := DecodeLists(r);
    ReadsTwo(FormatCodec(), ListsCodec(), FiniteParts, r.input,
             s0, s1, r.State(), format, lists);
    ReadsRecord(PresetTuples(), PresetToTuple, PresetFromTuple, FinitePreset, r.input, s0, r.State(), (format, lists));
    p := PresetFromTuple((format, lists));
  }
}
