/** Preset documents and their validation. Error messages are left out; an error is its code. */
module Preset {
  import opened Basics

  const MAX_SAMPLE_RATE: nat := 384000
  const MAX_FRAMES: nat := 8192
  const MAX_NODES: nat := 64
  const MAX_CHANNELS: nat := 64
  const MAX_ROUTES: nat := 4096
  const NEWLINE: u8 := 10

  /** `name` is the label. */
  datatype Endpoint = Endpoint(id: Text, name: Text)

  datatype Node = Node(id: Text, name: Text, kind: Text)

  /** `gain` is the bit pattern of a float. */
  datatype Route = Route(input: Text, output: Text, gain: u32, muted: bool)

  datatype Document = Document(
    schemaVersion: u32,
    sampleRate: u32,
    framesPerBlock: u32,
    nodes: seq<Node>,
    inputs: seq<Endpoint>,
    outputs: seq<Endpoint>,
    routes: seq<Route>)

  datatype Error =
    | InvalidSchemaVersion | InvalidSampleRate | SampleRateTooLarge
    | InvalidFramesPerBlock | FramesPerBlockTooLarge
    | TooManyNodes | TooManyInputs | TooManyOutputs | TooManyRoutes
    | EmptyNodeId | DuplicateNodeId | EmptyNodeLabel | EmptyNodeType
    | EmptyEndpointId | DuplicateInputId | DuplicateOutputId | EmptyEndpointLabel
    | EmptyInputs | EmptyOutputs
    | EmptyRouteInput | UnknownRouteInput | EmptyRouteOutput | UnknownRouteOutput
    | InvalidRouteGain | DuplicateRoute
    // build_preset_graph() and the graph builder
    | MultipleMatrixNodes | UnsupportedNodeType | MissingMatrixNode
    | GraphInvalidVersion | GraphInvalidChannels | GraphInvalidFrames | GraphInvalidSampleRate
    | GraphEmptyNodeId | GraphEmptyNodeLabel

  function When(condition: bool, error: Error): seq<Error> {
    if condition then [error] else []
  }

  function EndpointIds(endpoints: seq<Endpoint>): (ids: seq<Text>)
    ensures |ids| == |endpoints| && forall k :: 0 <= k < |ids| ==> ids[k] == endpoints[k].id
  {
    seq(|endpoints|, k requires 0 <= k < |endpoints| => endpoints[k].id)
  }

  function NodeIds(nodes: seq<Node>): (ids: seq<Text>)
    ensures |ids| == |nodes| && forall k :: 0 <= k < |ids| ==> ids[k] == nodes[k].id
  {
    seq(|nodes|, k requires 0 <= k < |nodes| => nodes[k].id)
  }

  /** The two ids of a route, joined by a newline; empty when either of them is. */
  function Key(r: Route): Text {
    if r.input == [] || r.output == [] then [] else r.input + [NEWLINE] + r.output
  }

  function Keys(routes: seq<Route>): (keys: seq<Text>)
    ensures |keys| == |routes| && forall k :: 0 <= k < |keys| ==> keys[k] == Key(routes[k])
  {
    seq(|routes|, k requires 0 <= k < |routes| => Key(routes[k]))
  }

  /** A non-empty entry that occurs earlier in the list. */
  predicate Repeats(ids: seq<Text>, k: nat)
    requires k < |ids|
  {
    ids[k] != [] && ids[k] in ids[..k]
  }

  // What validate_preset() reports, list by list.

  function LimitErrors(p: Document): seq<Error> {
    When(p.schemaVersion == 0, InvalidSchemaVersion)
    + When(p.sampleRate == 0, InvalidSampleRate)
    + When(p.sampleRate > MAX_SAMPLE_RATE, SampleRateTooLarge)
    + When(p.framesPerBlock == 0, InvalidFramesPerBlock)
    + When(p.framesPerBlock > MAX_FRAMES, FramesPerBlockTooLarge)
    + When(|p.nodes| > MAX_NODES, TooManyNodes)
    + When(|p.inputs| > MAX_CHANNELS, TooManyInputs)
    + When(|p.outputs| > MAX_CHANNELS, TooManyOutputs)
    + When(|p.routes| > MAX_ROUTES, TooManyRoutes)
  }

  function NodeErrorsAt(nodes: seq<Node>, k: nat): seq<Error>
    requires k < |nodes|
  {
    When(nodes[k].id == [], EmptyNodeId) + When(Repeats(NodeIds(nodes), k), DuplicateNodeId)
    + When(nodes[k].name == [], EmptyNodeLabel) + When(nodes[k].kind == [], EmptyNodeType)
  }

  function NodeErrors(nodes: seq<Node>, n: nat): seq<Error>
    requires n <= |nodes|
  {
    if n == 0 then [] else NodeErrors(nodes, n - 1) + NodeErrorsAt(nodes, n - 1)
  }

  function EndpointErrorsAt(endpoints: seq<Endpoint>, duplicate: Error, k: nat): seq<Error>
    requires k < |endpoints|
  {
    When(endpoints[k].id == [], EmptyEndpointId) + When(Repeats(EndpointIds(endpoints), k), duplicate)
    + When(endpoints[k].name == [], EmptyEndpointLabel)
  }

  function EndpointErrors(endpoints: seq<Endpoint>, duplicate: Error, n: nat): seq<Error>
    requires n <= |endpoints|
  {
    if n == 0 then [] else EndpointErrors(endpoints, duplicate, n - 1) + EndpointErrorsAt(endpoints, duplicate, n - 1)
  }

  function EndErrors(id: Text, ids: seq<Text>, empty: Error, unknown: Error): seq<Error> {
    if id == [] then [empty] else When(id !in ids, unknown)
  }

  function RouteErrorsAt(p: Document, k: nat): seq<Error>
    requires k < |p.routes|
  {
    EndErrors(p.routes[k].input, EndpointIds(p.inputs), EmptyRouteInput, UnknownRouteInput)
    + EndErrors(p.routes[k].output, EndpointIds(p.outputs), EmptyRouteOutput, UnknownRouteOutput)
    + When(!Finite32(p.routes[k].gain), InvalidRouteGain)
    + When(Repeats(Keys(p.routes), k), DuplicateRoute)
  }

  function RouteErrors(p: Document, n: nat): seq<Error>
    requires n <= |p.routes|
  {
    if n == 0 then [] else RouteErrors(p, n - 1) + RouteErrorsAt(p, n - 1)
  }

  /** The errors that the endpoints and routes of a document cause. */
  function MatrixErrors(p: Document): seq<Error> {
    EndpointErrors(p.inputs, DuplicateInputId, |p.inputs|)
    + EndpointErrors(p.outputs, DuplicateOutputId, |p.outputs|)
    + When(p.inputs == [], EmptyInputs) + When(p.outputs == [], EmptyOutputs)
    + RouteErrors(p, |p.routes|)
  }

  function Errors(p: Document): seq<Error> {
    LimitErrors(p) + NodeErrors(p.nodes, |p.nodes|) + MatrixErrors(p)
  }

  /** The entries a set of already seen ids holds. */
  ghost function Seen(ids: seq<Text>): set<Text> {
    set x | x in ids && x != []
  }

  lemma SeenNext(ids: seq<Text>, k: nat)
    requires k < |ids|
    ensures Seen(ids[..k + 1]) == Seen(ids[..k]) + if ids[k] == [] then {} else {ids[k]}
    ensures Repeats(ids, k) <==> ids[k] in Seen(ids[..k])
  {
    assert ids[..k + 1] == ids[..k] + [ids[k]];
  }

  /** Inserts a non-empty id into the set of seen ids. */
  method Insert(seen: set<Text>, id: Text, ghost ids: seq<Text>, ghost k: nat) returns (repeated: bool, next: set<Text>)
    requires k < |ids| && ids[k] == id && seen == Seen(ids[..k])
    ensures next == Seen(ids[..k + 1]) && repeated == Repeats(ids, k)
  {
    SeenNext(ids, k);
    repeated, next := false, seen;
    if id != [] {
      repeated := id in seen;
      next := seen + {id};
    }
  }

  method CheckNodes(nodes: seq<Node>) returns (errors: seq<Error>)
    ensures errors == NodeErrors(nodes, |nodes|)
  {
    errors := [];
    var seen: set<Text> := {};
    for k := 0 to |nodes|
      invariant seen == Seen(NodeIds(nodes)[..k])
      invariant errors == NodeErrors(nodes, k)
    {
      var node := nodes[k];
      var repeated;
      repeated, seen := Insert(seen, node.id, NodeIds(nodes), k);
      var found := When(node.id == [], EmptyNodeId) + When(repeated, DuplicateNodeId);
      found := found + When(node.name == [], EmptyNodeLabel) + When(node.kind == [], EmptyNodeType);
      assert found == NodeErrorsAt(nodes, k);
      errors := errors + found;
    }
  }

  method CheckEndpoints(endpoints: seq<Endpoint>, duplicate: Error) returns (errors: seq<Error>, ids: set<Text>)
    ensures errors == EndpointErrors(endpoints, duplicate, |endpoints|)
    ensures ids == Seen(EndpointIds(endpoints))
  {
    errors, ids := [], {};
    for k := 0 to |endpoints|
      invariant ids == Seen(EndpointIds(endpoints)[..k])
      invariant errors == EndpointErrors(endpoints, duplicate, k)
    {
      var endpoint := endpoints[k];
      var repeated;
      repeated, ids := Insert(ids, endpoint.id, EndpointIds(endpoints), k);
      var found := When(endpoint.id == [], EmptyEndpointId) + When(repeated, duplicate);
      found := found + When(endpoint.name == [], EmptyEndpointLabel);
      assert found == EndpointErrorsAt(endpoints, duplicate, k);
      errors := errors + found;
    }
    assert EndpointIds(endpoints)[..|endpoints|] == EndpointIds(endpoints);
  }

  method CheckEnd(id: Text, known: set<Text>, ghost ids: seq<Text>, empty: Error, unknown: Error) returns (errors: seq<Error>)
    requires known == Seen(ids)
    ensures errors == EndErrors(id, ids, empty, unknown)
  {
    if id == [] {
      errors := [empty];
    } else if id !in known {
      errors := [unknown];
    } else {
      errors := [];
    }
  }

  method CheckRoute(p: Document, k: nat, inputIds: set<Text>, outputIds: set<Text>, pairs: set<Text>)
    returns (found: seq<Error>, next: set<Text>)
    requires k < |p.routes| && pairs == Seen(Keys(p.routes)[..k])
    requires inputIds == Seen(EndpointIds(p.inputs)) && outputIds == Seen(EndpointIds(p.outputs))
    ensures found == RouteErrorsAt(p, k) && next == Seen(Keys(p.routes)[..k + 1])
  {
    var route := p.routes[k];
    var input := CheckEnd(route.input, inputIds, EndpointIds(p.inputs), EmptyRouteInput, UnknownRouteInput);
    var output := CheckEnd(route.output, outputIds, EndpointIds(p.outputs), EmptyRouteOutput, UnknownRouteOutput);
    var repeated;
    repeated, next := Insert(pairs, Key(route), Keys(p.routes), k);
    found := input + output + When(!Finite32(route.gain), InvalidRouteGain) + When(repeated, DuplicateRoute);
  }

  method CheckRoutes(p: Document, inputIds: set<Text>, outputIds: set<Text>) returns (errors: seq<Error>)
    requires inputIds == Seen(EndpointIds(p.inputs)) && outputIds == Seen(EndpointIds(p.outputs))
    ensures errors == RouteErrors(p, |p.routes|)
  {
    errors := [];
    var pairs: set<Text> := {};
    for k := 0 to |p.routes|
      invariant pairs == Seen(Keys(p.routes)[..k])
      invariant errors == RouteErrors(p, k)
    {
      var found;
      found, pairs := CheckRoute(p, k, inputIds, outputIds, pairs);
      errors := errors + found;
    }
  }

  /** validate_preset() */
  method Validate(p: Document) returns (errors: seq<Error>)
    ensures errors == Errors(p)
    ensures errors == [] <==> Valid(p)
  {
    ValidIff(p);
    errors := LimitErrors(p);
    var nodeErrors := CheckNodes(p.nodes);
    var inputErrors, inputIds := CheckEndpoints(p.inputs, DuplicateInputId);
    var outputErrors, outputIds := CheckEndpoints(p.outputs, DuplicateOutputId);
    var matrixErrors := inputErrors + outputErrors;
    matrixErrors := matrixErrors + When(p.inputs == [], EmptyInputs) + When(p.outputs == [], EmptyOutputs);
    var routeErrors := CheckRoutes(p, inputIds, outputIds);
    matrixErrors := matrixErrors + routeErrors;
    errors := errors + nodeErrors + matrixErrors;
  }

  // What a valid preset is.

  predicate Distinct(ids: seq<Text>) {
    forall j, k :: 0 <= j < k < |ids| ==> ids[j] != ids[k]
  }

  predicate ValidEndpoints(endpoints: seq<Endpoint>) {
    && 0 < |endpoints| <= MAX_CHANNELS && Distinct(EndpointIds(endpoints))
    && forall k :: 0 <= k < |endpoints| ==> endpoints[k].id != [] && endpoints[k].name != []
  }

  /** A route between known endpoints, with a finite gain. */
  predicate Bound(p: Document, r: Route) {
    && r.input != [] && r.input in EndpointIds(p.inputs)
    && r.output != [] && r.output in EndpointIds(p.outputs)
    && Finite32(r.gain)
  }

  predicate ValidNodes(nodes: seq<Node>) {
    && |nodes| <= MAX_NODES && Distinct(NodeIds(nodes))
    && forall k :: 0 <= k < |nodes| ==> nodes[k].id != [] && nodes[k].name != [] && nodes[k].kind != []
  }

  predicate ValidHeader(p: Document) {
    p.schemaVersion != 0 && 0 < p.sampleRate <= MAX_SAMPLE_RATE && 0 < p.framesPerBlock <= MAX_FRAMES
  }

  predicate BoundRoutes(p: Document) {
    forall k :: 0 <= k < |p.routes| ==> Bound(p, p.routes[k])
  }

  predicate Valid(p: Document) {
    && ValidHeader(p) && ValidNodes(p.nodes) && ValidEndpoints(p.inputs) && ValidEndpoints(p.outputs)
    && |p.routes| <= MAX_ROUTES && BoundRoutes(p) && Distinct(Keys(p.routes))
  }

  /** No entry repeats, and none is empty, exactly when the entries are distinct. */
  lemma DistinctIff(ids: seq<Text>, n: nat)
    requires n <= |ids| && forall k :: 0 <= k < n ==> ids[k] != []
    ensures Distinct(ids[..n]) <==> forall k :: 0 <= k < n ==> !Repeats(ids, k)
  {
    if forall k :: 0 <= k < n ==> !Repeats(ids, k) {
      forall j, k | 0 <= j < k < n ensures ids[j] != ids[k] {
        assert !Repeats(ids, k);
        assert ids[..k][j] == ids[j];
      }
    }
    forall k | 0 <= k < n && Repeats(ids, k) ensures !Distinct(ids[..n]) {
      var j :| 0 <= j < k && ids[..k][j] == ids[k];
      assert ids[..n][j] == ids[..n][k];
    }
  }

  lemma {:induction false} NodeErrorsEmpty(nodes: seq<Node>, n: nat)
    requires n <= |nodes|
    ensures NodeErrors(nodes, n) == [] <==>
            forall k :: 0 <= k < n ==> && nodes[k].id != [] && nodes[k].name != [] && nodes[k].kind != []
                                       && !Repeats(NodeIds(nodes), k)
  {
    if n > 0 {
      NodeErrorsEmpty(nodes, n - 1);
    }
  }

  lemma {:induction false} EndpointErrorsEmpty(endpoints: seq<Endpoint>, duplicate: Error, n: nat)
    requires n <= |endpoints|
    ensures EndpointErrors(endpoints, duplicate, n) == [] <==>
            forall k :: 0 <= k < n ==> && endpoints[k].id != [] && endpoints[k].name != []
                                       && !Repeats(EndpointIds(endpoints), k)
  {
    if n > 0 {
      EndpointErrorsEmpty(endpoints, duplicate, n - 1);
    }
  }

  lemma {:induction false} RouteErrorsEmpty(p: Document, n: nat)
    requires n <= |p.routes|
    ensures RouteErrors(p, n) == [] <==>
            forall k :: 0 <= k < n ==> Bound(p, p.routes[k]) && !Repeats(Keys(p.routes), k)
  {
    if n > 0 {
      RouteErrorsEmpty(p, n - 1);
    }
  }

  lemma ValidNodesIff(nodes: seq<Node>)
    ensures NodeErrors(nodes, |nodes|) == [] && |nodes| <= MAX_NODES <==> ValidNodes(nodes)
  {
    NodeErrorsEmpty(nodes, |nodes|);
    if forall k :: 0 <= k < |nodes| ==> NodeIds(nodes)[k] != [] {
      DistinctIff(NodeIds(nodes), |nodes|);
      assert NodeIds(nodes)[..|nodes|] == NodeIds(nodes);
    }
  }

  lemma ValidEndpointsIff(endpoints: seq<Endpoint>, duplicate: Error)
    ensures EndpointErrors(endpoints, duplicate, |endpoints|) == [] && 0 < |endpoints| <= MAX_CHANNELS
       <==> ValidEndpoints(endpoints)
  {
    EndpointErrorsEmpty(endpoints, duplicate, |endpoints|);
    if forall k :: 0 <= k < |endpoints| ==> EndpointIds(endpoints)[k] != [] {
      DistinctIff(EndpointIds(endpoints), |endpoints|);
      assert EndpointIds(endpoints)[..|endpoints|] == EndpointIds(endpoints);
    }
  }

  lemma ValidRoutesIff(p: Document)
    ensures RouteErrors(p, |p.routes|) == [] <==> BoundRoutes(p) && Distinct(Keys(p.routes))
  {
    RouteErrorsEmpty(p, |p.routes|);
    if forall k :: 0 <= k < |p.routes| ==> Keys(p.routes)[k] != [] {
      DistinctIff(Keys(p.routes), |p.routes|);
      assert Keys(p.routes)[..|p.routes|] == Keys(p.routes);
    }
  }

  /** Validation reports no error exactly when the document is valid. */
  lemma ValidIff(p: Document)
    ensures Errors(p) == [] <==> Valid(p)
  {
    ValidNodesIff(p.nodes);
    ValidEndpointsIff(p.inputs, DuplicateInputId);
    ValidEndpointsIff(p.outputs, DuplicateOutputId);
    ValidRoutesIff(p);
    assert LimitErrors(p) == [] <==>
           && ValidHeader(p) && |p.nodes| <= MAX_NODES && |p.inputs| <= MAX_CHANNELS
           && |p.outputs| <= MAX_CHANNELS && |p.routes| <= MAX_ROUTES;
  }

  // The newline-joined key.

  /** The input of `s` goes on past the input of `r`, over a newline that in `r` lies in the output. */
  predicate Shifted(r: Route, s: Route) {
    && |r.input| < |s.input| && s.input[..|r.input|] == r.input && s.input[|r.input|] == NEWLINE
    && r.output == s.input[|r.input| + 1..] + [NEWLINE] + s.output
  }

  predicate SamePair(r: Route, s: Route) {
    r.input == s.input && r.output == s.output
  }

  lemma ShiftedKey(r: Route, s: Route)
    requires r.input + [NEWLINE] + r.output == s.input + [NEWLINE] + s.output && |r.input| < |s.input|
    ensures Shifted(r, s)
  {
    var a, b := r.input + [NEWLINE] + r.output, s.input + [NEWLINE] + s.output;
    assert a[..|r.input|] == r.input && b[..|r.input|] == s.input[..|r.input|];
    assert a[|r.input|] == NEWLINE && b[|r.input|] == s.input[|r.input|];
    assert a[|r.input| + 1..] == r.output;
    assert b[|r.input| + 1..] == s.input[|r.input| + 1..] + [NEWLINE] + s.output;
  }

  lemma KeyOfShifted(r: Route, s: Route)
    requires Shifted(r, s)
    ensures r.input + [NEWLINE] + r.output == s.input + [NEWLINE] + s.output
  {
    assert s.input == r.input + [NEWLINE] + s.input[|r.input| + 1..];
  }

  /** Two routes with non-empty ids share a key exactly when they join the same endpoints, or the input
      of one takes in a newline and part of the output of the other. */
  lemma SameKeyIff(r: Route, s: Route)
    requires r.input != [] && r.output != [] && s.input != [] && s.output != []
    ensures Key(r) == Key(s) <==> SamePair(r, s) || Shifted(r, s) || Shifted(s, r)
  {
    if Key(r) == Key(s) {
      if |r.input| < |s.input| {
        ShiftedKey(r, s);
      } else if |s.input| < |r.input| {
        ShiftedKey(s, r);
      } else {
        assert r.input == Key(r)[..|r.input|] && s.input == Key(s)[..|s.input|];
        assert r.output == Key(r)[|r.input| + 1..] && s.output == Key(s)[|s.input| + 1..];
      }
    }
    if Shifted(r, s) { KeyOfShifted(r, s); }
    if Shifted(s, r) { KeyOfShifted(s, r); }
  }

  predicate DistinctPairs(routes: seq<Route>) {
    forall j, k :: 0 <= j < k < |routes| ==> !SamePair(routes[j], routes[k])
  }

  predicate NoneShifted(routes: seq<Route>) {
    forall j, k :: 0 <= j < |routes| && 0 <= k < |routes| ==> !Shifted(routes[j], routes[k])
  }

  /** Bound routes that define every crosspoint once are accepted exactly when none of them is shifted
      against another; in particular when no input id contains a newline. */
  lemma DuplicateCheckIsExact(p: Document)
    requires BoundRoutes(p)
    ensures Distinct(Keys(p.routes)) <==> DistinctPairs(p.routes) && NoneShifted(p.routes)
    ensures (forall k :: 0 <= k < |p.inputs| ==> NEWLINE !in p.inputs[k].id) ==> NoneShifted(p.routes)
  {
    forall j, k | 0 <= j < |p.routes| && 0 <= k < |p.routes|
      ensures Key(p.routes[j]) == Key(p.routes[k]) <==>
              SamePair(p.routes[j], p.routes[k]) || Shifted(p.routes[j], p.routes[k]) || Shifted(p.routes[k], p.routes[j])
    {
      assert Bound(p, p.routes[j]) && Bound(p, p.routes[k]);
      SameKeyIff(p.routes[j], p.routes[k]);
    }
    if Distinct(Keys(p.routes)) {
      forall j, k | 0 <= j < |p.routes| && 0 <= k < |p.routes| ensures !Shifted(p.routes[j], p.routes[k]) {
        assert j < k ==> Keys(p.routes)[j] != Keys(p.routes)[k];
        assert k < j ==> Keys(p.routes)[k] != Keys(p.routes)[j];
      }
    }
    forall j, k | 0 <= j < |p.routes| && 0 <= k < |p.routes| && Shifted(p.routes[j], p.routes[k])
      ensures exists i :: 0 <= i < |p.inputs| && NEWLINE in p.inputs[i].id
    {
      assert Bound(p, p.routes[k]);
      var i :| 0 <= i < |p.inputs| && EndpointIds(p.inputs)[i] == p.routes[k].input;
      assert NEWLINE in p.inputs[i].id;
    }
  }

  /** The check is not exact on every document: two different crosspoints are refused as one. */
  lemma DifferentCrosspointsRefused(p: Document)
    requires ValidHeader(p) && p.nodes == []
    requires p.inputs == [Endpoint([97], [97]), Endpoint([97, NEWLINE, 98], [98])]
    requires p.outputs == [Endpoint([98, NEWLINE, 99], [99]), Endpoint([99], [100])]
    requires p.routes == [Route([97], [98, NEWLINE, 99], 0, false), Route([97, NEWLINE, 98], [99], 0, false)]
    ensures DistinctPairs(p.routes) && Errors(p) == [DuplicateRoute]
  {
    var inputs, outputs, keys := EndpointIds(p.inputs), EndpointIds(p.outputs), Keys(p.routes);
    assert inputs[0] == [97] && inputs[1] == [97, NEWLINE, 98];
    assert outputs[0] == [98, NEWLINE, 99] && outputs[1] == [99];
    assert keys[0] == [97, NEWLINE, 98, NEWLINE, 99] == keys[1];
    assert p.routes[0].input != p.routes[1].input;
    assert !Repeats(inputs, 0) && !Repeats(outputs, 0) && !Repeats(keys, 0);
    assert inputs[..1] == [inputs[0]] && outputs[..1] == [outputs[0]] && keys[..1] == [keys[0]];
    assert EndpointErrors(p.inputs, DuplicateInputId, 1) == [];
    assert EndpointErrors(p.outputs, DuplicateOutputId, 1) == [];
    assert RouteErrors(p, 1) == [];
  }

  // Crosspoints of the matrix, and why the route limit is never the only reason for a refusal.

  /** The position of an id in a list that contains it; the first, if there are several. */
  function IndexOf(ids: seq<Text>, id: Text): (k: nat)
    requires id in ids
    ensures k < |ids| && ids[k] == id
  {
    if ids[0] == id then 0 else 1 + IndexOf(ids[1..], id)
  }

  function InputOf(p: Document, r: Route): (i: nat)
    requires Bound(p, r)
    ensures i < |p.inputs| && p.inputs[i].id == r.input
  {
    IndexOf(EndpointIds(p.inputs), r.input)
  }

  function OutputOf(p: Document, r: Route): (o: nat)
    requires Bound(p, r)
    ensures o < |p.outputs| && p.outputs[o].id == r.output
  {
    IndexOf(EndpointIds(p.outputs), r.output)
  }

  /** A cell of a dense row-major matrix determines its row and column. */
  lemma CellIsUnique(o: nat, i: nat, p: nat, j: nat, width: nat)
    requires i < width && j < width
    ensures o * width + i == p * width + j <==> o == p && i == j
  {
    var d := o - p;
    assert (o * width + i) - (p * width + j) == d * width + (i - j);
    assert d >= 1 ==> d * width >= width;
    assert d <= -1 ==> d * width + width <= 0;
  }

  lemma CellInside(o: nat, i: nat, height: nat, width: nat)
    requires o < height && i < width
    ensures o * width + i < height * width
  {
    assert (o + 1) * width <= height * width;
  }

  predicate Different(xs: seq<nat>) {
    forall j, k :: 0 <= j < k < |xs| ==> xs[j] != xs[k]
  }

  /** The pigeonhole principle. */
  lemma {:induction false} Pigeonhole(xs: seq<nat>, bound: nat)
    requires Different(xs) && forall k :: 0 <= k < |xs| ==> xs[k] < bound
    ensures |xs| <= bound
  {
    if xs != [] {
      assert xs[0] < bound;
      if j :| 0 <= j < |xs| && xs[j] == bound - 1 {
        Pigeonhole(xs[..j] + xs[j + 1..], bound - 1);
      } else {
        Pigeonhole(xs, bound - 1);
      }
    }
  }

  lemma CrosspointsBoundRoutes(p: Document)
    requires BoundRoutes(p) && DistinctPairs(p.routes)
    ensures |p.routes| <= |p.outputs| * |p.inputs|
  {
    var cells: seq<nat> := seq(|p.routes|, k requires 0 <= k < |p.routes| =>
      assert Bound(p, p.routes[k]);
      OutputOf(p, p.routes[k]) * |p.inputs| + InputOf(p, p.routes[k]));
    forall k | 0 <= k < |cells| ensures cells[k] < |p.outputs| * |p.inputs| {
      assert Bound(p, p.routes[k]);
      CellInside(OutputOf(p, p.routes[k]), InputOf(p, p.routes[k]), |p.outputs|, |p.inputs|);
    }
    forall j, k | 0 <= j < k < |cells| ensures cells[j] != cells[k] {
      assert Bound(p, p.routes[j]) && Bound(p, p.routes[k]);
      assert !SamePair(p.routes[j], p.routes[k]);
      CellIsUnique(OutputOf(p, p.routes[j]), InputOf(p, p.routes[j]),
                   OutputOf(p, p.routes[k]), InputOf(p, p.routes[k]), |p.inputs|);
    }
    Pigeonhole(cells, |p.outputs| * |p.inputs|);
  }

  lemma EndpointErrorIsOther(endpoints: seq<Endpoint>, duplicate: Error, k: nat)
    requires k < |endpoints| && duplicate != TooManyRoutes
    ensures TooManyRoutes !in EndpointErrorsAt(endpoints, duplicate, k)
  {
  }

  lemma RouteErrorIsOther(p: Document, k: nat)
    requires k < |p.routes|
    ensures TooManyRoutes !in RouteErrorsAt(p, k)
  {
  }

  lemma {:induction false} RouteErrorsAreOther(p: Document, n: nat)
    requires n <= |p.routes|
    ensures TooManyRoutes !in RouteErrors(p, n)
  {
    if n > 0 {
      RouteErrorsAreOther(p, n - 1);
      RouteErrorIsOther(p, n - 1);
    }
  }

  lemma {:induction false} EndpointErrorsAreOther(endpoints: seq<Endpoint>, duplicate: Error, n: nat)
    requires n <= |endpoints| && duplicate != TooManyRoutes
    ensures TooManyRoutes !in EndpointErrors(endpoints, duplicate, n)
  {
    if n > 0 {
      EndpointErrorsAreOther(endpoints, duplicate, n - 1);
      EndpointErrorIsOther(endpoints, duplicate, n - 1);
    }
  }

  lemma MatrixErrorsAreOther(p: Document)
    ensures TooManyRoutes !in MatrixErrors(p)
  {
    EndpointErrorsAreOther(p.inputs, DuplicateInputId, |p.inputs|);
    EndpointErrorsAreOther(p.outputs, DuplicateOutputId, |p.outputs|);
    RouteErrorsAreOther(p, |p.routes|);
  }

  /** The routes of a sound matrix are no more than its crosspoints. */
  lemma RoutesFit(p: Document)
    requires MatrixErrors(p) == [] && |p.inputs| <= MAX_CHANNELS && |p.outputs| <= MAX_CHANNELS
    ensures |p.routes| <= |p.outputs| * |p.inputs| <= MAX_ROUTES
  {
    assert RouteErrors(p, |p.routes|) == [];
    ValidRoutesIff(p);
    DuplicateCheckIsExact(p);
    CrosspointsBoundRoutes(p);
    Area(|p.outputs|, |p.inputs|);
  }

  lemma Area(height: nat, width: nat)
    requires height <= MAX_CHANNELS && width <= MAX_CHANNELS
    ensures height * width <= MAX_ROUTES
  {
    assert height * width <= MAX_CHANNELS * width;
  }

  lemma OtherError(p: Document, part: seq<Error>, e: Error)
    requires part == LimitErrors(p) || part == MatrixErrors(p)
    requires e in part && e != TooManyRoutes
    ensures exists e :: e in Errors(p) && e != TooManyRoutes
  {
    assert e in Errors(p);
  }

  /** The limit of 4096 routes is never the sole reason for refusing a document. */
  lemma RouteLimitNeverSole(p: Document)
    requires |p.routes| > MAX_ROUTES
    ensures exists e :: e in Errors(p) && e != TooManyRoutes
  {
    if |p.inputs| > MAX_CHANNELS {
      OtherError(p, LimitErrors(p), TooManyInputs);
    } else if |p.outputs| > MAX_CHANNELS {
      OtherError(p, LimitErrors(p), TooManyOutputs);
    } else {
      MatrixErrorsAreOther(p);
      if MatrixErrors(p) == [] {
        RoutesFit(p);
      }
      OtherError(p, MatrixErrors(p), MatrixErrors(p)[0]);
    }
  }
}
