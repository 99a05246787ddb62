/** From a preset to sound: build_route_matrix() and build_preset_graph() turn the list of routes into a
    dense matrix inside a graph. */
module PresetGraph {
  import opened Basics
  import opened Preset
  import opened AudioBlock
  import opened RouteMatrix
  import opened Graph

  function MatrixKind(): Text {
    Ascii("route_matrix")
  }

  /** The gains after the first `n` routes have been entered. */
  function GainsOf(p: Document, n: nat): (gains: seq<u32>)
    requires BoundRoutes(p) && n <= |p.routes|
    ensures |gains| == |p.outputs| * |p.inputs| && forall k :: 0 <= k < |gains| ==> Finite32(gains[k])
  {
    if n == 0 then ZeroGains(|p.outputs| * |p.inputs|)
    else if p.routes[n - 1].muted then GainsOf(p, n - 1)
    else
      assert Bound(p, p.routes[n - 1]);
      CellInside(OutputOf(p, p.routes[n - 1]), InputOf(p, p.routes[n - 1]), |p.outputs|, |p.inputs|);
      GainsOf(p, n - 1)[CellOf(p, p.routes[n - 1]) := p.routes[n - 1].gain]
  }

  /** A matrix with one gain changed. */
  function Changed(m: Matrix, i: nat, o: nat, gain: u32): Matrix
    requires Shaped(m) && i < |m.inputs| && o < |m.outputs|
  {
    CellInside(o, i, |m.outputs|, |m.inputs|);
    m.(gains := m.gains[o * |m.inputs| + i := gain])
  }

  lemma GainIsCell(m: Matrix, i: nat, o: nat)
    requires |m.gains| == |m.outputs| * |m.inputs| && i < |m.inputs| && o < |m.outputs|
    ensures o * |m.inputs| + i < |m.gains| && GainOf(m, i, o) == m.gains[o * |m.inputs| + i]
  {
    CellInside(o, i, |m.outputs|, |m.inputs|);
  }

  lemma GainAfterChange(m: Matrix, i: nat, p: nat, gain: u32, j: nat, o: nat)
    requires Shaped(m) && i < |m.inputs| && p < |m.outputs| && j < |m.inputs| && o < |m.outputs|
    ensures GainOf(Changed(m, i, p, gain), j, o) == if i == j && p == o then gain else GainOf(m, j, o)
  {
    var width := |m.inputs|;
    var changed, cell := p * width + i, o * width + j;
    CellIsUnique(p, i, o, j, width);
    GainIsCell(m, i, p);
    GainIsCell(m, j, o);
    GainIsCell(m.(gains := m.gains[changed := gain]), j, o);
    assert m.gains[changed := gain][cell] == if changed == cell then gain else m.gains[cell];
  }

  lemma NextMatrix(p: Document, n: nat)
    requires BoundRoutes(p) && n < |p.routes| && Bound(p, p.routes[n])
    ensures MatrixOf(p, n + 1) ==
            if p.routes[n].muted then MatrixOf(p, n)
            else Changed(MatrixOf(p, n), InputOf(p, p.routes[n]), OutputOf(p, p.routes[n]), p.routes[n].gain)
  {
  }

  function CellOf(p: Document, r: Route): nat
    requires Bound(p, r)
  {
    OutputOf(p, r) * |p.inputs| + InputOf(p, r)
  }

  function MatrixOf(p: Document, n: nat): (m: Matrix)
    requires BoundRoutes(p) && n <= |p.routes|
    ensures Shaped(m)
  {
    Matrix(p.inputs, p.outputs, GainsOf(p, n))
  }

  /** The matrix of a preset. */
  function Built(p: Document): (m: Matrix)
    requires BoundRoutes(p)
    ensures Shaped(m)
  {
    MatrixOf(p, |p.routes|)
  }

  lemma FirstPosition(ids: seq<Text>, k: nat)
    requires k < |ids| && ids[k] !in ids[..k]
    ensures IndexOf(ids, ids[k]) == k
  {
    if k > 0 {
      assert ids[0] in ids[..k];
      assert ids[1..][..k - 1] == ids[..k][1..];
      FirstPosition(ids[1..], k - 1);
    }
  }

  ghost predicate IndexMap(indices: map<Text, nat>, endpoints: seq<Endpoint>) {
    && (forall id :: id in indices <==> id in EndpointIds(endpoints))
    && (forall id :: id in indices ==> indices[id] == IndexOf(EndpointIds(endpoints), id))
  }

  /** Maps each id to its position in the list. */
  method Indices(endpoints: seq<Endpoint>) returns (indices: map<Text, nat>)
    ensures IndexMap(indices, endpoints)
  {
    indices := map[];
    ghost var ids := EndpointIds(endpoints);
    for k := 0 to |endpoints|
      invariant forall id :: id in indices <==> id in ids[..k]
      invariant forall id :: id in indices ==> id in ids && indices[id] == IndexOf(ids, id)
    {
      assert ids[..k + 1] == ids[..k] + [ids[k]];
      if endpoints[k].id !in indices {
        FirstPosition(ids, k);
        indices := indices[endpoints[k].id := k];
      }
    }
    assert ids[..|ids|] == ids;
  }

  /** build_route_matrix() */
  method BuildRouteMatrix(p: Document) returns (matrix: RouteMatrix?, errors: seq<Error>)
    ensures errors == Errors(p) && (matrix == null <==> errors != [])
    ensures matrix != null ==> && Valid(p) && fresh(matrix) && fresh(matrix.gains)
                               && matrix.Valid() && matrix.AsValue() == Built(p)
  {
    errors := Validate(p);
    if errors != [] {
      return null, errors;
    }
    matrix := MakeMatrix(p);
  }

  method MakeMatrix(p: Document) returns (matrix: RouteMatrix)
    requires Valid(p)
    ensures fresh(matrix) && fresh(matrix.gains) && matrix.Valid() && matrix.AsValue() == Built(p)
  {
    var inputs := Indices(p.inputs);
    var outputs := Indices(p.outputs);
    matrix := new RouteMatrix(p.inputs, p.outputs);
    EnterRoutes(p, matrix, inputs, outputs);
  }

  method EnterRoutes(p: Document, matrix: RouteMatrix, inputs: map<Text, nat>, outputs: map<Text, nat>)
    requires BoundRoutes(p) && matrix.Valid() && matrix.AsValue() == MatrixOf(p, 0)
    requires IndexMap(inputs, p.inputs) && IndexMap(outputs, p.outputs)
    modifies matrix.gains
    ensures matrix.Valid() && matrix.AsValue() == Built(p)
  {
    for k := 0 to |p.routes|
      invariant matrix.Valid() && matrix.AsValue() == MatrixOf(p, k)
    {
      EnterRoute(p, k, matrix, inputs, outputs);
    }
  }

  method EnterRoute(p: Document, k: nat, matrix: RouteMatrix, inputs: map<Text, nat>, outputs: map<Text, nat>)
    requires BoundRoutes(p) && k < |p.routes| && matrix.Valid() && matrix.AsValue() == MatrixOf(p, k)
    requires IndexMap(inputs, p.inputs) && IndexMap(outputs, p.outputs)
    modifies matrix.gains
    ensures matrix.Valid() && matrix.AsValue() == MatrixOf(p, k + 1)
  {
    var route := p.routes[k];
    assert Bound(p, route);
    NextMatrix(p, k);
    if route.muted {
      return;
    }
    var _ := matrix.SetGain(inputs[route.input], outputs[route.output], route.gain);
  }

  /** What find_route_matrix_node() reports on the first `n` nodes. */
  function KindErrors(nodes: seq<Node>, n: nat): seq<Error>
    requires n <= |nodes|
  {
    if n == 0 then [] else
      KindErrors(nodes, n - 1)
      + if nodes[n - 1].kind != MatrixKind() then [UnsupportedNodeType]
        else When(exists j :: 0 <= j < n - 1 && nodes[j].kind == MatrixKind(), MultipleMatrixNodes)
  }

  function NodeKindErrors(nodes: seq<Node>): seq<Error> {
    KindErrors(nodes, |nodes|)
    + When(forall j :: 0 <= j < |nodes| ==> nodes[j].kind != MatrixKind(), MissingMatrixNode)
  }

  predicate OneMatrixNode(nodes: seq<Node>) {
    |nodes| == 1 && nodes[0].kind == MatrixKind()
  }

  lemma {:induction false} KindErrorsEmpty(nodes: seq<Node>, n: nat)
    requires n <= |nodes|
    ensures KindErrors(nodes, n) == [] <==>
            n == 0 || (n == 1 && nodes[0].kind == MatrixKind())
  {
    if n > 0 {
      KindErrorsEmpty(nodes, n - 1);
    }
  }

  lemma NodeKindErrorsIff(nodes: seq<Node>)
    ensures NodeKindErrors(nodes) == [] <==> OneMatrixNode(nodes)
  {
    KindErrorsEmpty(nodes, |nodes|);
  }

  method FindMatrixNode(nodes: seq<Node>) returns (found: Option<Node>, errors: seq<Error>)
    ensures errors == NodeKindErrors(nodes)
    ensures errors == [] ==> OneMatrixNode(nodes) && found == Some(nodes[0])
  {
    NodeKindErrorsIff(nodes);
    found, errors := None, [];
    for k := 0 to |nodes|
      invariant errors == KindErrors(nodes, k)
      invariant found.None? <==> forall j :: 0 <= j < k ==> nodes[j].kind != MatrixKind()
      invariant k == 1 && found.Some? ==> found == Some(nodes[0])
    {
      if nodes[k].kind == MatrixKind() {
        if found.Some? {
          errors := errors + [MultipleMatrixNodes];
        } else {
          found := Some(nodes[k]);
        }
        continue;
      }
      errors := errors + [UnsupportedNodeType];
    }
    if found.None? {
      errors := errors + [MissingMatrixNode];
    }
  }

  /** GraphBuilder::build() on a list of one node. */
  function BuilderErrors(version: u64, channels: nat, frames: nat, sampleRate: u32, id: Text, name: Text): seq<Error> {
    When(version == 0, GraphInvalidVersion) + When(channels == 0, GraphInvalidChannels)
    + When(frames == 0, GraphInvalidFrames) + When(sampleRate == 0, GraphInvalidSampleRate)
    + When(id == [], GraphEmptyNodeId) + When(name == [], GraphEmptyNodeLabel)
  }

  /** Everything build_preset_graph() refuses. */
  function GraphErrors(p: Document, version: u64): seq<Error> {
    if Errors(p) != [] then Errors(p) else KindOrVersionErrors(p, version)
  }

  function KindOrVersionErrors(p: Document, version: u64): seq<Error> {
    if NodeKindErrors(p.nodes) != [] then NodeKindErrors(p.nodes) else When(version == 0, GraphInvalidVersion)
  }

  predicate Buildable(p: Document) {
    Valid(p) && OneMatrixNode(p.nodes)
  }

  lemma BuildableIff(p: Document, version: u64)
    ensures GraphErrors(p, version) == [] <==> Buildable(p) && version != 0
  {
    ValidIff(p);
    NodeKindErrorsIff(p.nodes);
  }

  /** The graph of a preset. */
  function GraphOf(p: Document, version: u64): GraphValue
    requires Buildable(p)
  {
    GraphValue(version, p.sampleRate, Max(|p.inputs|, |p.outputs|), p.framesPerBlock,
               [p.nodes[0].id], [p.nodes[0].name], [Routes(Built(p))])
  }

  /** build_preset_graph() */
  method BuildPresetGraph(p: Document, version: u64) returns (graph: Graph?, errors: seq<Error>)
    ensures errors == GraphErrors(p, version) && (graph == null <==> errors != [])
    ensures graph != null ==> && Buildable(p) && version != 0 && fresh(graph) && fresh(graph.owned) && graph.Valid()
                              && graph.AsValue() == GraphOf(p, version)
  {
    errors := Validate(p);
    if errors != [] {
      return null, errors;
    }
    graph, errors := BuildValid(p, version);
  }

  method BuildValid(p: Document, version: u64) returns (graph: Graph?, errors: seq<Error>)
    requires Valid(p)
    ensures errors == KindOrVersionErrors(p, version) && (graph == null <==> errors != [])
    ensures graph != null ==> && Buildable(p) && version != 0 && fresh(graph) && fresh(graph.owned) && graph.Valid()
                              && graph.AsValue() == GraphOf(p, version)
  {
    hide Valid, Errors, Built, GraphOf, OneMatrixNode, NodeKindErrors, Graph.AsValue;
    var node;
    node, errors := FindMatrixNode(p.nodes);
    if errors != [] {
      return null, errors;
    }
    ValidIff(p);
    var matrix, matrixErrors := BuildRouteMatrix(p);
    if matrix == null {
      return null, matrixErrors;
    }
    graph, errors := WrapMatrix(p, version, node.value, matrix);
  }

  /** Puts the matrix into a graph of one node, through the graph builder. */
  method WrapMatrix(p: Document, version: u64, node: Preset.Node, matrix: RouteMatrix) returns (graph: Graph?, errors: seq<Error>)
    requires Buildable(p) && node == p.nodes[0] && matrix.Valid() && matrix.AsValue() == Built(p)
    ensures errors == When(version == 0, GraphInvalidVersion) && (graph == null <==> errors != [])
    ensures graph != null ==> && fresh(graph) && graph.owned == {matrix, matrix.gains} && graph.Valid()
                              && graph.AsValue() == GraphOf(p, version)
  {
    var channels := Max(|matrix.inputs|, |matrix.outputs|);
    errors := BuilderErrors(version, channels, p.framesPerBlock, p.sampleRate, node.id, node.name);
    if errors != [] {
      return null, errors;
    }
    graph := new Graph(version, channels, p.framesPerBlock, p.sampleRate, [node.id], [node.name],
                       [MatrixNode(matrix)], {matrix, matrix.gains});
    assert graph.Effects() == [Routes(Built(p))];
  }

  // The sound of a preset.

  /** What a route adds to a sample of an output: its gain times its input, unless it is muted. */
  function Term(inputs: seq<Endpoint>, output: Text, r: Route, input: Block, f: nat): real {
    if !r.muted && r.output == output && r.input in EndpointIds(inputs)
    then Scaled(r.gain, At(input, IndexOf(EndpointIds(inputs), r.input), f)) else 0.0
  }

  /** The sum over all routes of a list. */
  function RouteSum(inputs: seq<Endpoint>, output: Text, routes: seq<Route>, input: Block, f: nat): real {
    if routes == [] then 0.0
    else RouteSum(inputs, output, routes[..|routes| - 1], input, f) + Term(inputs, output, routes[|routes| - 1], input, f)
  }

  lemma {:induction false} ZeroMatrixIsSilent(m: Matrix, input: Block, o: nat, f: nat, n: nat)
    requires forall k :: 0 <= k < |m.gains| ==> m.gains[k] == 0
    ensures Dot(m, input, o, f, n) == 0.0
  {
    if n > 0 {
      ZeroMatrixIsSilent(m, input, o, f, n - 1);
      ZeroIsZero();
      ScaledByZero(0, At(input, n - 1, f));
    }
  }

  /** Changing one gain changes one term of one output. */
  lemma {:induction false} DotAfterChange(m: Matrix, i: nat, p: nat, gain: u32, input: Block, o: nat, f: nat, n: nat)
    requires Shaped(m) && i < |m.inputs| && p < |m.outputs| && n <= |m.inputs| && o < |m.outputs|
    ensures Dot(Changed(m, i, p, gain), input, o, f, n) ==
            Dot(m, input, o, f, n)
            + if p == o && i < n then Scaled(gain, At(input, i, f)) - Scaled(GainOf(m, i, o), At(input, i, f)) else 0.0
  {
    if n > 0 {
      DotAfterChange(m, i, p, gain, input, o, f, n - 1);
      GainAfterChange(m, i, p, gain, n - 1, o);
    }
  }

  /** A crosspoint that no route has set yet is zero. */
  lemma {:induction false} UnsetIsZero(p: Document, n: nat, r: Route)
    requires BoundRoutes(p) && n <= |p.routes| && Bound(p, r)
    requires forall k :: 0 <= k < n ==> !SamePair(p.routes[k], r)
    ensures GainOf(MatrixOf(p, n), InputOf(p, r), OutputOf(p, r)) == 0
  {
    if n > 0 {
      UnsetIsZero(p, n - 1, r);
      assert !SamePair(p.routes[n - 1], r);
      OtherRouteKeepsGain(p, n - 1, r);
    }
  }

  lemma OtherRouteKeepsGain(p: Document, n: nat, r: Route)
    requires BoundRoutes(p) && n < |p.routes| && Bound(p, r) && !SamePair(p.routes[n], r)
    ensures GainOf(MatrixOf(p, n + 1), InputOf(p, r), OutputOf(p, r)) == GainOf(MatrixOf(p, n), InputOf(p, r), OutputOf(p, r))
  {
    var last := p.routes[n];
    assert Bound(p, last);
    NextMatrix(p, n);
    if !last.muted {
      GainAfterChange(MatrixOf(p, n), InputOf(p, last), OutputOf(p, last), last.gain, InputOf(p, r), OutputOf(p, r));
    }
  }

  lemma SameOutput(p: Document, r: Route, o: nat)
    requires ValidEndpoints(p.outputs) && Bound(p, r) && o < |p.outputs|
    ensures OutputOf(p, r) == o <==> r.output == p.outputs[o].id
  {
    var ids := EndpointIds(p.outputs);
    assert ids[o] == p.outputs[o].id && ids[OutputOf(p, r)] == r.output;
  }

  /** Every route joins known endpoints, and no two the same ones. */
  predicate SoundRoutes(p: Document) {
    ValidEndpoints(p.outputs) && BoundRoutes(p) && DistinctPairs(p.routes)
  }

  /** One more route adds its term. */
  lemma NextRouteAddsItsTerm(p: Document, n: nat, input: Block, o: nat, f: nat)
    requires SoundRoutes(p) && n < |p.routes| && o < |p.outputs|
    ensures MatrixSample(MatrixOf(p, n + 1), input, o, f) ==
            MatrixSample(MatrixOf(p, n), input, o, f) + Term(p.inputs, p.outputs[o].id, p.routes[n], input, f)
  {
    var r, m := p.routes[n], MatrixOf(p, n);
    assert Bound(p, r);
    SameOutput(p, r, o);
    NextMatrix(p, n);
    if !r.muted {
      UnsetIsZero(p, n, r);
      ZeroIsZero();
      ScaledByZero(0, At(input, InputOf(p, r), f));
      DotAfterChange(m, InputOf(p, r), OutputOf(p, r), r.gain, input, o, f, |p.inputs|);
    }
  }

  lemma {:induction false} SoundOfFirstRoutes(p: Document, n: nat, input: Block, o: nat, f: nat)
    requires SoundRoutes(p) && n <= |p.routes| && o < |p.outputs|
    ensures MatrixSample(MatrixOf(p, n), input, o, f) == RouteSum(p.inputs, p.outputs[o].id, p.routes[..n], input, f)
  {
    if n == 0 {
      ZeroMatrixIsSilent(MatrixOf(p, 0), input, o, f, |p.inputs|);
      assert p.routes[..0] == [];
    } else {
      SoundOfFirstRoutes(p, n - 1, input, o, f);
      NextRouteAddsItsTerm(p, n - 1, input, o, f);
      assert p.routes[..n][..n - 1] == p.routes[..n - 1];
    }
  }

  /** The dense matrix means the same as the list of routes: each output is the sum, over the unmuted
      routes into it, of gain times input. */
  lemma SoundOfRoutes(p: Document, input: Block, o: nat, f: nat)
    requires Valid(p) && o < |p.outputs|
    ensures MatrixSample(Built(p), input, o, f) == RouteSum(p.inputs, p.outputs[o].id, p.routes, input, f)
  {
    DuplicateCheckIsExact(p);
    SoundOfFirstRoutes(p, |p.routes|, input, o, f);
    assert p.routes[..|p.routes|] == p.routes;
  }

  /** What a graph makes of a block, in a buffer of the given shape. */
  function Heard(g: GraphValue, input: Block, channels: nat, frames: nat): Block {
    Through(g.effects, input, g.channels, g.frames, channels, frames)
  }

  /** So does the graph, on a block of any shape. */
  lemma SoundOfGraph(p: Document, version: u64, input: Block, channels: nat, frames: nat, o: nat, f: nat)
    requires Buildable(p) && o < |p.outputs| && o < channels && f < frames
    ensures At(Heard(GraphOf(p, version), input, channels, frames), o, f)
         == RouteSum(p.inputs, p.outputs[o].id, p.routes, input, f)
  {
    SoundOfRoutes(p, input, o, f);
  }

  /** In any list of routes a muted route sounds like none. */
  lemma {:induction false} MutedSoundsLikeNone(inputs: seq<Endpoint>, output: Text, routes: seq<Route>, k: nat, input: Block, f: nat)
    requires k < |routes|
    ensures RouteSum(inputs, output, routes[k := routes[k].(muted := true)], input, f)
         == RouteSum(inputs, output, routes[..k] + routes[k + 1..], input, f)
  {
    var muted, gone := routes[k := routes[k].(muted := true)], routes[..k] + routes[k + 1..];
    var n := |routes| - 1;
    if k == n {
      assert muted[..n] == gone;
    } else {
      MutedSoundsLikeNone(inputs, output, routes[..n], k, input, f);
      assert muted[..n] == routes[..n][k := routes[k].(muted := true)];
      assert gone[..n - 1] == routes[..n][..k] + routes[..n][k + 1..];
    }
  }
}
