/** Graph: a list of nodes through which a block passes, alternating between two scratch buffers. The
    meters' readings and the callback diagnostics are left out. */
module Graph {
  import opened Basics
  import opened AudioBlock
  import opened RouteMatrix

  /** A node as a value; gains are bit patterns. */
  datatype Effect =
    | Passthrough
    | Gain(gain: u32)
    | Mute(muted: bool)
    | Meter
    | Bus(width: nat)
    | Polarity(inverted: bool)
    | Routes(matrix: Matrix)

  /** The sum of every `step`-th channel from `first` on, below `n`. */
  function Strided(input: Block, first: nat, step: nat, n: nat, f: nat): real
    decreases n
  {
    if n <= first then 0.0
    else Strided(input, first, step, n - 1, f) + if step > 0 && (n - 1 - first) % step == 0 then At(input, n - 1, f) else 0.0
  }

  /** A sample of a node's output, in a buffer of `channels` channels. */
  function Sample(node: Effect, input: Block, channels: nat, c: nat, f: nat): real {
    match node
    case Passthrough => At(input, c, f)
    case Gain(gain) => Scaled(gain, At(input, c, f))
    case Mute(muted) => if muted then 0.0 else At(input, c, f)
    case Meter => At(input, c, f)
    case Bus(width) => if c < width then Strided(input, c, Min(channels, width), |input|, f) else 0.0
    case Polarity(inverted) => if inverted then -At(input, c, f) else At(input, c, f)
    case Routes(matrix) => MatrixSample(matrix, input, c, f)
  }

  /** What a node makes of a block, in a buffer of the given shape. */
  function Apply(node: Effect, input: Block, channels: nat, frames: nat): (r: Block)
    ensures |r| == channels
    ensures forall c :: 0 <= c < channels ==> |r[c]| == frames
    ensures forall c, f :: 0 <= c < channels && 0 <= f < frames ==> r[c][f] == Sample(node, input, channels, c, f)
  {
    seq(channels, c requires 0 <= c < channels =>
      seq(frames, f requires 0 <= f < frames => Sample(node, input, channels, c, f)))
  }

  /** The first `n` nodes, one after the other, through buffers of one shape. */
  function Chain(nodes: seq<Effect>, n: nat, input: Block, channels: nat, frames: nat): Block
    requires n <= |nodes|
  {
    if n == 0 then input else Apply(nodes[n - 1], Chain(nodes, n - 1, input, channels, frames), channels, frames)
  }

  /** The meaning of a graph: its nodes from left to right, the last one into the output buffer. */
  function Through(nodes: seq<Effect>, input: Block, channels: nat, frames: nat, outChannels: nat, outFrames: nat): Block {
    if nodes == [] then Reshaped(input, outChannels, outFrames)
    else Apply(nodes[|nodes| - 1], Chain(nodes, |nodes| - 1, input, channels, frames), outChannels, outFrames)
  }

  /** A node as an object of the graph; only a route matrix is shared. */
  datatype GraphNode =
    | PassthroughNode
    | GainNode(gain: u32)
    | MuteNode(muted: bool)
    | MeterNode
    | BusNode(width: nat)
    | PolarityNode(inverted: bool)
    | MatrixNode(matrix: RouteMatrix)

  /** The objects a node refers to. */
  ghost function Parts(node: GraphNode): set<object> {
    if node.MatrixNode? then {node.matrix, node.matrix.gains} else {}
  }

  ghost predicate NodeValid(node: GraphNode)
    reads Parts(node)
  {
    node.MatrixNode? ==> node.matrix.Valid()
  }

  ghost function EffectOf(node: GraphNode): Effect
    reads Parts(node)
  {
    match node
    case PassthroughNode => Passthrough
    case GainNode(gain) => Gain(gain)
    case MuteNode(muted) => Mute(muted)
    case MeterNode => Meter
    case BusNode(width) => Bus(width)
    case PolarityNode(inverted) => Polarity(inverted)
    case MatrixNode(matrix) => Routes(matrix.AsValue())
  }

  ghost predicate HoldsOutput(buffer: array2<real>, node: Effect, input: Block)
    reads buffer
  {
    forall c, f :: 0 <= c < buffer.Length0 && 0 <= f < buffer.Length1 ==>
      buffer[c, f] == Sample(node, input, buffer.Length0, c, f)
  }

  lemma HoldsApplied(buffer: array2<real>, node: Effect, input: Block)
    requires HoldsOutput(buffer, node, input)
    ensures Value(buffer) == Apply(node, input, buffer.Length0, buffer.Length1)
  {
    var v, r := Value(buffer), Apply(node, input, buffer.Length0, buffer.Length1);
    forall c | 0 <= c < buffer.Length0 ensures v[c] == r[c] {
      forall f | 0 <= f < buffer.Length1 ensures v[c][f] == r[c][f] {
        assert buffer[c, f] == Sample(node, input, buffer.Length0, c, f);
      }
    }
  }

  method ProcessGain(gain: u32, input: array2<real>, output: array2<real>)
    requires input != output && Silent(output)
    modifies output
    ensures HoldsOutput(output, Gain(gain), Value(input))
  {
    ScaledSilence(gain);
    var channels, frames := Min(input.Length0, output.Length0), Min(input.Length1, output.Length1);
    for c := 0 to channels
      invariant forall i, f :: 0 <= i < c && 0 <= f < output.Length1 ==> output[i, f] == Scaled(gain, At(Value(input), i, f))
      invariant forall i, f :: c <= i < output.Length0 && 0 <= f < output.Length1 ==> output[i, f] == 0.0
    {
      forall f | 0 <= f < frames {
        output[c, f] := Scaled(gain, input[c, f]);
      }
    }
  }

  method ProcessPolarity(inverted: bool, input: array2<real>, output: array2<real>)
    requires input != output && Silent(output)
    modifies output
    ensures HoldsOutput(output, Polarity(inverted), Value(input))
  {
    if !inverted {
      CopyFrom(input, output);
      return;
    }
    var channels, frames := Min(input.Length0, output.Length0), Min(input.Length1, output.Length1);
    for c := 0 to channels
      invariant forall i, f :: 0 <= i < c && 0 <= f < output.Length1 ==> output[i, f] == -At(Value(input), i, f)
      invariant forall i, f :: c <= i < output.Length0 && 0 <= f < output.Length1 ==> output[i, f] == 0.0
    {
      forall f | 0 <= f < frames {
        output[c, f] := -input[c, f];
      }
    }
  }

  /** Between two channels of one stride nothing is summed. */
  lemma {:induction false} StridedGap(input: Block, first: nat, step: nat, low: nat, high: nat, f: nat)
    requires step > 0 && first < low <= high && (low - 1 - first) % step == 0 && high <= low - 1 + step
    ensures Strided(input, first, step, high, f) == Strided(input, first, step, low, f)
    decreases high
  {
    if low < high {
      StridedGap(input, first, step, low, high - 1, f);
      var gap := high - low;
      assert high - 1 - first == (low - 1 - first) + gap && 0 < gap < step;
      NotAMultiple(low - 1 - first, gap, step);
    }
  }

  lemma NotAMultiple(base: nat, gap: nat, step: nat)
    requires 0 < gap < step && base % step == 0
    ensures (base + gap) % step != 0
  {
    var q := base / step;
    assert base + gap == q * step + gap;
    var r := (base + gap) / step;
    assert base + gap == r * step + (base + gap) % step;
    assert gap - (base + gap) % step == (r - q) * step;
    assert r - q >= 1 ==> (r - q) * step >= step;
    assert r - q <= 0 ==> (r - q) * step <= 0;
    assert r - q <= -1 ==> (r - q) * step + step <= 0;
  }

  /** Sums every `step`-th channel of one frame. */
  method SumStrided(input: array2<real>, first: nat, step: nat, f: nat) returns (sum: real)
    requires step > 0 && f < input.Length1
    ensures sum == Strided(Value(input), first, step, input.Length0, f)
  {
    sum := 0.0;
    var c := first;
    while c < input.Length0
      invariant first <= c && (c - first) % step == 0
      invariant sum == Strided(Value(input), first, step, Min(c, input.Length0), f)
    {
      StridedGap(Value(input), first, step, c + 1, Min(c + step, input.Length0), f);
      NextStride(c - first, step);
      sum := sum + input[c, f];
      c := c + step;
    }
  }

  lemma NextStride(n: nat, step: nat)
    requires step > 0 && n % step == 0
    ensures (n + step) % step == 0
  {
    var d := n / step + 1 - (n + step) / step;
    assert (n + step) % step == d * step;
    assert d >= 1 ==> d * step >= step;
    assert d <= -1 ==> d * step + step <= 0;
  }

  method ProcessBus(width: nat, input: array2<real>, output: array2<real>)
    requires input != output && Silent(output)
    modifies output
    ensures HoldsOutput(output, Bus(width), Value(input))
  {
    var frames, channels := Min(input.Length1, output.Length1), Min(output.Length0, width);
    if channels == 0 {
      return;
    }
    for f := 0 to frames
      invariant forall c, g :: 0 <= c < channels && 0 <= g < f ==>
                  output[c, g] == Strided(Value(input), c, channels, |Value(input)|, g)
      invariant forall c, g :: 0 <= c < output.Length0 && 0 <= g < output.Length1 && (c >= channels || g >= f) ==>
                  output[c, g] == 0.0
    {
      for c := 0 to channels
        invariant forall i, g :: 0 <= i < channels && 0 <= g <= f && (g < f || i < c) ==>
                    output[i, g] == Strided(Value(input), i, channels, |Value(input)|, g)
        invariant forall i, g :: 0 <= i < output.Length0 && 0 <= g < output.Length1 && (i >= channels || g > f || (g == f && i >= c)) ==>
                    output[i, g] == 0.0
      {
        var sum := SumStrided(input, c, channels, f);
        output[c, f] := sum;
      }
    }
    forall c, g | 0 <= c < output.Length0 && frames <= g < output.Length1
      ensures Strided(Value(input), c, channels, |Value(input)|, g) == 0.0
    {
      StridedPastFrames(Value(input), c, channels, |Value(input)|, g);
    }
  }

  lemma {:induction false} StridedPastFrames(input: Block, first: nat, step: nat, n: nat, f: nat)
    requires forall c :: 0 <= c < |input| ==> |input[c]| <= f
    ensures Strided(input, first, step, n, f) == 0.0
  {
    if n > first {
      StridedPastFrames(input, first, step, n - 1, f);
    }
  }

  /** A node's process(), into a cleared buffer. */
  method ProcessNode(node: GraphNode, input: array2<real>, output: array2<real>)
    requires NodeValid(node) && input != output && Silent(output)
    modifies output
    ensures HoldsOutput(output, EffectOf(node), Value(input))
  {
    match node
    case PassthroughNode => CopyOver(input, output);
    case GainNode(gain) => ProcessGain(gain, input, output);
    case MuteNode(muted) =>
      if muted {
        Clear(output);
      } else {
        CopyFrom(input, output);
      }
    case MeterNode => CopyFrom(input, output);
    case BusNode(width) => ProcessBus(width, input, output);
    case PolarityNode(inverted) => ProcessPolarity(inverted, input, output);
    case MatrixNode(matrix) => matrix.Process(input, output);
  }

  /** A node's real-time parameters can be taken over: both are matrices with the same endpoint ids, or
      neither is a matrix. */
  predicate Agree(a: Effect, b: Effect) {
    if a.Routes? then b.Routes? && Compatible(a.matrix, b.matrix) else !b.Routes?
  }

  /** How many nodes agree before the first one that does not. */
  function Agreeing(a: seq<Effect>, b: seq<Effect>): (n: nat)
    requires |a| == |b|
    ensures n <= |a| && (forall k :: 0 <= k < n ==> Agree(a[k], b[k])) && (n < |a| ==> !Agree(a[n], b[n]))
  {
    if a == [] || !Agree(a[0], b[0]) then 0 else 1 + Agreeing(a[1..], b[1..])
  }

  /** A node with the gains of another. */
  function TakeOver(a: Effect, b: Effect): Effect {
    if a.Routes? && b.Routes? then Routes(a.matrix.(gains := b.matrix.gains)) else a
  }

  /** The first `n` nodes with the gains of their counterparts. */
  function TakenOver(a: seq<Effect>, b: seq<Effect>, n: nat): (r: seq<Effect>)
    requires n <= |a| == |b|
    ensures |r| == |a| && forall k :: 0 <= k < |r| ==> r[k] == if k < n then TakeOver(a[k], b[k]) else a[k]
  {
    seq(|a|, k requires 0 <= k < |a| => if k < n then TakeOver(a[k], b[k]) else a[k])
  }

  /** When apply_realtime_parameters_from() succeeds. */
  predicate Accepts(ids: seq<Text>, a: seq<Effect>, sourceIds: seq<Text>, b: seq<Effect>)
    requires |ids| == |a| && |sourceIds| == |b|
  {
    ids == sourceIds && Agreeing(a, b) == |a|
  }

  /** The nodes it leaves behind, whether it succeeds or not. */
  function Updated(ids: seq<Text>, a: seq<Effect>, sourceIds: seq<Text>, b: seq<Effect>): seq<Effect>
    requires |ids| == |a| && |sourceIds| == |b|
  {
    if ids == sourceIds then TakenOver(a, b, Agreeing(a, b)) else a
  }

  /** The matrices among the first `n` nodes have the gains of their counterparts. */
  predicate SameGains(a: seq<Effect>, b: seq<Effect>, n: nat)
    requires n <= |a| == |b|
  {
    forall k :: 0 <= k < n && a[k].Routes? && b[k].Routes? ==> a[k].matrix.gains == b[k].matrix.gains
  }

  /** An update that is refused leaves the graph as it was exactly if the node ids differ (or the number of
      nodes, which is the number of ids), or every matrix before the first node that does not agree had
      the gains of its counterpart already; so always in a graph of one node. */
  lemma RefusedIsUnchangedIff(ids: seq<Text>, a: seq<Effect>, sourceIds: seq<Text>, b: seq<Effect>)
    requires |ids| == |a| && |sourceIds| == |b| && !Accepts(ids, a, sourceIds, b)
    ensures Updated(ids, a, sourceIds, b) == a <==> ids != sourceIds || SameGains(a, b, Agreeing(a, b))
    ensures |a| == 1 ==> Updated(ids, a, sourceIds, b) == a
  {
    if ids == sourceIds {
      var n := Agreeing(a, b);
      var r := TakenOver(a, b, n);
      if r == a {
        forall k | 0 <= k < n && a[k].Routes? && b[k].Routes? ensures a[k].matrix.gains == b[k].matrix.gains {
          assert r[k].matrix.gains == b[k].matrix.gains;
        }
      }
    }
  }

  /** A graph as a value. */
  datatype GraphValue = GraphValue(
    version: u64,
    sampleRate: u32,
    channels: nat,
    frames: nat,
    nodeIds: seq<Text>,
    nodeNames: seq<Text>,
    effects: seq<Effect>)

  class Graph {
    const version: u64
    const sampleRate: u32
    const channels: nat
    const frames: nat
    const nodeIds: seq<Text>
    const nodeNames: seq<Text>
    const nodes: seq<GraphNode>
    const scratchA: array2<real>
    const scratchB: array2<real>

    ghost const owned: set<object>

    ghost predicate NodesValid()
      reads owned
    {
      forall k :: 0 <= k < |nodes| ==> Parts(nodes[k]) <= owned && NodeValid(nodes[k])
    }

    ghost function Effects(): (e: seq<Effect>)
      requires NodesValid()
      reads owned
      ensures |e| == |nodes| && forall k :: 0 <= k < |e| ==> e[k] == EffectOf(nodes[k])
    {
      seq(|nodes|, k requires 0 <= k < |nodes| && NodesValid() reads owned => EffectOf(nodes[k]))
    }

    ghost function AsValue(): GraphValue
      requires NodesValid()
      reads owned
    {
      GraphValue(version, sampleRate, channels, frames, nodeIds, nodeNames, Effects())
    }

    /** No two nodes share a matrix, and no node reads a scratch buffer. */
    ghost predicate Valid()
      reads owned
    {
      && NodesValid() && |nodeIds| == |nodes| && frames > 0
      && scratchA != scratchB && scratchA !in owned && scratchB !in owned
      && scratchA.Length0 == scratchB.Length0 == channels && scratchA.Length1 == scratchB.Length1 == frames
      && forall j, k :: 0 <= j < |nodes| && 0 <= k < |nodes| && j != k ==> Parts(nodes[j]) !! Parts(nodes[k])
    }

    constructor (version: u64, channels: nat, frames: nat, sampleRate: u32, ids: seq<Text>, names: seq<Text>, nodes: seq<GraphNode>,
                 ghost parts: set<object>)
      requires frames > 0 && |ids| == |nodes|
      requires forall k :: 0 <= k < |nodes| ==> Parts(nodes[k]) <= parts && NodeValid(nodes[k])
      requires forall j, k :: 0 <= j < |nodes| && 0 <= k < |nodes| && j != k ==> Parts(nodes[j]) !! Parts(nodes[k])
      ensures Valid() && fresh(scratchA) && fresh(scratchB) && owned == parts
      ensures this.version == version && this.channels == channels && this.frames == frames
      ensures this.sampleRate == sampleRate && nodeIds == ids && nodeNames == names && this.nodes == nodes
    {
      this.version, this.channels, this.frames, this.sampleRate := version, channels, frames, sampleRate;
      nodeIds, nodeNames, this.nodes, owned := ids, names, nodes, parts;
      scratchA := new real[channels, frames];
      scratchB := new real[channels, frames];
    }

    /** process(): the nodes in order, each into a buffer it does not read. */
    method Process(input: array2<real>, output: array2<real>)
      requires Valid() && input != output && output !in owned
      requires input != scratchA && input != scratchB && output != scratchA && output != scratchB
      modifies scratchA, scratchB, output
      ensures Valid()
      ensures Value(output) == Through(Effects(), old(Value(input)), channels, frames, output.Length0, output.Length1)
    {
      hide Apply, Sample, EffectOf, Value;
      ghost var x := Value(input);
      if |nodes| == 0 {
        CopyFrom(input, output);
        HoldsReshaped(output, x);
        return;
      }
      var current := input;
      for k := 0 to |nodes| - 1
        invariant Valid() && Effects() == old(Effects())
        invariant current == if k == 0 then input else if (k - 1) % 2 == 0 then scratchA else scratchB
        invariant Value(current) == Chain(Effects(), k, x, channels, frames)
      {
        var next := if k % 2 == 0 then scratchA else scratchB;
        ProcessOne(k, current, next);
        current := next;
      }
      ProcessOne(|nodes| - 1, current, output);
    }

    /** One round of the loop: clears the next buffer and runs node `k` into it. */
    method ProcessOne(k: nat, current: array2<real>, next: array2<real>)
      requires Valid() && k < |nodes| && next !in owned && next != current
      modifies next
      ensures Valid() && Effects() == old(Effects())
      ensures Value(next) == Apply(old(Effects())[k], old(Value(current)), next.Length0, next.Length1)
    {
      Clear(next);
      ProcessNode(nodes[k], current, next);
      HoldsApplied(next, EffectOf(nodes[k]), Value(current));
    }

    /** Changing the gains of one matrix leaves every other node as it was. */
    twostate lemma OneNodeChanged(k: nat)
      requires old(Valid()) && k < |nodes| && NodeValid(nodes[k])
      requires forall o :: o in owned && o !in Parts(nodes[k]) ==> unchanged(o)
      ensures Valid() && Effects() == old(Effects())[k := EffectOf(nodes[k])]
    {
      forall j | 0 <= j < |nodes| && j != k
        ensures NodeValid(nodes[j]) && EffectOf(nodes[j]) == old(EffectOf(nodes[j]))
      {
        assert Parts(nodes[j]) !! Parts(nodes[k]);
      }
    }

    /** apply_realtime_parameters_from(): takes over gains node by node, up to the first node that does
        not agree with its counterpart. */
    method ApplyRealtimeParametersFrom(source: Graph) returns (ok: bool)
      requires Valid() && source.Valid() && owned !! source.owned
      modifies owned
      ensures Valid() && source.Valid() && source.Effects() == old(source.Effects())
      ensures ok == Accepts(nodeIds, old(Effects()), source.nodeIds, source.Effects())
      ensures Effects() == Updated(nodeIds, old(Effects()), source.nodeIds, source.Effects())
      ensures !ok ==> (Effects() == old(Effects()) <==>
                         || nodeIds != source.nodeIds
                         || SameGains(old(Effects()), source.Effects(), Agreeing(old(Effects()), source.Effects())))
    {
      ghost var was, from := Effects(), source.Effects();
      if |nodes| != |source.nodes| || nodeIds != source.nodeIds {
        return false;
      }
      ok := ApplyNodes(source);
      hide TakenOver, SameGains, EffectOf;
      if !ok {
        RefusedIsUnchangedIff(nodeIds, was, source.nodeIds, from);
      }
    }

    method ApplyNodes(source: Graph) returns (ok: bool)
      requires Valid() && source.Valid() && owned !! source.owned && |nodes| == |source.nodes|
      modifies owned
      ensures Valid() && source.Valid() && source.Effects() == old(source.Effects())
      ensures ok <==> Agreeing(old(Effects()), source.Effects()) == |nodes|
      ensures Effects() == TakenOver(old(Effects()), source.Effects(), Agreeing(old(Effects()), source.Effects()))
    {
      ghost var was, from := Effects(), source.Effects();
      for k := 0 to |nodes|
        invariant Valid() && source.Valid() && source.Effects() == from
        invariant k <= Agreeing(was, from)
        invariant Effects() == TakenOver(was, from, k)
      {
        ok := ApplyOne(source, k);
        AgreeingNext(was, from, k);
        if !ok {
          return false;
        }
        assert TakenOver(was, from, k)[k := TakeOver(was[k], from[k])] == TakenOver(was, from, k + 1);
      }
      return true;
    }

    method ApplyOne(source: Graph, k: nat) returns (ok: bool)
      requires Valid() && source.Valid() && owned !! source.owned && k < |nodes| == |source.nodes|
      modifies owned
      ensures Valid() && source.Valid() && source.Effects() == old(source.Effects())
      ensures ok == Agree(old(Effects())[k], source.Effects()[k])
      ensures Effects() == if ok then old(Effects())[k := TakeOver(old(Effects())[k], source.Effects()[k])] else old(Effects())
    {
      if nodes[k].MatrixNode? != source.nodes[k].MatrixNode? {
        return false;
      }
      if !nodes[k].MatrixNode? {
        return true;
      }
      ok := nodes[k].matrix.CopyGainsFrom(source.nodes[k].matrix);
      OneNodeChanged(k);
    }
  }

  lemma AgreeingNext(a: seq<Effect>, b: seq<Effect>, k: nat)
    requires |a| == |b| && k < |a| && k <= Agreeing(a, b)
    ensures if Agree(a[k], b[k]) then k < Agreeing(a, b) else Agreeing(a, b) == k
  {
  }
}
