/** What an update of the real-time parameters does to the sound of a graph. Only route matrices take over
    anything: an update that succeeds makes the graph sound like its source if the other nodes do alike. */
module GraphUpdate {
  import opened Basics
  import opened AudioBlock
  import opened RouteMatrix
  import opened Preset
  import opened Graph

  /** 1.0 */
  const UNITY: u32 := 0x3F80_0000

  /** What a node does to a block: most nodes scale each sample by a factor. */
  datatype Behaviour = Scales(factor: real) | Folds(width: nat) | Mixes(matrix: Matrix)

  function BehaviourOf(node: Effect): Behaviour {
    match node
    case Passthrough => Scales(1.0)
    case Gain(gain) => Scales(RealOf(gain))
    case Mute(muted) => Scales(if muted then 0.0 else 1.0)
    case Meter => Scales(1.0)
    case Bus(width) => if width == 0 then Scales(0.0) else Folds(width)
    case Polarity(inverted) => Scales(if inverted then -1.0 else 1.0)
    case Routes(matrix) => Mixes(matrix)
  }

  function SampleLike(b: Behaviour, input: Block, channels: nat, c: nat, f: nat): real {
    match b
    case Scales(factor) => At(input, c, f) * factor
    case Folds(width) => if c < width then Strided(input, c, Min(channels, width), |input|, f) else 0.0
    case Mixes(matrix) => MatrixSample(matrix, input, c, f)
  }

  lemma SampleOfBehaviour(node: Effect, input: Block, channels: nat, c: nat, f: nat)
    ensures Sample(node, input, channels, c, f) == SampleLike(BehaviourOf(node), input, channels, c, f)
  {
  }

  /** A block on which two nodes with different behaviour differ. */
  function Probe(a: Behaviour, b: Behaviour): Block {
    if a.Scales? && b.Scales? then [[1.0]]
    else if a.Folds? && b.Folds? then seq(Min(a.width, b.width), _ => [0.0]) + [[1.0]]
    else [[0.0], [1.0]]
  }

  /** Where they differ on it: the number of channels of the buffer, and the channel. */
  function Channels(a: Behaviour, b: Behaviour): nat {
    if a.Folds? && b.Folds? then Max(a.width, b.width) else 1
  }

  function Channel(a: Behaviour, b: Behaviour): nat {
    if a.Folds? && b.Folds? then Min(a.width, b.width) else 0
  }

  /** As `BehaviourOf` makes them. */
  predicate Proper(b: Behaviour) {
    b.Folds? ==> b.width > 0
  }

  lemma FoldsDiffer(small: nat, large: nat, x: Block)
    requires 0 < small < large && x == seq(small, _ => [0.0]) + [[1.0]]
    ensures SampleLike(Folds(small), x, large, small, 0) == 0.0 && SampleLike(Folds(large), x, large, small, 0) == 1.0
  {
    assert |x| == small + 1 && At(x, small, 0) == 1.0;
    assert Strided(x, small, large, small, 0) == 0.0;
    assert Strided(x, small, large, small + 1, 0) == 1.0;
  }

  lemma FoldIsNoScale(width: nat, factor: real, x: Block)
    requires width > 0 && x == [[0.0], [1.0]]
    ensures SampleLike(Folds(width), x, 1, 0, 0) == 1.0 && SampleLike(Scales(factor), x, 1, 0, 0) == 0.0
  {
    assert At(x, 0, 0) == 0.0 && At(x, 1, 0) == 1.0;
    assert Strided(x, 0, 1, 0, 0) == 0.0;
    assert Strided(x, 0, 1, 1, 0) == 0.0;
    assert Strided(x, 0, 1, 2, 0) == 1.0;
  }

  lemma ProbeTellsApart(a: Behaviour, b: Behaviour)
    requires Proper(a) && Proper(b) && !a.Mixes? && !b.Mixes? && a != b
    ensures Channel(a, b) < Channels(a, b)
    ensures SampleLike(a, Probe(a, b), Channels(a, b), Channel(a, b), 0) != SampleLike(b, Probe(a, b), Channels(a, b), Channel(a, b), 0)
  {
    var x := Probe(a, b);
    match (a, b)
    case (Scales(r), Scales(s)) => assert At(x, 0, 0) == 1.0;
    case (Folds(w), Folds(v)) => FoldsDiffer(Min(w, v), Max(w, v), x);
    case (Folds(w), Scales(s)) => FoldIsNoScale(w, s, x);
    case (Scales(r), Folds(v)) => FoldIsNoScale(v, r, x);
  }

  /** Two nodes do the same to every block, in buffers of any shape. */
  ghost predicate SoundAlike(a: Effect, b: Effect) {
    forall x: Block, channels: nat, frames: nat :: Apply(a, x, channels, frames) == Apply(b, x, channels, frames)
  }

  lemma EqualBehaviourSoundsAlike(a: Effect, b: Effect, x: Block, channels: nat, frames: nat)
    requires BehaviourOf(a) == BehaviourOf(b)
    ensures Apply(a, x, channels, frames) == Apply(b, x, channels, frames)
  {
    forall c, f | 0 <= c < channels && 0 <= f < frames
      ensures Sample(a, x, channels, c, f) == Sample(b, x, channels, c, f)
    {
      SampleOfBehaviour(a, x, channels, c, f);
      SampleOfBehaviour(b, x, channels, c, f);
    }
    SameSamples(a, b, x, channels, frames);
  }

  lemma SameSamples(a: Effect, b: Effect, x: Block, channels: nat, frames: nat)
    requires forall c, f :: 0 <= c < channels && 0 <= f < frames ==>
               Sample(a, x, channels, c, f) == Sample(b, x, channels, c, f)
    ensures Apply(a, x, channels, frames) == Apply(b, x, channels, frames)
  {
    var r, s := Apply(a, x, channels, frames), Apply(b, x, channels, frames);
    forall c | 0 <= c < channels ensures r[c] == s[c] {
      forall f | 0 <= f < frames ensures r[c][f] == s[c][f] {
      }
    }
  }

  /** Nodes that are no matrices sound alike exactly if they have the same behaviour. */
  lemma SoundAlikeIff(a: Effect, b: Effect)
    requires !a.Routes? && !b.Routes?
    ensures SoundAlike(a, b) <==> BehaviourOf(a) == BehaviourOf(b)
  {
    var p, q := BehaviourOf(a), BehaviourOf(b);
    if p == q {
      forall x: Block, channels: nat, frames: nat
        ensures Apply(a, x, channels, frames) == Apply(b, x, channels, frames)
      {
        EqualBehaviourSoundsAlike(a, b, x, channels, frames);
      }
    } else {
      var x, channels, c := Probe(p, q), Channels(p, q), Channel(p, q);
      ProbeTellsApart(p, q);
      SampleOfBehaviour(a, x, channels, c, 0);
      SampleOfBehaviour(b, x, channels, c, 0);
      assert Apply(a, x, channels, 1)[c][0] != Apply(b, x, channels, 1)[c][0];
    }
  }

  // Taking over the gains of matrices.

  /** The gains of both matrices fill them. */
  ghost predicate MatricesFit(a: Effect, b: Effect) {
    a.Routes? && b.Routes? ==> Shaped(a.matrix) && Shaped(b.matrix)
  }

  /** An update makes the node sound like its counterpart: it is a matrix, or sounds like it as it is. */
  predicate Follows(a: Effect, b: Effect) {
    a.Routes? || BehaviourOf(a) == BehaviourOf(b)
  }

  lemma TakenOverApply(a: Effect, b: Effect, x: Block, channels: nat, frames: nat)
    requires Agree(a, b) && MatricesFit(a, b) && Follows(a, b)
    ensures Apply(TakeOver(a, b), x, channels, frames) == Apply(b, x, channels, frames)
  {
    if a.Routes? {
      var m := a.matrix.(gains := b.matrix.gains);
      assert |EndpointIds(a.matrix.inputs)| == |EndpointIds(b.matrix.inputs)|;
      assert |EndpointIds(a.matrix.outputs)| == |EndpointIds(b.matrix.outputs)|;
      forall c, f | 0 <= c < channels && 0 <= f < frames
        ensures Sample(TakeOver(a, b), x, channels, c, f) == Sample(b, x, channels, c, f)
      {
        SameGainsSameDot(m, b.matrix, x, c, f, |m.inputs|);
      }
      SameSamples(TakeOver(a, b), b, x, channels, frames);
    } else {
      EqualBehaviourSoundsAlike(a, b, x, channels, frames);
    }
  }

  /** After an update a node sounds like its counterpart exactly if it follows it. */
  lemma TakenOverNodeIff(a: Effect, b: Effect)
    requires Agree(a, b) && MatricesFit(a, b)
    ensures SoundAlike(TakeOver(a, b), b) <==> Follows(a, b)
  {
    if Follows(a, b) {
      forall x: Block, channels: nat, frames: nat
        ensures Apply(TakeOver(a, b), x, channels, frames) == Apply(b, x, channels, frames)
      {
        TakenOverApply(a, b, x, channels, frames);
      }
    } else {
      SoundAlikeIff(a, b);
    }
  }

  ghost predicate AllFollow(a: seq<Effect>, b: seq<Effect>)
    requires |a| == |b|
  {
    forall k :: 0 <= k < |a| ==> MatricesFit(a[k], b[k]) && Follows(a[k], b[k])
  }

  lemma {:induction false} TakenOverChain(a: seq<Effect>, b: seq<Effect>, n: nat, x: Block, channels: nat, frames: nat)
    requires |a| == |b| == Agreeing(a, b) && n <= |a| && AllFollow(a, b)
    ensures Chain(TakenOver(a, b, |a|), n, x, channels, frames) == Chain(b, n, x, channels, frames)
  {
    if n > 0 {
      TakenOverChain(a, b, n - 1, x, channels, frames);
      TakenOverApply(a[n - 1], b[n - 1], Chain(b, n - 1, x, channels, frames), channels, frames);
    }
  }

  /** After an update that succeeds, a graph whose other nodes do what their counterparts do processes every
      block as its source does, if the scratch buffers of both have one shape. */
  lemma TakenOverSoundsAlike(a: seq<Effect>, b: seq<Effect>, x: Block, channels: nat, frames: nat, outChannels: nat, outFrames: nat)
    requires |a| == |b| == Agreeing(a, b) && AllFollow(a, b)
    ensures Through(TakenOver(a, b, |a|), x, channels, frames, outChannels, outFrames)
         == Through(b, x, channels, frames, outChannels, outFrames)
  {
    if a != [] {
      var last := |a| - 1;
      TakenOverChain(a, b, last, x, channels, frames);
      TakenOverApply(a[last], b[last], Chain(b, last, x, channels, frames), outChannels, outFrames);
    }
  }

  /** Whether two lists of nodes sound alike on every block, whatever the shapes of the buffers. */
  ghost predicate GraphsSoundAlike(a: seq<Effect>, b: seq<Effect>) {
    forall x: Block, channels: nat, frames: nat, outChannels: nat, outFrames: nat ::
      Through(a, x, channels, frames, outChannels, outFrames) == Through(b, x, channels, frames, outChannels, outFrames)
  }

  /** For a graph of one node the condition is exact. */
  lemma OneNodeSoundsAlikeIff(a: Effect, b: Effect)
    requires Agree(a, b) && MatricesFit(a, b)
    ensures GraphsSoundAlike(TakenOver([a], [b], 1), [b]) <==> Follows(a, b)
  {
    var r := TakenOver([a], [b], 1);
    TakenOverNodeIff(a, b);
    assert Agreeing([a], [b]) == 1;
    if Follows(a, b) {
      forall x: Block, channels: nat, frames: nat, outChannels: nat, outFrames: nat
        ensures Through(r, x, channels, frames, outChannels, outFrames) == Through([b], x, channels, frames, outChannels, outFrames)
      {
        TakenOverSoundsAlike([a], [b], x, channels, frames, outChannels, outFrames);
      }
    }
    if GraphsSoundAlike(r, [b]) {
      forall x: Block, channels: nat, frames: nat
        ensures Apply(TakeOver(a, b), x, channels, frames) == Apply(b, x, channels, frames)
      {
        assert Through(r, x, 0, 0, channels, frames) == Through([b], x, 0, 0, channels, frames);
      }
    }
  }

  // What goes wrong otherwise.

  lemma UnityIsNotZero()
    ensures RealOf(0) != RealOf(UNITY)
  {
    hide PowerOfTwo;
    var p, q := PowerOfTwo(127), PowerOfTwo(149);
    assert RealOf(UNITY) == (0x80_0000 as real) * p / (2.0 * q);
    Quotient((0x80_0000 as real) * p, 2.0 * q);
    ZeroIsZero();
  }

  lemma Quotient(n: real, d: real)
    requires n > 0.0 && d > 0.0
    ensures n / d > 0.0
  {
  }

  /** The gain of a gain node is not copied: the update succeeds, and the graph sounds as before. */
  lemma GainIsNotTakenOver()
    ensures var ids, a, b := [[103]], [Gain(0)], [Gain(UNITY)];
            && Accepts(ids, a, ids, b) && Updated(ids, a, ids, b) == a
            && !GraphsSoundAlike(Updated(ids, a, ids, b), b)
  {
    var ids, a, b := [[103]], [Gain(0)], [Gain(UNITY)];
    UnityIsNotZero();
    assert Agreeing(a, b) == 1;
    OneNodeSoundsAlikeIff(a[0], b[0]);
  }

  /** In longer graphs a later node may hide the difference. */
  lemma HiddenDifference(x: Block, channels: nat, frames: nat, outChannels: nat, outFrames: nat)
    ensures var a, b := [Gain(0), Mute(true)], [Gain(UNITY), Mute(true)];
            && !Follows(a[0], b[0])
            && Through(a, x, channels, frames, outChannels, outFrames) == Through(b, x, channels, frames, outChannels, outFrames)
  {
    var a, b := [Gain(0), Mute(true)], [Gain(UNITY), Mute(true)];
    UnityIsNotZero();
    var y, z := Chain(a, 1, x, channels, frames), Chain(b, 1, x, channels, frames);
    var r, s := Apply(Mute(true), y, outChannels, outFrames), Apply(Mute(true), z, outChannels, outFrames);
    forall c | 0 <= c < outChannels ensures r[c] == s[c] {
      assert forall f :: 0 <= f < outFrames ==> r[c][f] == s[c][f];
    }
  }

  /** A matrix of one input and one output. */
  function OneByOne(input: u8, gain: u32): Matrix {
    Matrix([Preset.Endpoint([input], [input])], [Preset.Endpoint([111], [111])], [gain])
  }

  function TwoMatrices(gain: u32, input: u8): seq<Effect> {
    [Routes(OneByOne(105, gain)), Routes(OneByOne(input, 0))]
  }

  function TwoIds(): seq<Text> {
    [[97], [98]]
  }

  /** A refused update may change the graph: the first matrices agree and differ in their gain, the second
      ones have different inputs. */
  lemma RefusedButChanged()
    ensures var ids, a, b := TwoIds(), TwoMatrices(0, 105), TwoMatrices(UNITY, 106);
            !Accepts(ids, a, ids, b) && Updated(ids, a, ids, b) == TwoMatrices(UNITY, 105) != a
  {
    var ids, a, b := TwoIds(), TwoMatrices(0, 105), TwoMatrices(UNITY, 106);
    assert Agree(a[0], b[0]);
    assert EndpointIds(a[1].matrix.inputs)[0] != EndpointIds(b[1].matrix.inputs)[0];
    assert !Agree(a[1], b[1]);
    assert Agreeing(a[1..], b[1..]) == 0 && Agreeing(a, b) == 1;
    assert a[0].matrix.gains[0] != UNITY;
  }

  method MakeOneByOne(input: u8, gain: u32) returns (m: RouteMatrix)
    requires Finite32(gain)
    ensures fresh(m) && fresh(m.gains) && m.Valid() && m.AsValue() == OneByOne(input, gain)
  {
    m := new RouteMatrix([Preset.Endpoint([input], [input])], [Preset.Endpoint([111], [111])]);
    var _ := m.SetGain(0, 0, gain);
  }

  method MakeTwoMatrices(gain: u32, input: u8) returns (g: Graph)
    requires Finite32(gain)
    ensures fresh(g) && fresh(g.owned) && g.Valid() && g.nodeIds == TwoIds() && g.Effects() == TwoMatrices(gain, input)
  {
    var first := MakeOneByOne(105, gain);
    var second := MakeOneByOne(input, 0);
    g := new Graph(1, 1, 1, 48000, TwoIds(), TwoIds(), [MatrixNode(first), MatrixNode(second)],
                   {first, first.gains, second, second.gains});
  }

  /** The same through the method itself. */
  method RefuseAnUpdate() returns (ok: bool, target: Graph, ghost before: seq<Effect>)
    ensures !ok && fresh(target) && target.Valid()
    ensures before == TwoMatrices(0, 105) && target.Effects() == TwoMatrices(UNITY, 105) != before
  {
    target := MakeTwoMatrices(0, 105);
    var source := MakeTwoMatrices(UNITY, 106);
    before := target.Effects();
    RefusedButChanged();
    ok := target.ApplyRealtimeParametersFrom(source);
  }
}
