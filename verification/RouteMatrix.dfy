/** RouteMatrix: a dense matrix of gains between endpoints, and its application to a block. */
module RouteMatrix {
  import opened Basics
  import opened AudioBlock
  import opened Preset

  /** A matrix as a value: the gain patterns lie row by row, one row for each output. */
  datatype Matrix = Matrix(inputs: seq<Endpoint>, outputs: seq<Endpoint>, gains: seq<u32>)

  ghost predicate Shaped(m: Matrix) {
    && |m.gains| == |m.outputs| * |m.inputs|
    && forall k :: 0 <= k < |m.gains| ==> Finite32(m.gains[k])
  }

  /** The gain from input `i` to output `o`; zero outside the matrix. */
  function GainOf(m: Matrix, i: nat, o: nat): u32 {
    if i < |m.inputs| && o < |m.outputs| && o * |m.inputs| + i < |m.gains| then m.gains[o * |m.inputs| + i] else 0
  }

  /** A gain applied to a sample. */
  function Scaled(gain: u32, sample: real): real {
    sample * RealOf(gain)
  }

  /** What the first `n` inputs contribute to a sample of output `o`. */
  function Dot(m: Matrix, input: Block, o: nat, f: nat, n: nat): real {
    if n == 0 then 0.0 else Dot(m, input, o, f, n - 1) + Scaled(GainOf(m, n - 1, o), At(input, n - 1, f))
  }

  /** A sample of the matrix's output. */
  function MatrixSample(m: Matrix, input: Block, o: nat, f: nat): real {
    if o < |m.outputs| then Dot(m, input, o, f, |m.inputs|) else 0.0
  }

  function ZeroGains(n: nat): (z: seq<u32>)
    ensures |z| == n && forall k :: 0 <= k < n ==> z[k] == 0
  {
    seq(n, _ => 0)
  }

  lemma ScaledSilence(gain: u32)
    ensures Scaled(gain, 0.0) == 0.0
  {
  }

  lemma ScaledByZero(gain: u32, sample: real)
    requires RealOf(gain) == 0.0
    ensures Scaled(gain, sample) == 0.0
  {
  }

  lemma ZeroIsZero()
    ensures RealOf(0) == 0.0
  {
  }

  /** Inputs the block does not have contribute nothing. */
  lemma {:induction false} DotPastBlock(m: Matrix, input: Block, o: nat, f: nat, n: nat, k: nat)
    requires |input| <= k <= n
    ensures Dot(m, input, o, f, n) == Dot(m, input, o, f, k)
  {
    if k < n {
      DotPastBlock(m, input, o, f, n - 1, k);
      ScaledSilence(GainOf(m, n - 1, o));
    }
  }

  /** Past the end of the block there is silence. */
  lemma {:induction false} DotPastFrames(m: Matrix, input: Block, o: nat, f: nat, n: nat)
    requires forall c :: 0 <= c < |input| ==> |input[c]| <= f
    ensures Dot(m, input, o, f, n) == 0.0
  {
    if n > 0 {
      DotPastFrames(m, input, o, f, n - 1);
      ScaledSilence(GainOf(m, n - 1, o));
    }
  }

  predicate SameIds(a: seq<Endpoint>, b: seq<Endpoint>) {
    EndpointIds(a) == EndpointIds(b)
  }

  /** copy_gains_from() succeeds between matrices with the same endpoint ids. */
  predicate Compatible(a: Matrix, b: Matrix) {
    SameIds(a.inputs, b.inputs) && SameIds(a.outputs, b.outputs)
  }

  /** Matrices with as many endpoints and the same gains sound the same, whatever the labels. */
  lemma {:induction false} SameGainsSameDot(a: Matrix, b: Matrix, input: Block, o: nat, f: nat, n: nat)
    requires |a.inputs| == |b.inputs| && |a.outputs| == |b.outputs| && a.gains == b.gains
    ensures Dot(a, input, o, f, n) == Dot(b, input, o, f, n)
  {
    if n > 0 {
      SameGainsSameDot(a, b, input, o, f, n - 1);
    }
  }

  class RouteMatrix {
    const inputs: seq<Endpoint>
    const outputs: seq<Endpoint>
    const gains: array<u32>

    ghost function AsValue(): Matrix
      reads this, gains
    {
      Matrix(inputs, outputs, gains[..])
    }

    ghost predicate Valid()
      reads this, gains
    {
      Shaped(AsValue())
    }

    /** The constructor throws unless both sides are non-empty lists of labelled, distinct endpoints. */
    constructor (inputs: seq<Endpoint>, outputs: seq<Endpoint>)
      requires ValidEndpoints(inputs) && ValidEndpoints(outputs)
      ensures Valid() && fresh(gains) && AsValue() == Matrix(inputs, outputs, ZeroGains(|outputs| * |inputs|))
    {
      this.inputs, this.outputs := inputs, outputs;
      gains := new u32[|inputs| * |outputs|](_ => 0);
      new;
      assert gains[..] == ZeroGains(|outputs| * |inputs|);
    }

    method SetGain(i: nat, o: nat, gain: u32) returns (ok: bool)
      requires Valid()
      modifies gains
      ensures Valid() && (ok <==> i < |inputs| && o < |outputs| && Finite32(gain))
      ensures !ok ==> gains[..] == old(gains[..])
      ensures ok ==> o * |inputs| + i < gains.Length && gains[..] == old(gains[..])[o * |inputs| + i := gain]
    {
      if i >= |inputs| || o >= |outputs| || !Finite32(gain) {
        return false;
      }
      CellInside(o, i, |outputs|, |inputs|);
      gains[o * |inputs| + i] := gain;
      return true;
    }

    method Gain(i: nat, o: nat) returns (gain: u32)
      requires Valid()
      ensures gain == GainOf(AsValue(), i, o)
    {
      if i >= |inputs| || o >= |outputs| {
        return 0;
      }
      CellInside(o, i, |outputs|, |inputs|);
      gain := gains[o * |inputs| + i];
    }

    /** Every gain of a compatible matrix is taken over; an incompatible one changes nothing. */
    method CopyGainsFrom(source: RouteMatrix) returns (ok: bool)
      requires Valid() && source.Valid() && source.gains != gains
      modifies gains
      ensures Valid() && ok == Compatible(AsValue(), source.AsValue())
      ensures gains[..] == if ok then source.gains[..] else old(gains[..])
    {
      if |inputs| != |source.inputs| || |outputs| != |source.outputs| {
        return false;
      }
      var same := SameIdLists(inputs, source.inputs);
      if !same {
        return false;
      }
      same := SameIdLists(outputs, source.outputs);
      if !same {
        return false;
      }
      for o := 0 to |outputs|
        invariant Valid() && forall k :: 0 <= k < gains.Length && k < o * |inputs| ==> gains[k] == source.gains[k]
      {
        CopyRow(source, o);
        NextRow(o, |inputs|);
      }
      assert gains[..] == source.gains[..];
      return true;
    }

    method CopyRow(source: RouteMatrix, o: nat)
      requires Valid() && source.Valid() && source.gains != gains && o < |outputs|
      requires |inputs| == |source.inputs| && |outputs| == |source.outputs|
      requires forall k :: 0 <= k < gains.Length && k < o * |inputs| ==> gains[k] == source.gains[k]
      modifies gains
      ensures Valid() && forall k :: 0 <= k < gains.Length && k < o * |inputs| + |inputs| ==> gains[k] == source.gains[k]
    {
      for i := 0 to |inputs|
        invariant Valid() && forall k :: 0 <= k < gains.Length && k < o * |inputs| + i ==> gains[k] == source.gains[k]
      {
        var gain := source.Gain(i, o);
        CellInside(o, i, |outputs|, |inputs|);
        var _ := SetGain(i, o, gain);
      }
    }

    /** Each output sample becomes the sum of the input samples, weighted by the gains. */
    method Process(input: array2<real>, output: array2<real>)
      requires Valid() && input != output
      modifies output
      ensures forall o, f :: 0 <= o < output.Length0 && 0 <= f < output.Length1 ==>
                output[o, f] == MatrixSample(AsValue(), Value(input), o, f)
    {
      Clear(output);
      var outs := Min(output.Length0, |outputs|);
      for o := 0 to outs
        invariant forall r, f :: 0 <= r < o && 0 <= f < output.Length1 ==>
                    output[r, f] == MatrixSample(AsValue(), Value(input), r, f)
        invariant forall r, f :: o <= r < output.Length0 && 0 <= f < output.Length1 ==> output[r, f] == 0.0
      {
        ProcessRow(input, output, o);
      }
    }

    /** Accumulates all inputs into one output channel. */
    method ProcessRow(input: array2<real>, output: array2<real>, o: nat)
      requires Valid() && input != output && o < output.Length0 && o < |outputs|
      requires forall f :: 0 <= f < output.Length1 ==> output[o, f] == 0.0
      modifies output
      ensures forall f :: 0 <= f < output.Length1 ==> output[o, f] == MatrixSample(AsValue(), Value(input), o, f)
      ensures forall r, f :: 0 <= r < output.Length0 && r != o && 0 <= f < output.Length1 ==>
                output[r, f] == old(output[r, f])
    {
      var ins := Min(input.Length0, |inputs|);
      for i := 0 to ins
        invariant forall f :: 0 <= f < output.Length1 ==> output[o, f] == Dot(AsValue(), Value(input), o, f, i)
        invariant forall r, f :: 0 <= r < output.Length0 && r != o && 0 <= f < output.Length1 ==>
                    output[r, f] == old(output[r, f])
      {
        var gain := Gain(i, o);
        AddScaled(input, output, i, o, gain);
      }
      forall f | 0 <= f < output.Length1
        ensures Dot(AsValue(), Value(input), o, f, ins) == MatrixSample(AsValue(), Value(input), o, f)
      {
        if ins < |inputs| {
          DotPastBlock(AsValue(), Value(input), o, f, |inputs|, ins);
        }
      }
    }
  }

  method SameIdLists(a: seq<Endpoint>, b: seq<Endpoint>) returns (same: bool)
    requires |a| == |b|
    ensures same == SameIds(a, b)
  {
    for k := 0 to |a|
      invariant forall j :: 0 <= j < k ==> a[j].id == b[j].id
    {
      if a[k].id != b[k].id {
        assert EndpointIds(a)[k] != EndpointIds(b)[k];
        return false;
      }
    }
    return true;
  }

  lemma NextRow(o: nat, width: nat)
    ensures (o + 1) * width == o * width + width
  {
  }

  /** Adds one input channel to one output channel; a zero gain is skipped. */
  method AddScaled(input: array2<real>, output: array2<real>, i: nat, o: nat, gain: u32)
    requires input != output && i < input.Length0 && o < output.Length0
    modifies output
    ensures forall f :: 0 <= f < output.Length1 ==> output[o, f] == old(output[o, f]) + Scaled(gain, At(Value(input), i, f))
    ensures forall r, f :: 0 <= r < output.Length0 && r != o && 0 <= f < output.Length1 ==>
              output[r, f] == old(output[r, f])
  {
    if RealOf(gain) == 0.0 {
      return;
    }
    ScaledSilence(gain);
    var frames := Min(input.Length1, output.Length1);
    for f := 0 to frames
      invariant forall g :: 0 <= g < output.Length1 ==>
                  output[o, g] == old(output[o, g]) + if g < f then Scaled(gain, At(Value(input), i, g)) else 0.0
      invariant forall r, g :: 0 <= r < output.Length0 && r != o && 0 <= g < output.Length1 ==>
                  output[r, g] == old(output[r, g])
    {
      output[o, f] := output[o, f] + Scaled(gain, input[i, f]);
    }
  }
}
