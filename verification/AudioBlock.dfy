/** AudioBuffer: samples by channel and frame. A block is what a buffer holds, as a value; samples are
    exact reals. */
module AudioBlock {

  type Block = seq<seq<real>>

  /** A sample of a block; silence outside it. */
  function At(b: Block, c: nat, f: nat): real {
    if c < |b| && f < |b[c]| then b[c][f] else 0.0
  }

  /** What a buffer holds. */
  ghost function Value(buffer: array2<real>): (b: Block)
    reads buffer
    ensures |b| == buffer.Length0
    ensures forall c :: 0 <= c < |b| ==> |b[c]| == buffer.Length1
    ensures forall c, f :: 0 <= c < buffer.Length0 && 0 <= f < buffer.Length1 ==> b[c][f] == buffer[c, f]
  {
    seq(buffer.Length0, c requires 0 <= c < buffer.Length0 reads buffer =>
      seq(buffer.Length1, f requires 0 <= f < buffer.Length1 reads buffer => buffer[c, f]))
  }

  ghost predicate Silent(buffer: array2<real>)
    reads buffer
  {
    forall c, f :: 0 <= c < buffer.Length0 && 0 <= f < buffer.Length1 ==> buffer[c, f] == 0.0
  }

  /** The block as a buffer of another shape holds it: cut off, or filled up with silence. */
  function Reshaped(b: Block, channels: nat, frames: nat): (r: Block)
    ensures |r| == channels
    ensures forall c :: 0 <= c < channels ==> |r[c]| == frames
    ensures forall c, f :: 0 <= c < channels && 0 <= f < frames ==> r[c][f] == At(b, c, f)
  {
    seq(channels, c requires 0 <= c < channels => seq(frames, f requires 0 <= f < frames => At(b, c, f)))
  }

  method Clear(buffer: array2<real>)
    modifies buffer
    ensures Silent(buffer)
  {
    forall c, f | 0 <= c < buffer.Length0 && 0 <= f < buffer.Length1 {
      buffer[c, f] := 0.0;
    }
  }

  /** The buffer holds the block, cut off or filled up with silence. */
  ghost predicate Holds(buffer: array2<real>, b: Block)
    reads buffer
  {
    forall c, f :: 0 <= c < buffer.Length0 && 0 <= f < buffer.Length1 ==> buffer[c, f] == At(b, c, f)
  }

  lemma HoldsReshaped(buffer: array2<real>, b: Block)
    requires Holds(buffer, b)
    ensures Value(buffer) == Reshaped(b, buffer.Length0, buffer.Length1)
  {
    var v, r := Value(buffer), Reshaped(b, buffer.Length0, buffer.Length1);
    forall c | 0 <= c < buffer.Length0 ensures v[c] == r[c] {
      forall f | 0 <= f < buffer.Length1 ensures v[c][f] == r[c][f] {
        assert buffer[c, f] == At(b, c, f);
      }
    }
  }

  /** copy_from() */
  method CopyFrom(source: array2<real>, buffer: array2<real>)
    requires source != buffer
    modifies buffer
    ensures Holds(buffer, Value(source))
  {
    Clear(buffer);
    CopyOver(source, buffer);
  }

  /** Copies the samples that both buffers have. */
  method CopyOver(source: array2<real>, buffer: array2<real>)
    requires source != buffer && Silent(buffer)
    modifies buffer
    ensures Holds(buffer, Value(source))
  {
    var channels := if source.Length0 < buffer.Length0 then source.Length0 else buffer.Length0;
    var frames := if source.Length1 < buffer.Length1 then source.Length1 else buffer.Length1;
    for c := 0 to channels
      invariant forall i, f :: 0 <= i < c && 0 <= f < buffer.Length1 ==> buffer[i, f] == At(Value(source), i, f)
      invariant forall i, f :: c <= i < buffer.Length0 && 0 <= f < buffer.Length1 ==> buffer[i, f] == 0.0
    {
      forall f | 0 <= f < frames {
        buffer[c, f] := source[c, f];
      }
    }
  }
}
