/** The two containers behind the Virtual ASIO buses: PlanarAudioFifo, a ring of frames, and the
    circular queue of equal blocks that both bus slots keep between their indices. A frame is one
    sample per channel; samples are exact reals. */
module AudioFifo {
  import opened Basics

  type Frame = seq<real>

  /** Indexing a ring twice its length at most. */
  lemma Wraps(i: nat, n: nat)
    requires 0 < n && i < 2 * n
    ensures i % n == if i < n then i else i - n
  {
    var q := i / n;
    assert i == q * n + i % n;
    assert q >= 2 ==> q * n >= 2 * n;
    assert q <= 0 ==> q * n <= 0;
  }

  /** The window of `count` cells of a ring that starts at `first`. */
  ghost function Window<T>(cells: seq<T>, first: nat, count: nat): (w: seq<T>)
    requires first < |cells| && count <= |cells|
    ensures |w| == count
    ensures forall k :: 0 <= k < count ==> w[k] == cells[if first + k < |cells| then first + k else first + k - |cells|]
  {
    seq(count, k requires 0 <= k < count => cells[if first + k < |cells| then first + k else first + k - |cells|])
  }

  /** The first cell of a window and the window behind it. */
  lemma WindowTail<T>(cells: seq<T>, first: nat, count: nat)
    requires first < |cells| && 0 < count <= |cells|
    ensures Window(cells, first, count)
         == [cells[first]] + Window(cells, if first + 1 < |cells| then first + 1 else 0, count - 1)
  {
  }

  function Flatten(blocks: seq<seq<Frame>>): seq<Frame> {
    if blocks == [] then [] else blocks[0] + Flatten(blocks[1..])
  }

  lemma {:induction false} FlattenAppend(blocks: seq<seq<Frame>>, last: seq<Frame>)
    ensures Flatten(blocks + [last]) == Flatten(blocks) + last
  {
    if blocks == [] {
      assert Flatten([last]) == last + Flatten([]);
    } else {
      FlattenAppend(blocks[1..], last);
      assert (blocks + [last])[1..] == blocks[1..] + [last];
    }
  }

  lemma {:induction false} FlattenSplits(a: seq<seq<Frame>>, b: seq<seq<Frame>>)
    ensures Flatten(a + b) == Flatten(a) + Flatten(b)
  {
    if a == [] {
      assert a + b == b;
    } else {
      FlattenSplits(a[1..], b);
      assert (a + b)[1..] == a[1..] + b;
    }
  }

  lemma {:induction false} FlattenLength(blocks: seq<seq<Frame>>, frames: nat)
    requires forall k :: 0 <= k < |blocks| ==> |blocks[k]| == frames
    ensures |Flatten(blocks)| == |blocks| * frames
  {
    if blocks != [] {
      FlattenLength(blocks[1..], frames);
      assert |blocks| * frames == frames + (|blocks| - 1) * frames;
    }
  }

  class PlanarFifo {
    const channels: nat
    const cells: array<Frame>
    var readFrame: nat
    var writeFrame: nat
    var available: nat

    ghost predicate Valid()
      reads this
    {
      && cells.Length > 0 && readFrame < cells.Length && available <= cells.Length
      && writeFrame == if readFrame + available < cells.Length then readFrame + available
                       else readFrame + available - cells.Length
    }

    /** The frames in the FIFO, oldest first. */
    ghost function Contents(): seq<Frame>
      requires Valid()
      reads this, cells
    {
      Window(cells[..], readFrame, available)
    }

    constructor (channels: nat, capacity: nat)
      requires capacity > 0
      ensures Valid() && fresh(cells) && this.channels == channels && cells.Length == capacity && Contents() == []
    {
      this.channels := channels;
      cells := new Frame[capacity](_ => []);
      readFrame, writeFrame, available := 0, 0, 0;
    }

    function FreeFrames(): nat
      requires Valid()
      reads this
    {
      cells.Length - available
    }

    /** Copies at most `frames` frames in, as many as fit, in two runs around the end of the ring. */
    method Push(source: seq<Frame>, sourceChannels: nat, frames: nat) returns (transferred: nat)
      requires Valid()
      modifies this, cells
      ensures Valid()
      ensures transferred == if sourceChannels != channels then 0 else Min(Min(frames, |source|), old(FreeFrames()))
      ensures Contents() == old(Contents()) + source[..transferred]
    {
      if sourceChannels != channels {
        return 0;
      }
      transferred := Min(Min(frames, |source|), FreeFrames());
      var first := Min(transferred, cells.Length - writeFrame);
      var second := transferred - first;
      CopyIn(source, 0, writeFrame, first);
      CopyIn(source, first, 0, second);
      Wraps(writeFrame + transferred, cells.Length);
      writeFrame := (writeFrame + transferred) % cells.Length;
      available := available + transferred;
    }

    /** Copies `count` frames of the source into the ring, starting at cell `at`. */
    method CopyIn(source: seq<Frame>, from: nat, at: nat, count: nat)
      requires from + count <= |source| && at + count <= cells.Length
      modifies cells
      ensures forall j :: at <= j < at + count ==> cells[j] == source[from + j - at]
      ensures forall j :: 0 <= j < cells.Length && !(at <= j < at + count) ==> cells[j] == old(cells[j])
    {
      for k := 0 to count
        invariant forall j :: at <= j < at + k ==> cells[j] == source[from + j - at]
        invariant forall j :: 0 <= j < cells.Length && !(at <= j < at + k) ==> cells[j] == old(cells[j])
      {
        cells[at + k] := source[from + k];
      }
    }

    /** Copies the oldest frames out, in two runs around the end of the ring. */
    method Peek(destination: array<Frame>, destinationChannels: nat, frames: nat) returns (transferred: nat)
      requires Valid() && destination != cells
      modifies destination
      ensures transferred == if destinationChannels != channels then 0
                             else Min(Min(frames, destination.Length), available)
      ensures forall j :: 0 <= j < transferred ==> destination[j] == Contents()[j]
      ensures forall j :: transferred <= j < destination.Length ==> destination[j] == old(destination[j])
    {
      if destinationChannels != channels {
        return 0;
      }
      transferred := Min(Min(frames, destination.Length), available);
      var first := Min(transferred, cells.Length - readFrame);
      var second := transferred - first;
      CopyOut(destination, readFrame, 0, first);
      CopyOut(destination, 0, first, second);
    }

    /** Copies `count` cells of the ring, starting at cell `from`, to the destination. */
    method CopyOut(destination: array<Frame>, from: nat, at: nat, count: nat)
      requires destination != cells && from + count <= cells.Length && at + count <= destination.Length
      modifies destination
      ensures forall j :: at <= j < at + count ==> destination[j] == cells[from + j - at]
      ensures forall j :: 0 <= j < destination.Length && !(at <= j < at + count) ==> destination[j] == old(destination[j])
    {
      for k := 0 to count
        invariant forall j :: at <= j < at + k ==> destination[j] == cells[from + j - at]
        invariant forall j :: 0 <= j < destination.Length && !(at <= j < at + k) ==> destination[j] == old(destination[j])
      {
        destination[at + k] := cells[from + k];
      }
    }

    method Consume(frames: nat) returns (consumed: nat)
      requires Valid()
      modifies this
      ensures Valid()
      ensures consumed == Min(frames, old(available))
      ensures Contents() == old(Contents())[consumed..]
    {
      consumed := Min(frames, available);
      Wraps(readFrame + consumed, cells.Length);
      readFrame := (readFrame + consumed) % cells.Length;
      available := available - consumed;
    }

    method Pop(destination: array<Frame>, destinationChannels: nat, frames: nat) returns (transferred: nat)
      requires Valid() && destination != cells
      modifies this, destination
      ensures Valid()
      ensures transferred == if destinationChannels != channels then 0
                             else Min(Min(frames, destination.Length), old(available))
      ensures forall j :: 0 <= j < transferred ==> destination[j] == old(Contents())[j]
      ensures forall j :: transferred <= j < destination.Length ==> destination[j] == old(destination[j])
      ensures Contents() == old(Contents())[transferred..]
    {
      transferred := Peek(destination, destinationChannels, frames);
      var _ := Consume(transferred);
    }

    method Clear()
      requires cells.Length > 0
      modifies this
      ensures Valid() && Contents() == []
    {
      readFrame, writeFrame, available := 0, 0, 0;
    }
  }

  /** The circular queue of a bus slot: one cell more than its capacity, so that equal indices mean
      empty. */
  class BlockQueue {
    const cells: array<seq<Frame>>
    var readIndex: nat
    var writeIndex: nat

    ghost predicate Valid()
      reads this
    {
      cells.Length > 1 && readIndex < cells.Length && writeIndex < cells.Length
    }

    function Capacity(): int {
      cells.Length - 1
    }

    /** queue_depth(): how many blocks lie between the indices. */
    function Depth(): nat
      requires Valid()
      reads this
    {
      if writeIndex >= readIndex then writeIndex - readIndex else cells.Length - readIndex + writeIndex
    }

    /** The queued blocks, oldest first. */
    ghost function Contents(): (c: seq<seq<Frame>>)
      requires Valid()
      reads this, cells
      ensures |c| == Depth() <= Capacity()
    {
      Window(cells[..], readIndex, Depth())
    }

    constructor (capacity: nat)
      requires capacity > 0
      ensures Valid() && fresh(cells) && Capacity() == capacity && Contents() == []
    {
      cells := new seq<Frame>[capacity + 1](_ => []);
      readIndex, writeIndex := 0, 0;
    }

    function Increment(index: nat): nat
      requires cells.Length > 0
    {
      (index + 1) % cells.Length
    }

    /** The queue is full exactly when the next write index would meet the read index. */
    lemma FullMeansMeeting()
      requires Valid()
      ensures Increment(writeIndex) == readIndex <==> Depth() == Capacity()
      ensures readIndex == writeIndex <==> Depth() == 0
    {
      Wraps(writeIndex + 1, cells.Length);
    }

    method Enqueue(block: seq<Frame>) returns (ok: bool)
      requires Valid()
      modifies this, cells
      ensures Valid()
      ensures ok <==> old(Depth()) < Capacity()
      ensures Contents() == if ok then old(Contents()) + [block] else old(Contents())
    {
      FullMeansMeeting();
      Wraps(writeIndex + 1, cells.Length);
      var next := Increment(writeIndex);
      if next == readIndex {
        return false;
      }
      cells[writeIndex] := block;
      writeIndex := next;
      return true;
    }

    method Head() returns (block: seq<Frame>)
      requires Valid() && Depth() > 0
      ensures block == Contents()[0]
    {
      block := cells[readIndex];
    }

    method Advance()
      requires Valid() && Depth() > 0
      modifies this
      ensures Valid() && Contents() == old(Contents())[1..]
    {
      Wraps(readIndex + 1, cells.Length);
      readIndex := Increment(readIndex);
    }

    method Clear()
      requires cells.Length > 1
      modifies this
      ensures Valid() && Contents() == []
    {
      readIndex, writeIndex := 0, 0;
    }
  }
}
