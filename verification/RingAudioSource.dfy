/** VirtualWasapiRingAudioSource: turns the packets of a transport ring into blocks of whatever size
    the graph asks for, with non-finite samples replaced by zero. */
module RingAudioSource {
  import opened Basics
  import opened TransportRing

  function CleanSample(sample: u32): u32 {
    if Finite32(sample) then sample else 0
  }

  function CleanFrame(frame: Frame): (f: Frame)
    ensures |f| == |frame| && forall c :: 0 <= c < |frame| ==> f[c] == CleanSample(frame[c])
  {
    seq(|frame|, c requires 0 <= c < |frame| => CleanSample(frame[c]))
  }

  /** The frames with every non-finite sample replaced by zero. */
  function Clean(frames: seq<Frame>): (f: seq<Frame>)
    ensures |f| == |frames| && forall i :: 0 <= i < |frames| ==> f[i] == CleanFrame(frames[i])
  {
    seq(|frames|, i requires 0 <= i < |frames| => CleanFrame(frames[i]))
  }

  lemma CleanAppend(a: seq<Frame>, b: seq<Frame>)
    ensures Clean(a + b) == Clean(a) + Clean(b)
  {
  }

  /** Delivering the oldest `n` pending frames keeps the stream. */
  lemma CleanSplit(before: seq<Frame>, pending: seq<Frame>, n: nat)
    requires n <= |pending|
    ensures before + Clean(pending) == (before + Clean(pending[..n])) + Clean(pending[n..])
  {
    assert pending == pending[..n] + pending[n..];
    CleanAppend(pending[..n], pending[n..]);
  }

  /** One frame of a block stored channel by channel. */
  ghost function Column(block: array2<u32>, f: nat): (frame: Frame)
    requires f < block.Length1
    reads block
    ensures |frame| == block.Length0 && forall c :: 0 <= c < block.Length0 ==> frame[c] == block[c, f]
  {
    seq(block.Length0, c requires 0 <= c < block.Length0 reads block => block[c, f])
  }

  /** The first `n` frames of a block. */
  ghost function Columns(block: array2<u32>, n: nat): (frames: seq<Frame>)
    requires n <= block.Length1
    reads block
    ensures |frames| == n && forall f :: 0 <= f < n ==> frames[f] == Column(block, f)
  {
    seq(n, f requires 0 <= f < n reads block => Column(block, f))
  }

  /** Silence from frame `from` on. */
  ghost predicate SilentFrom(block: array2<u32>, from: nat)
    reads block
  {
    forall c, f :: 0 <= c < block.Length0 && from <= f < block.Length1 ==> block[c, f] == 0
  }

  class Source {
    const ring: Ring
    const packet: array<u32>
    var packetFrames: nat
    var packetOffset: nat
    /** Every frame read() has delivered. */
    ghost var delivered: seq<Frame>

    ghost predicate Shaped()
      reads this, ring, ring.slots
    {
      && ring.Valid() && packetOffset <= packetFrames <= ring.framesPerSlot
      && packet.Length == ring.framesPerSlot * ring.channels
    }

    /** What is left of the packet being delivered. */
    ghost function Pending(): seq<Frame>
      requires Shaped()
      reads this, ring, ring.slots, packet
    {
      FramesOf(packet[..], ring.channels, packetFrames)[packetOffset..]
    }

    /** The stream law: frames delivered and those still pending are the popped frames, cleaned. */
    ghost predicate Valid()
      reads this, ring, ring.slots, packet
    {
      Shaped() && delivered + Clean(Pending()) == Clean(ring.popped)
    }

    /** The rest of the packet and all that is queued. */
    ghost function Available(): nat
      requires Shaped()
      reads this, ring, ring.slots
    {
      packetFrames - packetOffset + |Queued(ring.AsValue(), ring.consumer)|
    }

    method AvailableFrames() returns (frames: nat)
      requires Shaped()
      ensures ring.Genuine() ==> frames == Available()
    {
      frames := ring.QueuedFrames();
      frames := packetFrames - packetOffset + frames;
    }

    constructor (ring: Ring)
      requires ring.Valid() && ring.popped == []
      ensures Valid() && fresh(packet) && this.ring == ring && delivered == []
    {
      this.ring := ring;
      packet := new u32[ring.framesPerSlot * ring.channels](_ => 0);
      packetFrames, packetOffset, delivered := 0, 0, [];
    }

    /** Pops the next packet when the last one is used up. Only an empty or an invalid ring yields none,
        and a packet is never empty. */
    method NextPacket() returns (loaded: bool)
      requires Shaped() && packetOffset == packetFrames
      modifies this`packetFrames, this`packetOffset, packet, ring`consumer, ring`popped
      ensures Shaped() && (loaded <==> packetOffset < packetFrames)
      ensures ring.popped == old(ring.popped) + Pending()
      ensures old(ring.Genuine()) ==>
                && ring.Genuine() && Available() == old(Available()) && (!loaded ==> Available() == 0)
    {
      ghost var was := ring.AsValue();
      var status, frames := ring.Pop(packet);
      if status != Completed {
        if WellFormed(was) {
          WellFormedNeverInvalid(was, packet.Length);
        }
        return false;
      }
      if WellFormed(was) {
        PopTakes(was);
      }
      packetFrames, packetOffset := frames, 0;
      return true;
    }

    /** Copies `count` pending frames to the block, from frame `at` on. */
    method CopyFrames(destination: array2<u32>, at: nat, count: nat)
      requires Shaped() && destination.Length0 == ring.channels && at + count <= destination.Length1
      requires packetOffset + count <= packetFrames && SilentFrom(destination, at)
      modifies destination
      ensures Columns(destination, at + count) == old(Columns(destination, at)) + Clean(Pending()[..count])
      ensures SilentFrom(destination, at + count)
    {
      Region(packetFrames, ring.framesPerSlot, ring.channels);
      for f := 0 to count
        invariant SilentFrom(destination, at + f)
        invariant Columns(destination, at + f) == old(Columns(destination, at)) + Clean(Pending()[..f])
      {
        ghost var before := Columns(destination, at + f);
        CopyFrame(destination, at + f, packetOffset + f);
        assert Columns(destination, at + f + 1) == before + [Column(destination, at + f)];
        assert Pending()[..f + 1] == Pending()[..f] + [Pending()[f]];
        CleanAppend(Pending()[..f], [Pending()[f]]);
      }
      assert Pending()[..count] == Pending()[..count];
    }

    method CopyFrame(destination: array2<u32>, to: nat, from: nat)
      requires Shaped() && destination.Length0 == ring.channels && to < destination.Length1
      requires from < packetFrames && packetFrames * ring.channels <= packet.Length && SilentFrom(destination, to)
      modifies destination
      ensures Columns(destination, to) == old(Columns(destination, to))
      ensures Column(destination, to) == CleanFrame(FrameOf(packet[..], ring.channels, from))
      ensures SilentFrom(destination, to + 1)
    {
      for c := 0 to ring.channels
        invariant forall i, f :: 0 <= i < destination.Length0 && 0 <= f < to ==> destination[i, f] == old(destination[i, f])
        invariant forall i :: 0 <= i < c ==> destination[i, to] == CleanSample(Sample(packet[..], ring.channels, from, i))
        invariant SilentFrom(destination, to + 1)
      {
        InRegion(from, c, packetFrames, ring.channels);
        var sample := packet[from * ring.channels + c];
        destination[c, to] := if Finite32(sample) then sample else 0;
      }
      assert forall f :: 0 <= f < to ==> Column(destination, f) == old(Column(destination, f));
    }

    /** read(): fills the block from the stream, then with silence. A ring that only push() and pop()
        have touched yields every frame it has. */
    method Read(destination: array2<u32>) returns (ok: bool, ghost written: nat)
      requires Valid()
      modifies this`packetFrames, this`packetOffset, this`delivered, packet, ring`consumer, ring`popped, destination
      ensures Valid() && written <= destination.Length1 && ok == (written > 0)
      ensures delivered == old(delivered) + Columns(destination, written) && SilentFrom(destination, written)
      ensures destination.Length0 != ring.channels ==> written == 0 && Available() == old(Available())
      ensures destination.Length0 == ring.channels && old(ring.Genuine()) ==>
                && ring.Genuine() && written == Min(destination.Length1, old(Available()))
                && Available() == old(Available()) - written
    {
      ClearBlock(destination);
      if destination.Length0 != ring.channels {
        assert Columns(destination, 0) == [];
        return false, 0;
      }
      var frames := FillBlock(destination);
      written := frames;
      delivered := delivered + Columns(destination, frames);
      return frames != 0, frames;
    }

    /** The stream law while a block is being filled: `before` are the frames delivered so far. */
    ghost predicate Law(before: seq<Frame>)
      requires Shaped()
      reads this, ring, ring.slots, packet
    {
      before + Clean(Pending()) == Clean(ring.popped)
    }

    /** A ring that only push() and pop() have touched, with `total` frames still to come. */
    ghost predicate Holds(total: int)
      requires Shaped()
      reads this, ring, ring.slots
    {
      ring.Genuine() && Available() == total
    }

    method FillBlock(destination: array2<u32>) returns (frames: nat)
      requires Valid() && destination.Length0 == ring.channels && SilentFrom(destination, 0)
      modifies this`packetFrames, this`packetOffset, packet, ring`consumer, ring`popped, destination
      ensures Shaped() && frames <= destination.Length1 && SilentFrom(destination, frames)
      ensures Law(delivered + Columns(destination, frames))
      ensures old(ring.Genuine()) ==>
                && frames == Min(destination.Length1, old(Available())) && Holds(old(Available()) - frames)
    {
      frames := 0;
      ghost var before := delivered;
      assert delivered == delivered + Columns(destination, 0);
      while frames < destination.Length1
        invariant frames <= destination.Length1 && Shaped() && SilentFrom(destination, frames)
        invariant before == delivered + Columns(destination, frames) && Law(before)
        invariant old(ring.Genuine()) ==> Holds(old(Available()) - frames)
      {
        var more := Ensure(before);
        if !more {
          break;
        }
        var count, moved := Transfer(destination, frames, before);
        frames := frames + count;
        before := before + moved;
      }
    }

    /** Copies as many frames as the pending packet has and the block takes. */
    method Transfer(destination: array2<u32>, at: nat, ghost before: seq<Frame>) returns (count: nat, ghost moved: seq<Frame>)
      requires Shaped() && destination.Length0 == ring.channels && at < destination.Length1 && SilentFrom(destination, at)
      requires packetOffset < packetFrames && Law(before)
      modifies this`packetOffset, destination
      ensures Shaped() && 0 < count && at + count <= destination.Length1 && SilentFrom(destination, at + count)
      ensures Columns(destination, at + count) == old(Columns(destination, at)) + moved
      ensures Law(before + moved)
      ensures packetOffset == old(packetOffset) + count
    {
      count := Min(destination.Length1 - at, packetFrames - packetOffset);
      CleanSplit(before, Pending(), count);
      moved := Clean(Pending()[..count]);
      CopyFrames(destination, at, count);
      Advance(count);
    }

    method Advance(count: nat)
      requires Shaped() && packetOffset + count <= packetFrames
      modifies this`packetOffset
      ensures Shaped() && Pending() == old(Pending())[count..] && packetOffset == old(packetOffset) + count
    {
      packetOffset := packetOffset + count;
    }

    /** Makes sure that a frame is pending, if there is one. */
    method Ensure(ghost before: seq<Frame>) returns (more: bool)
      requires Shaped() && Law(before)
      modifies this`packetFrames, this`packetOffset, packet, ring`consumer, ring`popped
      ensures Shaped() && Law(before) && (more <==> packetOffset < packetFrames)
      ensures old(ring.Genuine()) ==> Holds(old(Available())) && (!more ==> Available() == 0)
    {
      more := true;
      if packetOffset == packetFrames {
        ghost var popped := ring.popped;
        more := NextPacket();
        CleanAppend(popped, Pending());
      }
    }
  }

  method ClearBlock(destination: array2<u32>)
    modifies destination
    ensures SilentFrom(destination, 0)
  {
    forall c, f | 0 <= c < destination.Length0 && 0 <= f < destination.Length1 {
      destination[c, f] := 0;
    }
  }
}
