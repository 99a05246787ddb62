/** VirtualWasapiTransportRing with its operations run one after the other; RingProtocol covers their
    interleaving and the counters. The memory is shared with a driver, so a slot may hold anything: a
    ring that only push() has written is `WellFormed`. Samples are 32-bit patterns, interleaved. */
module TransportRing {
  import opened Basics

  type Frame = seq<u32>

  datatype Status = Completed | Empty | Full | InvalidPacket

  datatype Slot = Slot(sequence: nat, frames: nat, flags: nat, audio: seq<u32>)

  /** A ring as a value. */
  datatype View = View(channels: nat, framesPerSlot: nat, slots: seq<Slot>, producer: nat, consumer: nat)

  /** Bit 0 of the flags marks silence, bit 1 a discontinuity; every other bit is rejected. */
  predicate Silent(flags: nat) {
    flags % 2 == 1
  }

  function SlotAt(v: View, sequence: nat): Slot
    requires |v.slots| > 0
  {
    v.slots[sequence % |v.slots|]
  }

  /** The audio region of every slot holds framesPerSlot frames. */
  ghost predicate Shaped(v: View) {
    |v.slots| > 0 && forall k :: 0 <= k < |v.slots| ==> |v.slots[k].audio| == v.framesPerSlot * v.channels
  }

  /** The checks pop() makes of a slot. */
  predicate Sound(v: View, slot: Slot, sequence: nat) {
    slot.sequence == sequence + 1 && 0 < slot.frames <= v.framesPerSlot && slot.flags < 4
  }

  ghost predicate WellFormed(v: View) {
    && Shaped(v) && v.consumer <= v.producer <= v.consumer + |v.slots|
    && forall k :: v.consumer <= k < v.producer ==> Sound(v, SlotAt(v, k), k)
  }

  /** One sample of an interleaved buffer; zero past its end. */
  function Sample(audio: seq<u32>, channels: nat, i: nat, c: nat): u32 {
    if i * channels + c < |audio| then audio[i * channels + c] else 0
  }

  function FrameOf(audio: seq<u32>, channels: nat, i: nat): (f: Frame)
    ensures |f| == channels && forall c :: 0 <= c < channels ==> f[c] == Sample(audio, channels, i, c)
  {
    seq(channels, c requires 0 <= c < channels => Sample(audio, channels, i, c))
  }

  /** The first `n` frames of an interleaved buffer. */
  function FramesOf(audio: seq<u32>, channels: nat, n: nat): (f: seq<Frame>)
    ensures |f| == n
    ensures forall i :: 0 <= i < n ==> f[i] == FrameOf(audio, channels, i)
  {
    seq(n, i requires 0 <= i => FrameOf(audio, channels, i))
  }

  /** The frames a consumer must get from a slot: silent slots stand for zeros. */
  function SlotFrames(v: View, slot: Slot): seq<Frame> {
    FramesOf(if Silent(slot.flags) then [] else slot.audio, v.channels, slot.frames)
  }

  /** The frames of the slots from `from` to the producer, in order. */
  ghost function Queued(v: View, from: nat): seq<Frame>
    requires |v.slots| > 0
    decreases v.producer - from
  {
    if from >= v.producer then [] else SlotFrames(v, SlotAt(v, from)) + Queued(v, from + 1)
  }

  /** The outcome of pop() on a ring in any state. */
  function PopStatus(v: View, span: nat): Status
    requires |v.slots| > 0
  {
    if v.consumer == v.producer then Empty
    else if v.consumer > v.producer || v.producer - v.consumer > |v.slots| then InvalidPacket
    else if !Sound(v, SlotAt(v, v.consumer), v.consumer) then InvalidPacket
    else if span < SlotAt(v, v.consumer).frames * v.channels then InvalidPacket
    else Completed
  }

  /** pop() moves past a packet it delivers and past a malformed slot, and no other. */
  predicate Skips(v: View, span: nat)
    requires |v.slots| > 0
  {
    || PopStatus(v, span) == Completed
    || (v.consumer < v.producer <= v.consumer + |v.slots| && !Sound(v, SlotAt(v, v.consumer), v.consumer))
  }

  lemma SameBefore(small: seq<u32>, big: seq<u32>, channels: nat, n: nat)
    requires n * channels <= |small| && n * channels <= |big|
    requires small[..n * channels] == big[..n * channels]
    ensures FramesOf(small, channels, n) == FramesOf(big, channels, n)
  {
    forall i | 0 <= i < n ensures FrameOf(small, channels, i) == FrameOf(big, channels, i) {
      forall c | 0 <= c < channels ensures Sample(small, channels, i, c) == Sample(big, channels, i, c) {
        InRegion(i, c, n, channels);
        var k := i * channels + c;
        assert small[..n * channels][k] == big[..n * channels][k];
      }
    }
  }

  lemma InRegion(i: nat, c: nat, n: nat, channels: nat)
    requires i < n && c < channels
    ensures i * channels + c < n * channels
  {
    assert (i + 1) * channels <= n * channels;
  }

  lemma Region(frames: nat, most: nat, channels: nat)
    requires frames <= most
    ensures frames * channels <= most * channels
  {
  }

  lemma Apart(a: nat, b: nat, n: nat)
    requires a < b < a + n
    ensures a % n != b % n
  {
    var d := b / n - a / n;
    assert b - a == d * n + (b % n - a % n);
    assert d >= 1 ==> d * n >= n;
    assert d <= 0 ==> d * n <= 0;
  }

  /** Appending a packet behind the producer keeps what is queued. */
  lemma {:induction false} QueuedGrows(v: View, w: View, from: nat)
    requires WellFormed(v) && v.consumer <= from <= v.producer < v.consumer + |v.slots|
    requires |w.slots| == |v.slots| && w == v.(slots := v.slots[v.producer % |v.slots| := SlotAt(w, v.producer)], producer := v.producer + 1)
    ensures Queued(w, from) == Queued(v, from) + SlotFrames(w, SlotAt(w, v.producer))
    decreases v.producer - from
  {
    if from < v.producer {
      Apart(from, v.producer, |v.slots|);
      assert SlotAt(w, from) == SlotAt(v, from);
      QueuedGrows(v, w, from + 1);
    } else {
      assert Queued(w, from + 1) == [];
    }
  }

  /** What is queued depends on the slots and the producer alone. */
  lemma {:induction false} QueuedIgnoresConsumer(v: View, w: View, from: nat)
    requires |v.slots| > 0 && w == v.(consumer := w.consumer)
    ensures Queued(v, from) == Queued(w, from)
    decreases v.producer - from
  {
    if from < v.producer {
      QueuedIgnoresConsumer(v, w, from + 1);
    }
  }

  /** A push that passes the checks of push() and finds room. */
  predicate Fits(v: View, audio: seq<u32>, frames: nat, flags: nat) {
    && 0 < frames <= v.framesPerSlot && flags < 4
    && |audio| == if Silent(flags) then 0 else frames * v.channels
  }

  /** The slot that push() leaves behind: samples past the packet are those of the packet before. */
  function Stored(v: View, audio: seq<u32>, frames: nat, flags: nat): Slot
    requires Shaped(v) && Fits(v, audio, frames, flags)
  {
    Region(frames, v.framesPerSlot, v.channels);
    Slot(v.producer + 1, frames, flags, audio + SlotAt(v, v.producer).audio[|audio|..])
  }

  function Pushed(v: View, audio: seq<u32>, frames: nat, flags: nat): View
    requires Shaped(v) && Fits(v, audio, frames, flags)
  {
    v.(slots := v.slots[v.producer % |v.slots| := Stored(v, audio, frames, flags)], producer := v.producer + 1)
  }

  /** What push() stored reads back as the frames it was given. */
  lemma StoredReadsBack(v: View, audio: seq<u32>, frames: nat, flags: nat)
    requires Shaped(v) && Fits(v, audio, frames, flags)
    ensures SlotFrames(v, Stored(v, audio, frames, flags)) == FramesOf(audio, v.channels, frames)
    ensures Shaped(Pushed(v, audio, frames, flags))
  {
    var slot := Stored(v, audio, frames, flags);
    if !Silent(flags) {
      assert slot.audio[..|audio|] == audio == audio[..|audio|];
      Region(frames, v.framesPerSlot, v.channels);
      SameBefore(slot.audio, audio, v.channels, frames);
    }
    assert |slot.audio| == v.framesPerSlot * v.channels by {
      Region(frames, v.framesPerSlot, v.channels);
    }
  }

  /** push() into a well-formed ring with room queues the frames behind those already queued. */
  lemma PushQueues(v: View, audio: seq<u32>, frames: nat, flags: nat)
    requires WellFormed(v) && Fits(v, audio, frames, flags) && v.producer < v.consumer + |v.slots|
    ensures var w := Pushed(v, audio, frames, flags);
            WellFormed(w) && Queued(w, v.consumer) == Queued(v, v.consumer) + FramesOf(audio, v.channels, frames)
  {
    var w := Pushed(v, audio, frames, flags);
    StoredReadsBack(v, audio, frames, flags);
    QueuedGrows(v, w, v.consumer);
    forall k | w.consumer <= k < w.producer ensures Sound(w, SlotAt(w, k), k) {
      if k < v.producer {
        Apart(k, v.producer, |v.slots|);
        assert SlotAt(w, k) == SlotAt(v, k);
      }
    }
  }

  /** pop() takes from a well-formed ring the frames at the head of the queue. */
  lemma PopTakes(v: View)
    requires WellFormed(v) && v.consumer < v.producer
    ensures var w := v.(consumer := v.consumer + 1);
            WellFormed(w) && Queued(v, v.consumer) == SlotFrames(v, SlotAt(v, v.consumer)) + Queued(w, w.consumer)
  {
    var w := v.(consumer := v.consumer + 1);
    QueuedIgnoresConsumer(v, w, w.consumer);
    forall k | w.consumer <= k < w.producer ensures Sound(w, SlotAt(w, k), k) {
      assert SlotAt(w, k) == SlotAt(v, k);
    }
  }

  /** A reader with room for a full slot never sees an invalid packet in a well-formed ring. */
  lemma WellFormedNeverInvalid(v: View, span: nat)
    requires WellFormed(v) && v.framesPerSlot * v.channels <= span
    ensures PopStatus(v, span) == if v.consumer == v.producer then Empty else Completed
  {
    if v.consumer < v.producer {
      assert Sound(v, SlotAt(v, v.consumer), v.consumer);
      Region(SlotAt(v, v.consumer).frames, v.framesPerSlot, v.channels);
    }
  }

  /** A buffer that starts with zeros holds frames of zeros. */
  lemma ZeroFrames(buffer: seq<u32>, channels: nat, n: nat)
    requires n * channels <= |buffer| && buffer[..n * channels] == Zeros(n * channels)
    ensures FramesOf(buffer, channels, n) == FramesOf([], channels, n)
  {
    forall i | 0 <= i < n ensures FrameOf(buffer, channels, i) == FrameOf([], channels, i) {
      forall c | 0 <= c < channels ensures Sample(buffer, channels, i, c) == 0 {
        InRegion(i, c, n, channels);
        var k := i * channels + c;
        assert buffer[..n * channels][k] == 0;
      }
    }
  }

  /** What pop() copies out of a slot: its samples, or zeros for a silent one. */
  function CopiedOut(channels: nat, slot: Slot): seq<u32>
    requires slot.frames * channels <= |slot.audio|
  {
    if Silent(slot.flags) then Zeros(slot.frames * channels) else slot.audio[..slot.frames * channels]
  }

  lemma Filled(v: View, buffer: seq<u32>, slot: Slot)
    requires slot.frames * v.channels <= |buffer| && slot.frames * v.channels <= |slot.audio|
    requires buffer[..slot.frames * v.channels] == CopiedOut(v.channels, slot)
    ensures FramesOf(buffer, v.channels, slot.frames) == SlotFrames(v, slot)
  {
    if Silent(slot.flags) {
      ZeroFrames(buffer, v.channels, slot.frames);
    } else {
      SameBefore(buffer, slot.audio, v.channels, slot.frames);
    }
  }

  /** The buffer starts with the `frames` frames of the slot, zeros if it is silent, and is as before behind
      them. */
  predicate Holds(buffer: seq<u32>, before: seq<u32>, v: View, slot: Slot, frames: nat) {
    && frames == slot.frames && frames * v.channels <= |buffer| == |before|
    && FramesOf(buffer, v.channels, frames) == SlotFrames(v, slot)
    && buffer[frames * v.channels..] == before[frames * v.channels..]
  }

  class Ring {
    const channels: nat
    const framesPerSlot: nat
    const slots: array<Slot>
    var producer: nat
    var consumer: nat
    /** Every frame of every accepted packet, and of every packet handed to the consumer. */
    ghost var pushed: seq<Frame>
    ghost var popped: seq<Frame>

    ghost function AsValue(): View
      reads this, slots
    {
      View(channels, framesPerSlot, slots[..], producer, consumer)
    }

    ghost predicate Valid()
      reads this, slots
    {
      Shaped(AsValue())
    }

    /** Nothing but push() and pop() has touched the memory; every frame pushed was popped or is still
        queued, in order. */
    ghost predicate Genuine()
      reads this, slots
    {
      WellFormed(AsValue()) && popped + Queued(AsValue(), consumer) == pushed
    }

    constructor (channels: nat, framesPerSlot: nat, slotCount: nat)
      requires slotCount > 0
      ensures Valid() && Genuine() && fresh(slots) && pushed == popped == []
      ensures this.channels == channels && this.framesPerSlot == framesPerSlot && slots.Length == slotCount
    {
      this.channels, this.framesPerSlot := channels, framesPerSlot;
      slots := new Slot[slotCount](_ => Slot(0, 0, 0, Zeros(framesPerSlot * channels)));
      producer, consumer, pushed, popped := 0, 0, [], [];
    }

    method Push(audio: seq<u32>, frames: nat, flags: nat) returns (status: Status)
      requires Valid()
      modifies this`producer, this`pushed, slots
      ensures Valid()
      ensures status == if !Fits(old(AsValue()), audio, frames, flags) then InvalidPacket
                        else if consumer <= old(producer) < consumer + slots.Length then Completed else Full
      ensures AsValue() == if status == Completed then Pushed(old(AsValue()), audio, frames, flags) else old(AsValue())
      ensures pushed == if status == Completed then old(pushed) + FramesOf(audio, channels, frames) else old(pushed)
      ensures old(Genuine()) ==> Genuine()
    {
      hide Pushed, Stored, Queued, FramesOf;
      if frames == 0 || frames > framesPerSlot || flags >= 4
         || |audio| != (if Silent(flags) then 0 else frames * channels) {
        return InvalidPacket;
      }
      if producer < consumer || producer - consumer >= slots.Length {
        return Full;
      }
      ghost var was := AsValue();
      ghost var genuine := Genuine();
      Store(audio, frames, flags);
      if genuine {
        PushQueues(was, audio, frames, flags);
        assert popped + (Queued(was, consumer) + FramesOf(audio, channels, frames))
            == (popped + Queued(was, consumer)) + FramesOf(audio, channels, frames);
      }
      return Completed;
    }

    method Store(audio: seq<u32>, frames: nat, flags: nat)
      requires Valid() && Fits(AsValue(), audio, frames, flags)
      modifies this`producer, this`pushed, slots
      ensures Valid() && AsValue() == Pushed(old(AsValue()), audio, frames, flags)
      ensures pushed == old(pushed) + FramesOf(audio, channels, frames)
    {
      ghost var was := AsValue();
      StoredReadsBack(was, audio, frames, flags);
      Region(frames, framesPerSlot, channels);
      var index := producer % slots.Length;
      slots[index] := Slot(producer + 1, frames, flags, audio + slots[index].audio[|audio|..]);
      producer := producer + 1;
      pushed := pushed + FramesOf(audio, channels, frames);
      assert slots[..] == was.slots[index := Stored(was, audio, frames, flags)];
    }

    /** queued_frames() */
    method QueuedFrames() returns (frames: nat)
      requires Valid()
      ensures WellFormed(AsValue()) ==> frames == |Queued(AsValue(), consumer)|
    {
      if producer <= consumer || producer - consumer > slots.Length {
        return 0;
      }
      frames := 0;
      for sequence := consumer to producer
        invariant WellFormed(AsValue()) ==> frames + |Queued(AsValue(), sequence)| == |Queued(AsValue(), consumer)|
      {
        var slot := slots[sequence % slots.Length];
        assert slot == SlotAt(AsValue(), sequence);
        if slot.sequence == sequence + 1 && slot.frames <= framesPerSlot {
          frames := frames + slot.frames;
        }
      }
    }

    method Pop(audio: array<u32>) returns (status: Status, frames: nat)
      requires Valid()
      modifies this`consumer, this`popped, audio
      ensures Valid() && status == PopStatus(old(AsValue()), audio.Length)
      ensures AsValue() == old(AsValue()).(consumer := if Skips(old(AsValue()), audio.Length) then old(consumer) + 1 else old(consumer))
      ensures status == Completed ==> && 0 < frames <= framesPerSlot && frames * channels <= audio.Length
                                      && popped == old(popped) + FramesOf(audio[..], channels, frames)
      ensures status == Completed ==> Holds(audio[..], old(audio[..]), old(AsValue()), old(SlotAt(AsValue(), consumer)), frames)
      ensures status != Completed ==> popped == old(popped) && unchanged(audio)
      ensures old(Genuine()) && framesPerSlot * channels <= audio.Length ==> Genuine() && status != InvalidPacket
    {
      ghost var was := AsValue();
      if WellFormed(was) && framesPerSlot * channels <= audio.Length {
        WellFormedNeverInvalid(was, audio.Length);
      }
      if consumer == producer {
        return Empty, 0;
      }
      if consumer > producer || producer - consumer > slots.Length {
        return InvalidPacket, 0;
      }
      var slot := slots[consumer % slots.Length];
      if slot.sequence != consumer + 1 || slot.frames == 0 || slot.frames > framesPerSlot || slot.flags >= 4 {
        consumer := consumer + 1;
        return InvalidPacket, 0;
      }
      if audio.Length < slot.frames * channels {
        return InvalidPacket, 0;
      }
      frames := slot.frames;
      Deliver(audio, slot);
      return Completed, frames;
    }

    method Deliver(audio: array<u32>, slot: Slot)
      requires Valid() && consumer < producer && slot == SlotAt(AsValue(), consumer) && Sound(AsValue(), slot, consumer)
      requires slot.frames * channels <= audio.Length
      modifies this`consumer, this`popped, audio
      ensures Holds(audio[..], old(audio[..]), old(AsValue()), slot, slot.frames)
      ensures AsValue() == old(AsValue()).(consumer := old(consumer) + 1)
      ensures popped == old(popped) + FramesOf(audio[..], channels, slot.frames)
      ensures old(Genuine()) ==> Genuine()
    {
      ghost var was := AsValue();
      Region(slot.frames, framesPerSlot, channels);
      Fill(audio, CopiedOut(channels, slot));
      Filled(was, audio[..], slot);
      popped := popped + FramesOf(audio[..], channels, slot.frames);
      if WellFormed(was) {
        PopTakes(was);
      }
      consumer := consumer + 1;
    }
  }

  method Fill(audio: array<u32>, with: seq<u32>)
    requires |with| <= audio.Length
    modifies audio
    ensures audio[..|with|] == with && audio[|with|..] == old(audio[|with|..])
  {
    for k := 0 to |with|
      invariant audio[..k] == with[..k] && audio[|with|..] == old(audio[|with|..])
    {
      audio[k] := with[k];
    }
  }
}
