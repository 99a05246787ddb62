/** The Virtual ASIO render bus: producers push blocks of any size, each slot re-blocks them to the
    graph's block size, and read() mixes the oldest block of every active slot. The operations run
    one after the other here; BusProtocol and RenderStreamProtocol interleave their steps. */
module RenderBus {
  import opened Basics
  import opened AudioFifo

  datatype PushResult = Accepted | BadShape | StaleHandle | Overflow

  ghost predicate Shaped(frames: seq<Frame>, channels: nat) {
    forall k :: 0 <= k < |frames| ==> |frames[k]| == channels
  }

  /** Every queued block has the graph's block size and channel count. */
  ghost predicate BlocksShaped(blocks: seq<seq<Frame>>, channels: nat, frames: nat) {
    forall k :: 0 <= k < |blocks| ==> Shaped(blocks[k], channels) && |blocks[k]| == frames
  }

  /** A slot as a value: its handle, what it buffers, and the frames accepted and taken since it was
      attached. */
  datatype SlotView = SlotView(
    status: Status,
    generation: nat,
    queued: seq<seq<Frame>>,
    pending: seq<Frame>,
    accepted: seq<Frame>,
    taken: seq<Frame>)

  class RenderSlot {
    const channels: nat
    const frames: nat
    const pending: PlanarFifo
    const adapted: array<Frame>
    const queue: BlockQueue
    var status: Status
    var generation: nat
    var started: bool
    /** Since the slot was attached: every frame push() accepted, and every frame read() took. */
    ghost var accepted: seq<Frame>
    ghost var taken: seq<Frame>

    ghost function Footprint(): set<object> {
      {this, pending, pending.cells, adapted, queue, queue.cells}
    }

    ghost predicate Laid()
      reads this, pending, queue
    {
      && frames > 0 && pending.channels == channels && adapted.Length == frames
      && pending.cells.Length == MAX_FRAMES_PER_BLOCK + frames
      && adapted != pending.cells
      && pending.Valid() && queue.Valid()
    }

    /** The stream law: frames taken, then queued blocks, then pending frames, are exactly the
        frames accepted. */
    ghost predicate Valid()
      reads Footprint()
    {
      && Laid()
      && BlocksShaped(queue.Contents(), channels, frames) && Shaped(pending.Contents(), channels)
      && taken + Flatten(queue.Contents()) + pending.Contents() == accepted
    }

    /** The slot as a value. */
    ghost function View(): SlotView
      requires Valid()
      reads Footprint()
    {
      SlotView(status, generation, queue.Contents(), pending.Contents(), accepted, taken)
    }

    /** Frames inside the slot: queued blocks and pending frames. */
    ghost function Buffered(): nat
      requires Valid()
      reads Footprint()
    {
      queue.Depth() * frames + pending.available
    }

    constructor (channels: nat, frames: nat, capacityBlocks: nat)
      requires frames > 0 && capacityBlocks > 0
      ensures Valid() && fresh(Footprint()) && status == Idle && accepted == [] && taken == []
      ensures this.channels == channels && this.frames == frames && queue.Capacity() == capacityBlocks
    {
      this.channels, this.frames := channels, frames;
      pending := new PlanarFifo(channels, MAX_FRAMES_PER_BLOCK + frames);
      adapted := new Frame[frames](_ => []);
      queue := new BlockQueue(capacityBlocks);
      status, generation, started := Idle, 0, false;
      accepted, taken := [], [];
    }

    /** The part of attach() and detach() that touches the slot: empty it and set its status and generation. */
    method Reset(status: Status, generation: nat)
      requires Valid()
      modifies Footprint()
      ensures Valid() && View() == SlotView(status, generation, [], [], [], [])
    {
      queue.Clear();
      pending.Clear();
      started := false;
      accepted, taken := [], [];
      this.status, this.generation := status, generation;
    }

    /** One round of drain_pending(): a full block goes from the pending FIFO to the queue. The drop
        path (`dropped`) is never taken. */
    method MoveBlock() returns (dropped: bool)
      requires Valid() && pending.available >= frames && queue.Depth() < queue.Capacity()
      modifies pending, adapted, queue, queue.cells
      ensures Valid() && !dropped
      ensures queue.Depth() == old(queue.Depth()) + 1
      ensures pending.available == old(pending.available) - frames
    {
      ghost var q, p := queue.Contents(), pending.Contents();
      var popped := pending.Pop(adapted, channels, frames);
      assert adapted[..] == p[..frames];
      if popped != frames {
        return true;
      }
      assert queue.Contents() == q;
      var enqueued := queue.Enqueue(adapted[..]);
      if !enqueued {
        return true;
      }
      assert pending.Contents() == p[frames..];
      FlattenAppend(q, p[..frames]);
      MovedStream(taken, Flatten(q), p, frames);
      return false;
    }

    /** Moves full blocks from the pending FIFO to the queue until one of them runs out of room. */
    method DrainPending() returns (dropped: bool)
      requires Valid()
      modifies pending, adapted, queue, queue.cells
      ensures Valid() && !dropped
      ensures Buffered() == old(Buffered())
      ensures pending.available < frames || queue.Depth() == queue.Capacity()
    {
      while pending.available >= frames
        invariant Valid() && Buffered() == old(Buffered())
        decreases pending.available
      {
        queue.FullMeansMeeting();
        if queue.Increment(queue.writeIndex) == queue.readIndex {
          return false;
        }
        NextMultiple(queue.Depth(), frames);
        dropped := MoveBlock();
        if dropped {
          return;
        }
      }
      return false;
    }

    /** push() on an attached slot, after its shape and handle checks. */
    method PushFrames(source: seq<Frame>) returns (result: PushResult, dropped: bool)
      requires Valid() && 0 < |source| <= MAX_FRAMES_PER_BLOCK && Shaped(source, channels)
      modifies Footprint()
      ensures Valid() && !dropped && (result == Accepted || result == Overflow)
      ensures taken == old(taken) && status == old(status) && generation == old(generation)
      ensures accepted == if result == Accepted then old(accepted) + source else old(accepted)
      ensures result == Accepted <==> HasRoom(old(Buffered()), |source|, queue.Capacity(), frames)
    {
      dropped := DrainPending();
      queue.FullMeansMeeting();
      RoomAfterDrain(queue.Depth(), pending.available, |source|, queue.Capacity(), frames);
      if queue.Increment(queue.writeIndex) == queue.readIndex && pending.available + |source| >= frames {
        return Overflow, dropped;
      }
      if pending.FreeFrames() < |source| {
        return Overflow, dropped;
      }
      result, dropped := Append(source);
    }

    method Append(source: seq<Frame>) returns (result: PushResult, dropped: bool)
      requires Valid() && Shaped(source, channels) && |source| <= pending.FreeFrames()
      modifies Footprint()
      ensures Valid() && !dropped && result == Accepted
      ensures taken == old(taken) && status == old(status) && generation == old(generation)
      ensures accepted == old(accepted) + source
    {
      ghost var p, q := pending.Contents(), Flatten(queue.Contents());
      var pushed := pending.Push(source, channels, |source|);
      if pushed != |source| {
        return Overflow, dropped;
      }
      accepted := accepted + source;
      assert source[..pushed] == source;
      assert taken + q + (p + source) == (taken + q + p) + source;
      dropped := DrainPending();
      started := true;
      return Accepted, dropped;
    }

    /** Takes the oldest queued block, as read() does after mixing it. */
    method TakeBlock() returns (block: seq<Frame>)
      requires Valid() && queue.Depth() > 0
      modifies this, queue
      ensures Valid() && block == old(queue.Contents())[0]
      ensures View() == Taken(old(View()))
    {
      block := queue.Head();
      queue.Advance();
      taken := taken + block;
    }
  }

  /** A slot after read() took its oldest block. */
  function Taken(v: SlotView): SlotView
    requires v.queued != []
  {
    v.(queued := v.queued[1..], taken := v.taken + v.queued[0])
  }

  /** A slot after detach() under its own generation. */
  function Detached(v: SlotView): SlotView {
    if v.status == Active then SlotView(Idle, v.generation, [], [], [], []) else v.(status := Claiming)
  }

  /** What a slot contributes to one sample of the mix: its oldest block, if it is active. */
  function Contribution(v: SlotView, c: nat, f: nat): real {
    if v.status == Active && v.queued != [] && f < |v.queued[0]| && c < |v.queued[0][f]| then v.queued[0][f][c] else 0.0
  }

  function Mix(views: seq<SlotView>, c: nat, f: nat): real {
    if views == [] then 0.0 else Mix(views[..|views| - 1], c, f) + Contribution(views[|views| - 1], c, f)
  }

  predicate Ready(v: SlotView) {
    v.status == Active && v.queued != []
  }

  /** push() adds exactly the accepted frames to the slot's stream, and takes nothing. */
  ghost predicate AfterPush(was: SlotView, now: SlotView, added: seq<Frame>) {
    && now.accepted == was.accepted + added
    && now.taken == was.taken && now.status == was.status && now.generation == was.generation
  }

  predicate AnyReady(views: seq<SlotView>) {
    exists k :: 0 <= k < |views| && Ready(views[k])
  }

  lemma AnyReadyNext(views: seq<SlotView>, n: nat)
    requires n < |views|
    ensures AnyReady(views[..n + 1]) <==> AnyReady(views[..n]) || Ready(views[n])
  {
    if AnyReady(views[..n]) {
      var k :| 0 <= k < n && Ready(views[..n][k]);
      assert Ready(views[..n + 1][k]);
    }
    if Ready(views[n]) {
      assert Ready(views[..n + 1][n]);
    }
    if AnyReady(views[..n + 1]) {
      var k :| 0 <= k < n + 1 && Ready(views[..n + 1][k]);
      assert k < n ==> Ready(views[..n][k]);
    }
  }

  /** The destination holds the mix of these slots. */
  ghost predicate HoldsMix(destination: array2<real>, views: seq<SlotView>)
    reads destination
  {
    forall c, f :: 0 <= c < destination.Length0 && 0 <= f < destination.Length1 ==> destination[c, f] == Mix(views, c, f)
  }

  function AfterRead(v: SlotView): SlotView {
    if Ready(v) then Taken(v) else v
  }

  /** The first `n` slots after read() has visited them. */
  function AfterReads(views: seq<SlotView>, n: nat): (r: seq<SlotView>)
    ensures |r| == |views|
    ensures forall k :: 0 <= k < |views| ==> r[k] == if k < n then AfterRead(views[k]) else views[k]
  {
    seq(|views|, k requires 0 <= k < |views| => if k < n then AfterRead(views[k]) else views[k])
  }

  lemma NextRead(views: seq<SlotView>, n: nat)
    requires n < |views|
    ensures AfterReads(views, n)[n := AfterRead(views[n])] == AfterReads(views, n + 1)
  {
  }

  ghost predicate Made(slot: RenderSlot, channels: nat, frames: nat, capacity: nat)
    reads slot.Footprint()
  {
    && slot.Valid() && slot.status == Idle && slot.channels == channels && slot.frames == frames
    && slot.queue.Capacity() == capacity
  }

  class Bus {
    const channels: nat
    const frames: nat
    const slots: seq<RenderSlot>
    ghost const owned: set<object>
    var nextGeneration: nat
    var droppedBlocks: nat
    var consumedBlocks: nat

    ghost predicate SlotsValid()
      reads owned
    {
      && frames > 0 && channels > 0 && this !in owned
      && (forall k :: 0 <= k < |slots| ==>
            slots[k].Footprint() <= owned && slots[k].Valid() && slots[k].channels == channels && slots[k].frames == frames)
      && (forall j, k :: 0 <= j < |slots| && 0 <= k < |slots| && j != k ==> slots[j].Footprint() !! slots[k].Footprint())
    }

    ghost predicate Valid()
      reads this, owned
    {
      SlotsValid() && nextGeneration > 0
    }

    ghost function Views(): (v: seq<SlotView>)
      requires SlotsValid()
      reads owned
      ensures |v| == |slots|
      ensures forall k :: 0 <= k < |v| ==> v[k] == slots[k].View()
    {
      seq(|slots|, k requires 0 <= k < |slots| && SlotsValid() reads owned => slots[k].View())
    }

    constructor (channels: nat, frames: nat, maximumProducers: nat, capacityBlocks: nat)
      requires channels > 0 && frames > 0 && maximumProducers > 0 && capacityBlocks > 0
      ensures Valid() && fresh(owned) && |slots| == maximumProducers
      ensures forall k :: 0 <= k < |slots| ==> slots[k].status == Idle && slots[k].queue.Capacity() == capacityBlocks
    {
      var made: seq<RenderSlot> := [];
      ghost var footprint: set<object> := {};
      for i := 0 to maximumProducers
        invariant |made| == i && fresh(footprint)
        invariant forall k :: 0 <= k < i ==> made[k].Footprint() <= footprint && Made(made[k], channels, frames, capacityBlocks)
        invariant forall j, k :: 0 <= j < i && 0 <= k < i && j != k ==> made[j].Footprint() !! made[k].Footprint()
      {
        var slot := new RenderSlot(channels, frames, capacityBlocks);
        made := made + [slot];
        footprint := footprint + slot.Footprint();
      }
      this.channels, this.frames, slots, owned := channels, frames, made, footprint;
      nextGeneration, droppedBlocks, consumedBlocks := 1, 0, 0;
    }

    /** Changing one slot leaves every other slot as it was. */
    twostate lemma OneSlotChanged(i: nat)
      requires old(SlotsValid()) && i < |slots| && slots[i].Valid()
      requires forall o :: o in owned && o !in slots[i].Footprint() ==> unchanged(o)
      ensures SlotsValid() && Views() == old(Views())[i := slots[i].View()]
    {
      forall k | 0 <= k < |slots| && k != i
        ensures slots[k].Valid() && slots[k].View() == old(slots[k].View())
      {
        assert slots[k].Footprint() !! slots[i].Footprint();
      }
    }

    /** attach(): claims the first idle slot, empties it, and gives it a fresh generation. */
    method Attach() returns (slot: Option<nat>, generation: nat)
      requires Valid()
      modifies this, owned
      ensures Valid()
      ensures match slot
              case None => Views() == old(Views()) && forall k :: 0 <= k < |slots| ==> Views()[k].status != Idle
              case Some(i) =>
                && i < |slots| && old(Views())[i].status == Idle && generation == old(nextGeneration)
                && Views() == old(Views())[i := SlotView(Active, generation, [], [], [], [])]
    {
      for i := 0 to |slots|
        invariant Views() == old(Views()) && unchanged(this)
        invariant forall k :: 0 <= k < i ==> slots[k].status != Idle
      {
        if slots[i].status == Idle {
          slots[i].Reset(Active, nextGeneration);
          generation := nextGeneration;
          nextGeneration := nextGeneration + 1;
          return Some(i), generation;
        }
      }
      return None, 0;
    }

    /** detach(): empties the slot and puts it out of use. A second detach() under the same generation
        would leave the slot claimed for good; SlotProtocol shows that handles never cause one. */
    method Detach(slot: nat, generation: nat)
      requires Valid()
      modifies owned
      ensures Valid()
      ensures Views() == if slot < |slots| && old(Views())[slot].generation == generation
                         then old(Views())[slot := Detached(old(Views())[slot])] else old(Views())
    {
      if slot >= |slots| || slots[slot].generation != generation {
        return;
      }
      if slots[slot].status == Active {
        slots[slot].Reset(Idle, generation);
      } else {
        slots[slot].status := Claiming;
      }
      OneSlotChanged(slot);
    }

    /** push() through a handle. */
    method Push(slot: nat, generation: nat, source: seq<Frame>, sourceChannels: nat) returns (ok: bool)
      requires Valid() && Shaped(source, sourceChannels)
      modifies this`droppedBlocks, owned
      ensures Valid()
      ensures ok <==> && slot < |slots| && sourceChannels == channels && 0 < |source| <= MAX_FRAMES_PER_BLOCK
                      && old(Views())[slot].status == Active && old(Views())[slot].generation == generation
                      && HasRoom(old(slots[slot].Buffered()), |source|, slots[slot].queue.Capacity(), frames)
      ensures slot < |slots| ==>
                && Views() == old(Views())[slot := Views()[slot]]
                && AfterPush(old(Views())[slot], Views()[slot], if ok then source else [])
      ensures slot >= |slots| ==> Views() == old(Views())
      ensures droppedBlocks == old(droppedBlocks) + if ok then 0 else 1
    {
      if slot >= |slots| || sourceChannels != channels || |source| == 0 || |source| > MAX_FRAMES_PER_BLOCK
         || slots[slot].status != Active || slots[slot].generation != generation {
        droppedBlocks := droppedBlocks + 1;
        return false;
      }
      var result, dropped := PushToSlot(slot, source);
      droppedBlocks := droppedBlocks + (if dropped then 1 else 0) + (if result == Overflow then 1 else 0);
      return result == Accepted;
    }

    method PushToSlot(slot: nat, source: seq<Frame>) returns (result: PushResult, dropped: bool)
      requires Valid() && slot < |slots| && 0 < |source| <= MAX_FRAMES_PER_BLOCK && Shaped(source, channels)
      modifies owned
      ensures Valid() && !dropped && (result == Accepted || result == Overflow)
      ensures result == Accepted <==>
              HasRoom(old(slots[slot].Buffered()), |source|, slots[slot].queue.Capacity(), frames)
      ensures Views() == old(Views())[slot := slots[slot].View()]
      ensures AfterPush(old(Views())[slot], Views()[slot], if result == Accepted then source else [])
    {
      result, dropped := slots[slot].PushFrames(source);
      OneSlotChanged(slot);
    }

    /** read(): mixes the oldest block of every active slot into the destination and takes it. */
    method Read(destination: array2<real>) returns (mixed: bool)
      requires Valid() && destination !in owned
      modifies this`consumedBlocks, owned, destination
      ensures Valid()
      ensures destination.Length0 == channels && destination.Length1 == frames ==>
                && HoldsMix(destination, old(Views()))
                && (mixed <==> AnyReady(old(Views())))
                && Views() == AfterReads(old(Views()), |slots|)
      ensures destination.Length0 != channels || destination.Length1 != frames ==>
                && !mixed && Views() == old(Views()) && HoldsMix(destination, [])
    {
      ClearBuffer(destination);
      if destination.Length0 != channels || destination.Length1 != frames {
        return false;
      }
      mixed := MixSlots(destination);
    }

    method MixSlots(destination: array2<real>) returns (mixed: bool)
      requires Valid() && destination !in owned
      requires destination.Length0 == channels && destination.Length1 == frames
      requires HoldsMix(destination, [])
      modifies this`consumedBlocks, owned, destination
      ensures Valid()
      ensures HoldsMix(destination, old(Views()))
      ensures mixed <==> AnyReady(old(Views()))
      ensures Views() == AfterReads(old(Views()), |slots|)
    {
      mixed := false;
      ghost var was := Views();
      for i := 0 to |slots|
        invariant Valid()
        invariant HoldsMix(destination, was[..i])
        invariant mixed <==> AnyReady(was[..i])
        invariant Views() == AfterReads(was, i)
      {
        var took := MixOne(i, destination, was[..i]);
        mixed := mixed || took;
        NextRead(was, i);
        AnyReadyNext(was, i);
        assert was[..i + 1] == was[..i] + [was[i]];
      }
      assert was[..|slots|] == was;
    }

    method MixOne(i: nat, destination: array2<real>, ghost mixedSoFar: seq<SlotView>) returns (took: bool)
      requires Valid() && i < |slots| && destination !in owned
      requires destination.Length0 == channels && destination.Length1 == frames
      requires HoldsMix(destination, mixedSoFar)
      modifies this`consumedBlocks, owned, destination
      ensures Valid() && took == Ready(old(Views())[i])
      ensures Views() == old(Views())[i := AfterRead(old(Views())[i])]
      ensures HoldsMix(destination, mixedSoFar + [old(Views())[i]])
    {
      ghost var view := Views()[i];
      assert (mixedSoFar + [view])[..|mixedSoFar|] == mixedSoFar;
      var block := TakeFrom(i);
      if block.Some? {
        AddBlock(destination, block.value, channels, frames);
      }
      return block.Some?;
    }

    /** Takes the oldest block of slot `i`, if it is active and has one. */
    method TakeFrom(i: nat) returns (block: Option<seq<Frame>>)
      requires Valid() && i < |slots|
      modifies this`consumedBlocks, owned
      ensures Valid()
      ensures block == if Ready(old(Views())[i]) then Some(old(Views())[i].queued[0]) else None
      ensures Views() == old(Views())[i := AfterRead(old(Views())[i])]
      ensures block.Some? ==> |block.value| == frames && Shaped(block.value, channels)
    {
      slots[i].queue.FullMeansMeeting();
      if slots[i].status != Active || slots[i].queue.readIndex == slots[i].queue.writeIndex {
        return None;
      }
      var head := slots[i].TakeBlock();
      OneSlotChanged(i);
      consumedBlocks := consumedBlocks + 1;
      return Some(head);
    }
  }

  method ClearBuffer(destination: array2<real>)
    modifies destination
    ensures HoldsMix(destination, [])
  {
    forall c, f | 0 <= c < destination.Length0 && 0 <= f < destination.Length1 {
      destination[c, f] := 0.0;
    }
  }

  /** Adds one block to the mix, channel by channel. */
  method AddBlock(destination: array2<real>, block: seq<Frame>, channels: nat, frames: nat)
    requires destination.Length0 == channels && destination.Length1 == frames
    requires |block| == frames && Shaped(block, channels)
    modifies destination
    ensures forall c, f :: 0 <= c < channels && 0 <= f < frames ==>
              destination[c, f] == old(destination[c, f]) + block[f][c]
  {
    for c := 0 to channels
      invariant forall i, f :: 0 <= i < c && 0 <= f < frames ==>
                  destination[i, f] == old(destination[i, f]) + block[f][i]
      invariant forall i, f :: c <= i < channels && 0 <= f < frames ==> destination[i, f] == old(destination[i, f])
    {
      for f := 0 to frames
        invariant forall i, g :: 0 <= i < channels && 0 <= g < frames ==>
                    destination[i, g] == old(destination[i, g]) + if i < c || (i == c && g < f) then block[g][i] else 0.0
      {
        destination[c, f] := destination[c, f] + block[f][c];
      }
    }
  }

  /** Exactly when a push of `n` frames is accepted by a slot that buffers `buffered` frames: its queue
      has a free block, or the frames do not complete another block. */
  predicate HasRoom(buffered: nat, n: nat, capacity: nat, frames: nat) {
    buffered < capacity * frames || buffered + n < (capacity + 1) * frames
  }

  lemma MovedStream(taken: seq<Frame>, queued: seq<Frame>, pending: seq<Frame>, n: nat)
    requires n <= |pending|
    ensures taken + (queued + pending[..n]) + pending[n..] == taken + queued + pending
  {
  }

  lemma NextMultiple(k: nat, frames: nat)
    ensures (k + 1) * frames == k * frames + frames
  {
  }

  lemma RoomAfterDrain(depth: nat, pending: nat, n: nat, capacity: nat, frames: nat)
    requires depth <= capacity && (pending < frames || depth == capacity)
    ensures HasRoom(depth * frames + pending, n, capacity, frames) <==> depth < capacity || pending + n < frames
  {
    NextMultiple(capacity, frames);
    NextMultiple(depth, frames);
    if depth < capacity {
      assert (depth + 1) * frames <= capacity * frames;
    }
  }
}
